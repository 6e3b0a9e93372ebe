/** The file tools the stages call: `read_file` (with its path rewriting, candidate search,
    checks and numbered line window), `list_directory`, and `write_file` (which keeps the
    previous output as a timestamped backup). The file system is the map of `FileSystem`; the
    configured code base and output directories are parameters. */
module FileTools {
  import opened Wrappers
  import opened Text
  import opened MessageLog
  import opened FileSystem

  /** The source tree's location inside the container the traces come from. */
  const ContainerRoot := "/usr/srv/app/"
  const MaxFileSize: nat := 1000000
  const AllowedExtensions: set<string> :=
    {".py", ".txt", ".json", ".md", ".html", ".yml", ".yaml", ".ini", ".cfg", ".toml"}
  const MaxDisplayLines: nat := 800
  /** Relative paths under these package directories are looked up in `app/` first. */
  const AppPackages := ["services/", "models/", "routes/", "config/", "utils/"]

  function Min(a: int, b: int): int { if a <= b then a else b }
  function Max(a: int, b: int): int { if a >= b then a else b }

  // ---------------------------------------------------------------------------------------
  // Paths and candidates
  // ---------------------------------------------------------------------------------------

  /** A path from the container is made local by deleting every occurrence of the container
      root; any other path is kept. */
  function LocalPath(path: string): string {
    if StartsWith(path, ContainerRoot) then ReplaceAll(path, ContainerRoot, "") else path
  }

  lemma {:induction false} ReplaceAllAbsent(s: string, pattern: string, replacement: string)
    requires |pattern| > 0
    requires forall j :: !OccursAt(s, pattern, j)
    ensures ReplaceAll(s, pattern, replacement) == s
    decreases |s|
  {
    if s != [] {
      assert !OccursAt(s, pattern, 0);
      forall j | OccursAt(s[1..], pattern, j)
        ensures false
      {
        assert s[1..][j..j + |pattern|] == s[j + 1..j + 1 + |pattern|];
        assert OccursAt(s, pattern, j + 1);
      }
      ReplaceAllAbsent(s[1..], pattern, replacement);
    }
  }

  /** `replace` removes the leftmost occurrence and carries on scanning just after it: the text
      before it is kept, the occurrence becomes the replacement, and the rest is replaced in
      turn. */
  lemma {:induction false} ReplaceAllLeftmost(a: string, pattern: string, replacement: string, b: string)
    requires |pattern| > 0
    requires forall j :: 0 <= j < |a| ==> !OccursAt(a + pattern + b, pattern, j)
    ensures ReplaceAll(a + pattern + b, pattern, replacement) == a + replacement + ReplaceAll(b, pattern, replacement)
    decreases |a|
  {
    var s := a + pattern + b;
    if a == [] {
      assert s == pattern + b;
      assert s[..|pattern|] == pattern;
      assert s[|pattern|..] == b;
    } else {
      assert !OccursAt(s, pattern, 0);
      assert s[1..] == a[1..] + pattern + b;
      forall j | 0 <= j < |a[1..]| && OccursAt(a[1..] + pattern + b, pattern, j)
        ensures false
      {
        assert s[1..][j..j + |pattern|] == s[j + 1..j + 1 + |pattern|];
        assert OccursAt(s, pattern, j + 1);
      }
      ReplaceAllLeftmost(a[1..], pattern, replacement, b);
      assert [s[0]] + a[1..] == a;
    }
  }

  /** The container root is deleted wherever it occurs, not only as the leading prefix: a path
      that names the root a second time loses both occurrences. */
  lemma LocalPathRemovesEvery(a: string, b: string)
    requires forall j :: 0 <= j < |a| ==> !OccursAt(a + ContainerRoot + b, ContainerRoot, j)
    requires forall j :: !OccursAt(b, ContainerRoot, j)
    ensures LocalPath(ContainerRoot + a + ContainerRoot + b) == a + b
  {
    var tail := a + ContainerRoot + b;
    var s := ContainerRoot + tail;
    assert s == ContainerRoot + a + ContainerRoot + b;
    assert s[..|ContainerRoot|] == ContainerRoot;
    ReplaceAllLeftmost([], ContainerRoot, "", tail);
    assert [] + ContainerRoot + tail == s;
    ReplaceAllLeftmost(a, ContainerRoot, "", b);
    ReplaceAllAbsent(b, ContainerRoot, "");
  }

  /** A container path whose remainder does not mention the container root again becomes that
      remainder, relative to the code base. */
  lemma ContainerPathIsLocal(rest: string)
    requires forall j :: !OccursAt(rest, ContainerRoot, j)
    ensures LocalPath(ContainerRoot + rest) == rest
  {
    var s := ContainerRoot + rest;
    assert s[..|ContainerRoot|] == ContainerRoot;
    assert s[|ContainerRoot|..] == rest;
    ReplaceAllAbsent(rest, ContainerRoot, "");
  }

  predicate InAppPackage(path: string) {
    exists k :: 0 <= k < |AppPackages| && StartsWith(path, AppPackages[k])
  }

  /** The places `list_directory` looks, in order: an absolute path alone; a relative one under
      `app/` of the code base, under the code base, then as given. */
  function DirectoryCandidates(codebase: string, path: string): (cs: seq<string>)
    ensures IsAbsolute(path) ==> cs == [path]
    ensures !IsAbsolute(path) ==>
              cs == [Under(Under(codebase, "app"), path), Under(codebase, path), path]
  {
    if IsAbsolute(path) then [path]
    else [Under(Under(codebase, "app"), path), Under(codebase, path), path]
  }

  /** The places `read_file` looks: as for a directory, except that a path in one of the
      application's packages puts the `app/` location in front once more. */
  function FileCandidates(codebase: string, path: string): (cs: seq<string>)
    ensures IsAbsolute(path) ==> cs == [path]
    ensures !IsAbsolute(path) ==>
              |cs| == (if InAppPackage(path) then 4 else 3)
              && cs[|cs| - 1] == path && cs[|cs| - 2] == Under(codebase, path)
              && cs[|cs| - 3] == Under(Under(codebase, "app"), path)
              && cs[0] == Under(Under(codebase, "app"), path)
    ensures !IsAbsolute(path) && InAppPackage(path) ==> cs[0] == cs[1]
  {
    var base := DirectoryCandidates(codebase, path);
    if !IsAbsolute(path) && InAppPackage(path) then [Under(Under(codebase, "app"), path)] + base
    else base
  }

  /** `candidate.exists()`, and for a directory search also `candidate.is_dir()`. */
  predicate Accepts(tree: Tree, candidate: string, wantDirectory: bool) {
    candidate in tree && (wantDirectory ==> tree[candidate].Directory?)
  }

  /** The first accepted candidate. */
  function FirstFound(cs: seq<string>, tree: Tree, wantDirectory: bool): (r: Option<string>)
    ensures r.None? <==> forall i :: 0 <= i < |cs| ==> !Accepts(tree, cs[i], wantDirectory)
    ensures r.Some? ==>
              exists i :: 0 <= i < |cs| && cs[i] == r.value && Accepts(tree, cs[i], wantDirectory)
                          && forall j :: 0 <= j < i ==> !Accepts(tree, cs[j], wantDirectory)
    decreases |cs|
  {
    if cs == [] then None
    else if Accepts(tree, cs[0], wantDirectory) then Some(cs[0])
    else
      var r := FirstFound(cs[1..], tree, wantDirectory);
      assert r.Some? ==> exists i :: 1 <= i < |cs| && cs[i] == r.value
                           && Accepts(tree, cs[i], wantDirectory)
                           && forall j :: 1 <= j < i ==> !Accepts(tree, cs[j], wantDirectory) by {
        if r.Some? {
          var i :| 0 <= i < |cs[1..]| && cs[1..][i] == r.value
                   && Accepts(tree, cs[1..][i], wantDirectory)
                   && forall j :: 0 <= j < i ==> !Accepts(tree, cs[1..][j], wantDirectory);
          assert cs[i + 1] == r.value;
          forall j | 1 <= j < i + 1
            ensures !Accepts(tree, cs[j], wantDirectory)
          {
            assert cs[j] == cs[1..][j - 1];
          }
        }
      }
      r
  }

  /** The candidate loop: the first candidate that exists (and is a directory, when one is
      wanted) ends the search. */
  method FindCandidate(cs: seq<string>, tree: Tree, wantDirectory: bool) returns (r: Option<string>)
    ensures r == FirstFound(cs, tree, wantDirectory)
  {
    var i := 0;
    while i < |cs|
      invariant 0 <= i <= |cs|
      invariant FirstFound(cs, tree, wantDirectory) == FirstFound(cs[i..], tree, wantDirectory)
    {
      if Accepts(tree, cs[i], wantDirectory) {
        return Some(cs[i]);
      }
      assert cs[i..][1..] == cs[i + 1..];
      i := i + 1;
    }
    return None;
  }

  function Searched(cs: seq<string>): string {
    Join(seq(|cs|, i requires 0 <= i < |cs| => "  - " + cs[i]), "\n")
  }

  // ---------------------------------------------------------------------------------------
  // read_file
  // ---------------------------------------------------------------------------------------

  /** The index of the last `c` in `s`, or -1 (`str.rfind`). */
  function LastIndex(s: string, c: char): (i: int)
    ensures -1 <= i < |s|
    ensures i >= 0 ==> s[i] == c
    ensures forall j :: i < j < |s| ==> s[j] != c
  {
    if s == [] then -1
    else if s[|s| - 1] == c then |s| - 1
    else LastIndex(s[..|s| - 1], c)
  }

  /** `PurePath.suffix`: the final component's extension, from its last dot; a name that starts
      with its only dot, or ends with a dot, has none. */
  function Suffix(path: string): (r: string)
    ensures r == "" || (r[0] == '.' && '.' !in r[1..] && |r| >= 2)
  {
    var name := Basename(path);
    var i := LastIndex(name, '.');
    if 0 < i < |name| - 1 then name[i..] else ""
  }

  /** The lines shown: `first` and `last` are `start_idx` and `end_idx` after clamping and the
      800-line cap, and `truncated` says whether the cap applied. */
  datatype Window = Window(first: nat, last: nat, truncated: bool)

  /** The requested end of the window, cut at the end of the file. */
  function RequestedEnd(end: Option<int>, total: nat): int {
    if end.Some? then Min(end.value, total) else total
  }

  /** The window arithmetic of `read_file`, for line numbers that passed validation: the window
      starts at the requested line (or the end of the file), runs to the requested end, and is
      cut to 800 lines, with the truncation note, exactly when it would be longer. */
  function LineWindow(start: Option<int>, end: Option<int>, total: nat): (w: Window)
    requires start.Some? ==> start.value >= 1
    requires end.Some? ==> end.value >= 1
    ensures w.first <= w.last <= total
    ensures w.last - w.first <= MaxDisplayLines
    ensures w.first == (if start.Some? then Min(start.value - 1, total) else 0)
    ensures w.truncated <==> RequestedEnd(end, total) - w.first > MaxDisplayLines
    ensures w.truncated ==> w.last == w.first + MaxDisplayLines
    ensures !w.truncated ==> w.last == Max(w.first, RequestedEnd(end, total))
  {
    var startIdx := if start.Some? then start.value - 1 else 0;
    var endIdx := if end.Some? then end.value else total;
    var first := Max(0, Min(startIdx, total));
    var last := Max(first, Min(endIdx, total));
    if last - first > MaxDisplayLines then Window(first, first + MaxDisplayLines, true)
    else Window(first, last, false)
  }

  /** Without a range, a file of at most 800 lines is shown whole, and a longer one is cut to
      its first 800 lines with the truncation note. */
  lemma WholeFileWindow(total: nat)
    ensures total <= MaxDisplayLines ==> LineWindow(None, None, total) == Window(0, total, false)
    ensures total > MaxDisplayLines ==>
              LineWindow(None, None, total) == Window(0, MaxDisplayLines, true)
  {
  }

  /** A range inside the file and no longer than 800 lines shows exactly lines `s` to `e`. */
  lemma RequestedWindow(s: int, e: int, total: nat)
    requires 1 <= s <= e <= total && e - s + 1 <= MaxDisplayLines
    ensures LineWindow(Some(s), Some(e), total) == Window(s - 1, e, false)
  {
  }

  /** A range that starts after the last line shows nothing; a range that runs past the end
      stops at the last line. */
  lemma WindowPastEnd(s: int, e: int, total: nat)
    requires 1 <= s <= e
    ensures total < s ==> LineWindow(Some(s), Some(e), total) == Window(total, total, false)
    ensures s <= total < e && total - s + 1 <= MaxDisplayLines ==>
              LineWindow(Some(s), Some(e), total) == Window(s - 1, total, false)
  {
  }

  /** `f"{n:4d} | {line}"`. */
  function NumberedLine(n: nat, line: string): string {
    PadLeft(Decimal(n), 4) + " | " + line
  }

  /** The selected lines, each with its 1-based line number in the file. */
  function Numbered(lines: seq<string>, w: Window): (r: seq<string>)
    requires w.first <= w.last <= |lines|
    ensures |r| == w.last - w.first
  {
    seq(w.last - w.first, i requires 0 <= i < w.last - w.first =>
      NumberedLine(w.first + i + 1, lines[w.first + i]))
  }

  /** Each shown line ends with the file's line and starts with its line number, padded to
      four columns. */
  lemma NumberedShowsLines(lines: seq<string>, w: Window, i: nat)
    requires w.first <= w.last <= |lines| && i < w.last - w.first
    ensures var r := Numbered(lines, w)[i]; var line := lines[w.first + i];
      |r| >= |line| + 3 + 4
      && r[|r| - |line|..] == line
      && r[..|r| - |line| - 3] == PadLeft(Decimal(w.first + i + 1), 4)
  {
    var line := lines[w.first + i];
    var pad := PadLeft(Decimal(w.first + i + 1), 4);
    var r := Numbered(lines, w)[i];
    assert r == NumberedLine(w.first + i + 1, line);
    assert r == pad + " | " + line;
    assert r[..|pad|] == pad;
    assert r[|r| - |line|..] == line;
  }

  const TruncationNote := "\n\n[Truncated to 800 lines to keep output concise]"

  function RangeInfo(start: Option<int>, end: Option<int>, w: Window, total: nat): string {
    if start.Some? || end.Some? then
      " (showing lines " + Decimal(w.first + 1) + "-" + Decimal(w.last) + " of " + Decimal(total) + ")"
    else ""
  }

  /** The reply for a readable file: path, size, line count, the range shown, the numbered
      lines and the truncation note. The size is that of the stored text; the lines are those
      of the text as read in text mode, with its line breaks translated. */
  function ShowFile(path: string, content: string, start: Option<int>, end: Option<int>): string
    requires start.Some? ==> start.value >= 1
    requires end.Some? ==> end.value >= 1
  {
    var lines := Split(UniversalNewlines(content), '\n');
    var w := LineWindow(start, end, |lines|);
    "File: " + path + "\nSize: " + Decimal(|content|) + " bytes\nLines: " + Decimal(|lines|)
    + RangeInfo(start, end, w, |lines|) + "\n\n" + Join(Numbered(lines, w), "\n")
    + (if w.truncated then TruncationNote else "")
  }

  /** The checks on the line range, in the order `read_file` makes them. */
  function RangeError(start: Option<int>, end: Option<int>): (r: Option<string>)
    ensures r.None? <==> (start.Some? ==> start.value >= 1) && (end.Some? ==> end.value >= 1)
                         && (start.Some? && end.Some? ==> start.value <= end.value)
  {
    if start.Some? && start.value < 1 then Some("Error: start_line must be >= 1")
    else if end.Some? && end.value < 1 then Some("Error: end_line must be >= 1")
    else if start.Some? && end.Some? && start.value > end.value then
      Some("Error: start_line cannot be greater than end_line")
    else None
  }

  /** The checks `read_file` makes before it shows a file, in order: the file is found, is a
      regular file, is within the size limit, has an allowed extension, and the line range is
      valid. The result is the path to show, or the message of the first check that failed.
      `shownTypes` is the order in which the set of allowed extensions is listed. */
  function ReadCheck(tree: Tree, codebase: string, filePath: string, start: Option<int>,
                     end: Option<int>, shownTypes: seq<string>): (r: Result<string, string>)
    ensures var found := FirstFound(FileCandidates(codebase, LocalPath(filePath)), tree, false);
      r.Ok? <==>
        found.Some? && tree[found.value].File? && Size(tree[found.value]) <= MaxFileSize
        && Lower(Suffix(found.value)) in AllowedExtensions && RangeError(start, end).None?
    ensures r.Ok? ==> r.value == FirstFound(FileCandidates(codebase, LocalPath(filePath)), tree, false).value
  {
    var cs := FileCandidates(codebase, LocalPath(filePath));
    match FirstFound(cs, tree, false)
    case None =>
      Err("Error: File not found. Original path: " + filePath + "\nSearched in:\n" + Searched(cs))
    case Some(path) =>
      if tree[path].Directory? then Err("Error: Path is not a file: " + path)
      else if Size(tree[path]) > MaxFileSize then
        Err("Error: File too large (" + Decimal(Size(tree[path])) + " bytes). Maximum allowed: "
            + Decimal(MaxFileSize) + " bytes")
      else if Lower(Suffix(path)) !in AllowedExtensions then
        Err("Error: File type not allowed. Allowed types: " + Join(shownTypes, ", "))
      else
        match RangeError(start, end)
        case Some(e) => Err(e)
        case None => Ok(path)
  }

  /** `read_file` as a value: the error message of the first failed check, or the file shown. */
  function ReadReport(tree: Tree, codebase: string, filePath: string, start: Option<int>,
                      end: Option<int>, shownTypes: seq<string>): string
  {
    match ReadCheck(tree, codebase, filePath, start, end, shownTypes)
    case Err(message) => message
    case Ok(path) => ShowFile(path, tree[path].content, start, end)
  }

  // ---------------------------------------------------------------------------------------
  // list_directory
  // ---------------------------------------------------------------------------------------

  /** One listing line: a directory with a trailing slash, a file with its size. */
  function ItemLine(name: string, e: Entry): string {
    if e.Directory? then "  [DIR]  " + name + "/"
    else "  [FILE] " + name + " (" + Decimal(Size(e)) + " bytes)"
  }

  predicate Hidden(name: string) {
    StartsWith(name, ".")
  }

  /** The listing lines of the non-hidden entries, in the order given. */
  function Items(tree: Tree, dir: string, names: seq<string>): (items: seq<string>)
    requires forall n :: n in names ==> Under(dir, n) in tree
    ensures |items| <= |names|
  {
    if names == [] then []
    else
      var init := names[..|names| - 1];
      var name := names[|names| - 1];
      assert forall n :: n in init ==> n in names;
      Items(tree, dir, init)
      + (if Hidden(name) then [] else [ItemLine(name, tree[Under(dir, name)])])
  }

  /** The number of non-hidden names. */
  function Visible(names: seq<string>): nat {
    if names == [] then 0
    else Visible(names[..|names| - 1]) + (if Hidden(names[|names| - 1]) then 0 else 1)
  }

  /** The listing has one line per visible entry. */
  lemma {:induction false} ItemsCountVisible(tree: Tree, dir: string, names: seq<string>)
    requires forall n :: n in names ==> Under(dir, n) in tree
    ensures |Items(tree, dir, names)| == Visible(names)
    decreases |names|
  {
    if names != [] {
      var init := names[..|names| - 1];
      assert forall n :: n in init ==> n in names;
      ItemsCountVisible(tree, dir, init);
    }
  }

  /** The listing loop: hidden names are skipped, every other entry gets its line. */
  method ListItems(tree: Tree, dir: string, names: seq<string>) returns (items: seq<string>)
    requires forall n :: n in names ==> Under(dir, n) in tree
    ensures items == Items(tree, dir, names)
  {
    items := [];
    var i := 0;
    while i < |names|
      invariant 0 <= i <= |names|
      invariant forall n :: n in names[..i] ==> n in names
      invariant items == Items(tree, dir, names[..i])
    {
      var name := names[i];
      assert names[..i + 1][..i] == names[..i];
      if !Hidden(name) {
        items := items + [ItemLine(name, tree[Under(dir, name)])];
      }
      i := i + 1;
    }
    assert names[..i] == names;
  }

  /** `sorted(resolved.iterdir())` as the names of a directory's entries: a parameter, which
      names only entries that exist. */
  predicate ListsEntries(tree: Tree, listing: string -> seq<string>) {
    forall d, n :: d in tree && n in listing(d) ==> Under(d, n) in tree
  }

  /** `list_directory` as a value. */
  function DirectoryReport(tree: Tree, codebase: string, dirPath: string,
                           listing: string -> seq<string>): string
    requires ListsEntries(tree, listing)
  {
    var cs := DirectoryCandidates(codebase, LocalPath(dirPath));
    match FirstFound(cs, tree, true)
    case None =>
      "Error: Directory not found. Original: " + dirPath + "\nSearched:\n" + Searched(cs)
    case Some(dir) =>
      var items := Items(tree, dir, listing(dir));
      if items == [] then "Directory is empty: " + dir
      else "Directory: " + dir + "\nTotal items: " + Decimal(|items|) + "\n\n" + Join(items, "\n")
  }

  // ---------------------------------------------------------------------------------------
  // The file system the tools act on
  // ---------------------------------------------------------------------------------------

  /** The name under which an earlier output is kept: `<name>.backup_<seconds>`. */
  function BackupName(name: string, now: nat): (r: string)
    ensures |r| > |name| && r[..|name|] == name
  {
    name + ".backup_" + Decimal(now)
  }

  /** The file system after `write_file`: a blank content or a path without a final name
      changes nothing; otherwise an existing output is renamed to its backup name and the
      content is written under the output name. */
  function AfterWrite(tree: Tree, filePath: string, content: string, outputDir: string, now: nat): Tree {
    var name := Basename(filePath);
    if IsBlank(content) || name == "" then tree
    else
      var out := Under(outputDir, name);
      var moved := if out in tree then (tree - {out})[Under(outputDir, BackupName(name, now)) := tree[out]] else tree;
      moved[out := File(content)]
  }

  /** The reply of `write_file`; it does not depend on the file system. */
  function WriteReport(filePath: string, content: string, outputDir: string): string {
    var name := Basename(filePath);
    if IsBlank(content) then "Error: Content cannot be empty"
    else if name == "" then "Error: Invalid filename"
    else
      "Success: File written to " + Under(outputDir, name) + "\nSize: " + Decimal(|content|)
      + " bytes\nLines: " + Decimal(Count(content, '\n') + 1)
  }

  lemma BackupIsAnotherPath(outputDir: string, name: string, now: nat)
    ensures Under(outputDir, BackupName(name, now)) != Under(outputDir, name)
  {
    assert |Under(outputDir, BackupName(name, now))| > |Under(outputDir, name)|;
  }

  /** After a successful write the output holds exactly the content, and a file that was there
      before is kept under the backup name. */
  lemma WriteKeepsPrevious(tree: Tree, filePath: string, content: string, outputDir: string, now: nat)
    requires !IsBlank(content) && Basename(filePath) != ""
    ensures var name := Basename(filePath); var t := AfterWrite(tree, filePath, content, outputDir, now);
      Under(outputDir, name) in t && t[Under(outputDir, name)] == File(content)
      && (Under(outputDir, name) in tree ==>
            Under(outputDir, BackupName(name, now)) in t
            && t[Under(outputDir, BackupName(name, now))] == tree[Under(outputDir, name)])
  {
    BackupIsAnotherPath(outputDir, Basename(filePath), now);
  }

  /** A write touches only the output and its backup; every other entry stays as it was. */
  lemma WriteTouchesOnlyOutputs(tree: Tree, filePath: string, content: string, outputDir: string,
                                now: nat, other: string)
    requires other != Under(outputDir, Basename(filePath))
    requires other != Under(outputDir, BackupName(Basename(filePath), now))
    ensures var t := AfterWrite(tree, filePath, content, outputDir, now);
      (other in t <==> other in tree) && (other in tree ==> t[other] == tree[other])
  {
  }

  /** A write that is refused leaves the file system as it was. */
  lemma RefusedWriteChangesNothing(tree: Tree, filePath: string, content: string, outputDir: string, now: nat)
    requires IsBlank(content) || Basename(filePath) == ""
    ensures AfterWrite(tree, filePath, content, outputDir, now) == tree
    ensures WriteReport(filePath, content, outputDir)[..6] == "Error:"
  {
  }

  /** The file system, updated in place by `write_file`. */
  class Disk {
    var tree: Tree

    constructor(initial: Tree)
      ensures tree == initial
    {
      tree := initial;
    }

    /** `read_file`: the candidate search, then the checks and the window. */
    method ReadFile(codebase: string, filePath: string, start: Option<int>, end: Option<int>,
                    shownTypes: seq<string>) returns (r: string)
      ensures r == ReadReport(tree, codebase, filePath, start, end, shownTypes)
    {
      var local := LocalPath(filePath);
      var cs := FileCandidates(codebase, local);
      var found := FindCandidate(cs, tree, false);
      if found.None? {
        return "Error: File not found. Original path: " + filePath + "\nSearched in:\n" + Searched(cs);
      }
      var path := found.value;
      var entry := tree[path];
      if entry.Directory? {
        return "Error: Path is not a file: " + path;
      }
      if Size(entry) > MaxFileSize {
        return "Error: File too large (" + Decimal(Size(entry)) + " bytes). Maximum allowed: "
               + Decimal(MaxFileSize) + " bytes";
      }
      if Lower(Suffix(path)) !in AllowedExtensions {
        return "Error: File type not allowed. Allowed types: " + Join(shownTypes, ", ");
      }
      var rangeError := RangeError(start, end);
      if rangeError.Some? {
        return rangeError.value;
      }
      r := ShowFile(path, entry.content, start, end);
    }

    /** `list_directory`: the directory search, then the listing loop. */
    method ListDirectory(codebase: string, dirPath: string, listing: string -> seq<string>)
      returns (r: string)
      requires ListsEntries(tree, listing)
      ensures r == DirectoryReport(tree, codebase, dirPath, listing)
    {
      var cs := DirectoryCandidates(codebase, LocalPath(dirPath));
      var found := FindCandidate(cs, tree, true);
      if found.None? {
        return "Error: Directory not found. Original: " + dirPath + "\nSearched:\n" + Searched(cs);
      }
      var dir := found.value;
      var items := ListItems(tree, dir, listing(dir));
      if items == [] {
        return "Directory is empty: " + dir;
      }
      r := "Directory: " + dir + "\nTotal items: " + Decimal(|items|) + "\n\n" + Join(items, "\n");
    }

    /** `write_file`: rename an existing output to its backup name, then write the content. */
    method WriteFile(filePath: string, content: string, outputDir: string, now: nat)
      returns (r: string)
      modifies this
      ensures tree == AfterWrite(old(tree), filePath, content, outputDir, now)
      ensures r == WriteReport(filePath, content, outputDir)
    {
      if IsBlank(content) {
        return "Error: Content cannot be empty";
      }
      var name := Basename(filePath);
      if name == "" {
        return "Error: Invalid filename";
      }
      var out := Under(outputDir, name);
      if out in tree {
        var backup := Under(outputDir, BackupName(name, now));
        var previous := tree[out];
        tree := tree - {out};
        tree := tree[backup := previous];
      }
      tree := tree[out := File(content)];
      r := "Success: File written to " + out + "\nSize: " + Decimal(|content|)
           + " bytes\nLines: " + Decimal(Count(content, '\n') + 1);
    }
  }
}
