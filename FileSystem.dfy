/** The part of the file system the tools see: a map from path text to an entry. Paths are taken
    as written; `Path.resolve`, symbolic links and `..` components are not modelled, so a path
    names an entry exactly when it is a key of the map. */
module FileSystem {
  import opened Text

  /** A regular file with its text, or a directory. */
  datatype Entry = File(content: string) | Directory

  type Tree = map<string, Entry>

  /** `os.path.isabs`: a POSIX path is absolute when it starts with a separator. */
  predicate IsAbsolute(path: string) {
    StartsWith(path, "/")
  }

  /** The pathlib `/` operator on a directory and a relative path. */
  function Under(dir: string, rel: string): string {
    dir + "/" + rel
  }

  /** `stat().st_size` of a file, counted in characters. */
  function Size(e: Entry): nat
    requires e.File?
  {
    |e.content|
  }
}
