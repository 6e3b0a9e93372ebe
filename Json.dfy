/** The JSON values the pipeline handles once `json.loads` has decoded them, and the parts of
    Python's value semantics that the pipeline applies to them: `dict.get`, truthiness, `str()`
    and `int()`. Decoding itself is not defined here: every operation that calls `json.loads`
    takes the decoder as a parameter. */
module Json {
  import opened Wrappers
  import opened Text

  /** A decoded JSON value. Objects are Python dicts; their key order is not modelled. */
  datatype JValue =
    | JNull
    | JBool(b: bool)
    | JInt(i: int)
    | JStr(s: string)
    | JList(items: seq<JValue>)
    | JObject(fields: map<string, JValue>)

  /** A Python dict with string keys, as `json.loads` returns for a JSON object. */
  type JObj = map<string, JValue>

  /** `json.loads` applied to text that starts with `{`: a dict, or `None` when the text is not
      valid JSON. The decoder is a parameter of every operation that decodes. */
  type Decoder = string -> Option<JObj>

  /** `json.loads("")` raises: the empty text never decodes. */
  predicate RejectsEmpty(decode: Decoder) {
    decode("") == None
  }

  /** Python's `d.get(key, default)`. */
  function Get(d: JObj, key: string, default: JValue): JValue {
    if key in d then d[key] else default
  }

  /** Python's truthiness: `None`, `False`, `0`, `""`, `[]` and `{}` are false. */
  predicate Truthy(v: JValue) {
    match v
    case JNull => false
    case JBool(b) => b
    case JInt(i) => i != 0
    case JStr(s) => s != ""
    case JList(items) => items != []
    case JObject(fields) => fields != map[]
  }

  /** Python's `str(v)` (when `quoted` is false) and `repr(v)` (when it is true). A string
      nested in a list is shown in single quotes; a non-empty dict is shown as `{...}`. */
  function Render(v: JValue, quoted: bool): string
    decreases v
  {
    match v
    case JNull => "None"
    case JBool(b) => if b then "True" else "False"
    case JInt(i) => Decimal(i)
    case JStr(s) => if quoted then "'" + s + "'" else s
    case JList(items) =>
      "[" + Join(seq(|items|, k requires 0 <= k < |items| => Render(items[k], true)), ", ") + "]"
    case JObject(fields) => if fields == map[] then "{}" else "{...}"
  }

  /** Python's `str(v)`. */
  function Show(v: JValue): string {
    Render(v, false)
  }

  /** Python's `int(v)` for a decoded JSON value: an integer is itself, a boolean is 0 or 1, a
      string must spell an integer; `None`, a list or a dict raise `TypeError`, and a string
      that is not an integer raises `ValueError`. Both are modelled as `None`. */
  function ToInt(v: JValue): (r: Option<int>)
    ensures v.JInt? ==> r == Some(v.i)
    ensures v.JNull? || v.JList? || v.JObject? ==> r == None
  {
    match v
    case JInt(i) => Some(i)
    case JBool(b) => Some(if b then 1 else 0)
    case JStr(s) => ParseInt(s)
    case _ => None
  }

  /** `int()` reads back the text of any integer, as in `int("42") == 42`. */
  lemma ToIntOfDecimalText(n: int)
    ensures ToInt(JStr(Decimal(n))) == Some(n)
  {
    ParseIntDecimal(n);
  }

  /** A string that holds no digit never converts: `int("not-a-number")` fails. */
  lemma ToIntNeedsDigits(s: string)
    requires forall k :: 0 <= k < |s| ==> !IsDigit(s[k])
    ensures ToInt(JStr(s)) == None
  {
    StripNoDigit(s);
    SignedNeedsDigit(Strip(s));
  }

  /** `str()` of a string is the string itself, and of an integer its decimal text. */
  lemma ShowScalars(s: string, n: int)
    ensures Show(JStr(s)) == s
    ensures Show(JInt(n)) == Decimal(n)
    ensures ToInt(JStr(Show(JInt(n)))) == Some(n)
  {
    ParseIntDecimal(n);
  }
}
