/**
 * The values that the metadata tool's JSON output can hold in the fields the
 * pipeline reads, with Python's truthiness and `str()` rendering, and the
 * exceptions that the core lets escape.
 */
module JsonValue {
  import opened Strings

  /** A decoded JSON value (floating-point numbers and nested objects are not modelled). */
  datatype Json = JNull | JBool(b: bool) | JInt(i: int) | JStr(s: string) | JArray(items: seq<Json>)

  /** Python's `bool(v)`: `None`, `False`, `0`, `''` and `[]` are falsy. */
  predicate Truthy(v: Json) {
    match v
    case JNull => false
    case JBool(b) => b
    case JInt(i) => i != 0
    case JStr(s) => s != []
    case JArray(items) => items != []
  }

  /** The falsy values are exactly `None`, `False`, `0`, `''` and `[]`. */
  lemma FalsyValues(v: Json)
    ensures !Truthy(v) <==> v == JNull || v == JBool(false) || v == JInt(0) || v == JStr("") || v == JArray([])
  {
  }

  /** `str()` of the values a title can be. */
  lemma DisplayExamples()
    ensures Display(JNull) == "None"
    ensures Display(JBool(true)) == "True"
    ensures Display(JInt(-7)) == "-7"
    ensures Display(JArray([JStr("a"), JInt(1)])) == "['a', 1]"
    ensures Display(JArray([JStr("it's")])) == "[\"it's\"]"
  {
    assert IntToString(1) == "1";
    assert NatToString(7) == "7";
    var one := [JStr("a"), JInt(1)];
    var reprs := seq(|one|, k requires 0 <= k < |one| => Repr(one[k]));
    assert reprs[0] == "'a'" && reprs[1] == "1";
    assert reprs == ["'a'", "1"];
    assert JoinWith(["'a'", "1"], ", ") == "'a', 1";
    var two := [JStr("it's")];
    assert '\'' in "it's" && '"' !in "it's";
    var quoted := seq(|two|, k requires 0 <= k < |two| => Repr(two[k]));
    assert quoted[0] == "\"it's\"";
    assert quoted == ["\"it's\""];
  }

  /** The Python exceptions that escape the core (nothing catches them). */
  datatype Fault =
    | DivmodOnNonNumber   // `divmod` on a truthy duration that is neither int nor bool
    | SplitOnNonString    // `.split` on a description that is not a string
    | GetOnNonObject      // `.get` on decoded JSON that is not an object

  /** `sep.join(pieces)` for a multi-character separator. */
  function JoinWith(pieces: seq<string>, sep: string): string
    decreases |pieces|
  {
    if |pieces| == 0 then ""
    else if |pieces| == 1 then pieces[0]
    else pieces[0] + sep + JoinWith(pieces[1..], sep)
  }

  /** Python's `repr(v)`, as used inside a list's `str()`. */
  function Repr(v: Json): string
    decreases v, 1
  {
    match v
    case JStr(s) => if '\'' in s && '"' !in s then "\"" + s + "\"" else "'" + s + "'"
    case _ => Display(v)
  }

  /** Python's `str(v)`, which is what an f-string inserts. */
  function Display(v: Json): string
    decreases v, 0
  {
    match v
    case JNull => "None"
    case JBool(b) => if b then "True" else "False"
    case JInt(i) => IntToString(i)
    case JStr(s) => s
    case JArray(items) =>
      "[" + JoinWith(seq(|items|, k requires 0 <= k < |items| => Repr(items[k])), ", ") + "]"
  }
}
