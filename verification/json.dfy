/** JSON values as the Python half of the gateway sees them after `json.loads`:
    objects are insertion-ordered dicts, floats are kept abstract. Also
    Python's truthiness and `repr`/`str` of such values, which the gateway's
    error messages are built from. `json.loads` and `json.dumps` themselves
    are not defined here: the modules that need them take them as parameters. */
module Json {
  import opened Strings
  import opened Dicts

  /** A Python float, known only by its `repr` text ("0.7", "1.0", "nan").
      No float arithmetic is modelled. */
  datatype Float = Float(repr: string)

  /** A float is falsy exactly when it is (signed) zero. */
  predicate FloatTruthy(f: Float) {
    f.repr != "0.0" && f.repr != "-0.0"
  }

  datatype Json =
    | JNull
    | JBool(b: bool)
    | JInt(i: int)
    | JFloat(f: Float)
    | JStr(s: string)
    | JArr(items: seq<Json>)
    | JObj(fields: Dict<Json>)

  /** Python's `bool(x)` for the value `x` decodes to. */
  predicate Truthy(j: Json) {
    match j
    case JNull => false
    case JBool(b) => b
    case JInt(i) => i != 0
    case JFloat(f) => FloatTruthy(f)
    case JStr(s) => |s| > 0
    case JArr(items) => |items| > 0
    case JObj(fields) => |fields| > 0
  }

  /** The character that closes a Python string literal: a single quote,
      unless the text holds a single quote and no double quote. */
  function QuoteFor(s: string): char {
    if '\'' in s && '"' !in s then '"' else '\''
  }

  function HexDigit(d: nat): char
    requires d < 16
  {
    "0123456789abcdef"[d]
  }

  /** One character inside a Python string literal closed by `q`.
      Characters outside ASCII are kept as they are. */
  function EscapeChar(c: char, q: char): string {
    if c == '\\' then "\\\\"
    else if c == q then ['\\', q]
    else if c == '\t' then "\\t"
    else if c == '\n' then "\\n"
    else if c == '\r' then "\\r"
    else if c as int < 0x20 || c as int == 0x7F then ['\\', 'x', HexDigit(c as int / 16), HexDigit(c as int % 16)]
    else [c]
  }

  function EscapeAll(s: string, q: char): string {
    if |s| == 0 then "" else EscapeChar(s[0], q) + EscapeAll(s[1..], q)
  }

  /** Python's `repr` of a string. */
  function StrRepr(s: string): string {
    var q := QuoteFor(s);
    [q] + EscapeAll(s, q) + [q]
  }

  /** Text that Python's `repr` reproduces as is: printable ASCII other
      than the backslash and the single quote. */
  predicate Plain(s: string) {
    forall i :: 0 <= i < |s| ==> s[i] != '\\' && s[i] != '\'' && 0x20 <= s[i] as int < 0x7F
  }

  lemma {:induction false} EscapeAllPlain(s: string)
    requires Plain(s)
    ensures EscapeAll(s, '\'') == s
  {
    if |s| > 0 {
      assert Plain(s[1..]);
      EscapeAllPlain(s[1..]);
    }
  }

  /** Plain text is reproduced verbatim between single quotes. */
  lemma StrReprPlain(s: string)
    requires Plain(s)
    ensures StrRepr(s) == "'" + s + "'"
  {
    assert '\'' !in s;
    EscapeAllPlain(s);
  }

  /** Python's `repr` of the value. */
  function Repr(j: Json): string
    decreases j, 1
  {
    match j
    case JNull => "None"
    case JBool(b) => if b then "True" else "False"
    case JInt(i) => Decimal(i)
    case JFloat(f) => f.repr
    case JStr(s) => StrRepr(s)
    case JArr(items) => "[" + ReprItems(j, items) + "]"
    case JObj(fields) => "{" + ReprFields(j, fields) + "}"
  }

  function ReprItems(parent: Json, items: seq<Json>): string
    requires forall x :: x in items ==> x < parent
    decreases parent, 0, |items|
  {
    if |items| == 0 then ""
    else
      assert items[0] in items;
      if |items| == 1 then Repr(items[0])
      else
        assert forall x :: x in items[1..] ==> x in items;
        Repr(items[0]) + ", " + ReprItems(parent, items[1..])
  }

  function ReprFields(parent: Json, fields: Dict<Json>): string
    requires forall i :: 0 <= i < |fields| ==> fields[i].1 < parent
    decreases parent, 0, |fields|
  {
    if |fields| == 0 then ""
    else
      var entry := StrRepr(fields[0].0) + ": " + Repr(fields[0].1);
      if |fields| == 1 then entry else entry + ", " + ReprFields(parent, fields[1..])
  }

  /** Python's `str` of the value: a string is itself, anything else its `repr`. */
  function Str(j: Json): string {
    if j.JStr? then j.s else Repr(j)
  }
}
