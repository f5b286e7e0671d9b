/** The JavaScript values the compiler wrapper handles: option values,
    thrown exceptions and the arguments it passes to the process launcher,
    with the few language operations it applies to them (truthiness,
    `typeof`, property reads, own enumerable entries, conversion to text,
    `JSON.stringify` of a string). */
module JsValues {
  import opened Bags
  import opened Text

  /** Numbers are integers: fractions, NaN and infinities are not modelled.
      A function is known only by its source text. `Error` is an instance of
      `Error` or one of its subclasses (`TypeError`, ...); `props` are its own
      enumerable properties (a `code`, say), its `message` not among them.
      The fields of an object, like those of any JavaScript object, are
      expected to have distinct keys. */
  datatype JsValue =
    | Undefined
    | Null
    | Bool(b: bool)
    | Num(n: int)
    | Str(s: string)
    | Func(source: string)
    | Arr(items: seq<JsValue>)
    | Obj(fields: seq<(string, JsValue)>)
    | Error(name: string, message: string, props: seq<(string, JsValue)>)

  /** How a JavaScript expression completes: with a value, or by throwing. */
  datatype Completion<+T> = Normal(value: T) | Throws(exc: JsValue)

  /** `if (v)`: false exactly for undefined, null, false, 0 and "". */
  predicate Truthy(v: JsValue) {
    match v
    case Undefined => false
    case Null => false
    case Bool(b) => b
    case Num(n) => n != 0
    case Str(s) => s != ""
    case _ => true
  }

  /** `v == null`: true for null and undefined. */
  predicate Nullish(v: JsValue) {
    v.Undefined? || v.Null?
  }

  /** `a || b` */
  function Or(a: JsValue, b: JsValue): (r: JsValue)
    ensures Truthy(a) ==> r == a
    ensures !Truthy(a) ==> r == b
  {
    if Truthy(a) then a else b
  }

  function TypeOf(v: JsValue): string {
    match v
    case Undefined => "undefined"
    case Bool(_) => "boolean"
    case Num(_) => "number"
    case Str(_) => "string"
    case Func(_) => "function"
    case _ => "object"
  }

  /** Reading a property of an object given by its entries: a missing key reads as undefined. */
  function Field(b: Bag<JsValue>, k: string): JsValue {
    match Lookup(b, k)
    case Some(v) => v
    case None => Undefined
  }

  /** `v[k]`. The fields of an object and the own properties and `message`
      of an `Error` are read; every other property (an array's elements, a
      string's characters, anything inherited) reads as undefined. Reading a
      property of null or undefined throws a `TypeError`. */
  function Property(v: JsValue, k: string): (r: Completion<JsValue>)
    ensures r.Throws? <==> Nullish(v)
  {
    match v
    case Undefined => Throws(Error("TypeError", "Cannot read properties of undefined (reading '" + k + "')", []))
    case Null => Throws(Error("TypeError", "Cannot read properties of null (reading '" + k + "')", []))
    case Obj(fields) => Normal(Field(fields, k))
    case Error(_, message, props) => Normal(if k == "message" then Str(message) else Field(props, k))
    case _ => Normal(Undefined)
  }

  /** `v?.k` */
  function OptionalProperty(v: JsValue, k: string): (r: JsValue)
    ensures Nullish(v) ==> r == Undefined
  {
    if Nullish(v) then Undefined else Property(v, k).value
  }

  /** The own enumerable entries of a value, which `{...v}` copies: the
      fields of an object, the elements of an array and the characters of a
      string under their decimal indices, and nothing for every other value
      (an error's `message` is not enumerable). */
  function OwnEntries(v: JsValue): (r: Bag<JsValue>)
    ensures v.Obj? ==> r == v.fields
    ensures v.Error? ==> r == v.props
    ensures !(v.Obj? || v.Error? || v.Arr? || v.Str?) ==> r == []
  {
    match v
    case Obj(fields) => fields
    case Error(_, _, props) => props
    case Arr(items) => seq(|items|, i requires 0 <= i < |items| => (NatToDecimal(i), items[i]))
    case Str(s) => seq(|s|, i requires 0 <= i < |s| => (NatToDecimal(i), Str([s[i]])))
    case _ => []
  }

  /** Spreading an array or a string gives an object: its keys are the
      indices in order, written in decimal, and no two are the same. */
  lemma IndexedEntriesUnique(v: JsValue)
    requires v.Arr? || v.Str?
    ensures Keys(OwnEntries(v)) == seq(|OwnEntries(v)|, i requires 0 <= i < |OwnEntries(v)| => NatToDecimal(i))
    ensures |OwnEntries(v)| == if v.Arr? then |v.items| else |v.s|
    ensures UniqueKeys(OwnEntries(v))
  {
    var r := OwnEntries(v);
    forall i, j | 0 <= i < j < |r| ensures r[i].0 != r[j].0 {
      NatToDecimalInjective(i, j);
    }
  }

  function Digit(d: nat): (c: char)
    requires d < 10
    ensures '0' <= c <= '9' && c as int - '0' as int == d
  {
    ('0' as int + d) as char
  }

  predicate AllDigits(s: string) {
    forall i :: 0 <= i < |s| ==> '0' <= s[i] <= '9'
  }

  /** The number a string of decimal digits denotes, read right to left. */
  function DecimalValue(s: string): (n: nat)
    requires AllDigits(s)
    decreases |s|
  {
    if s == [] then 0 else 10 * DecimalValue(s[..|s| - 1]) + (s[|s| - 1] as int - '0' as int)
  }

  /** The decimal numeral of `n`: digits that denote `n`, without leading zeros. */
  function NatToDecimal(n: nat): (r: string)
    ensures |r| >= 1 && AllDigits(r)
    ensures DecimalValue(r) == n
    ensures r[0] == '0' ==> n == 0
  {
    if n < 10 then [Digit(n)]
    else
      var prefix := NatToDecimal(n / 10);
      var r := prefix + [Digit(n % 10)];
      assert r[..|r| - 1] == prefix;
      r
  }

  /** Different numbers have different numerals. */
  lemma NatToDecimalInjective(m: nat, n: nat)
    ensures NatToDecimal(m) == NatToDecimal(n) ==> m == n
  {
  }

  function IntToDecimal(n: int): string {
    if n < 0 then "-" + NatToDecimal(-n) else NatToDecimal(n)
  }

  /** Different integers are written differently: a negative number has a
      sign where a non-negative one has a digit. */
  lemma IntToDecimalInjective(m: int, n: int)
    ensures IntToDecimal(m) == IntToDecimal(n) ==> m == n
  {
    if IntToDecimal(m) == IntToDecimal(n) {
      if m < 0 && n < 0 {
        assert NatToDecimal(-m) == IntToDecimal(m)[1..] == IntToDecimal(n)[1..] == NatToDecimal(-n);
        NatToDecimalInjective(-m, -n);
      } else if m >= 0 && n >= 0 {
        NatToDecimalInjective(m, n);
      }
    }
  }

  /** `String(v)`, which a template literal `${v}` applies. */
  function JsToString(v: JsValue): string {
    match v
    case Undefined => "undefined"
    case Null => "null"
    case Bool(b) => if b then "true" else "false"
    case Num(n) => IntToDecimal(n)
    case Str(s) => s
    case Func(source) => source
    case Arr(items) => Join(items, ",")
    case Obj(_) => "[object Object]"
    case Error(name, message, _) =>
      if name == "" then message else if message == "" then name else name + ": " + message
  }

  /** `items.join(sep)`: null and undefined elements become empty text. */
  function Join(items: seq<JsValue>, sep: string): string {
    if items == [] then ""
    else
      var first := if Nullish(items[0]) then "" else JsToString(items[0]);
      if |items| == 1 then first else first + sep + Join(items[1..], sep)
  }

  /** A joined list starts with its first item, and with the separator
      after it when more items follow. */
  lemma JoinHead(items: seq<JsValue>, sep: string)
    requires items != [] && !Nullish(items[0])
    ensures StartsWith(Join(items, sep), JsToString(items[0]) + (if |items| > 1 then sep else ""))
  {
    var head := JsToString(items[0]) + (if |items| > 1 then sep else "");
    if |items| > 1 {
      assert (head + Join(items[1..], sep))[..|head|] == head;
    }
  }

  /** The escape sequence `JSON.stringify` writes for one character of a
      string (section 7 of RFC 8259, with the short forms ECMAScript prefers). */
  function EscapeChar(c: char): string {
    if c == '"' then "\\\""
    else if c == '\\' then "\\\\"
    else if c as int == 8 then "\\b"
    else if c as int == 12 then "\\f"
    else if c == '\n' then "\\n"
    else if c == '\r' then "\\r"
    else if c == '\t' then "\\t"
    else if c < ' ' then "\\u00" + [HexDigit(c as int / 16), HexDigit(c as int % 16)]
    else [c]
  }

  function HexDigit(d: nat): char
    requires d < 16
  {
    "0123456789abcdef"[d]
  }

  function Escape(s: string): string {
    if s == [] then "" else EscapeChar(s[0]) + Escape(s[1..])
  }

  /** `JSON.stringify(s)` for a string `s`. */
  function Quote(s: string): (r: string)
    ensures |r| >= 2 && r[0] == '"' && r[|r| - 1] == '"'
  {
    "\"" + Escape(s) + "\""
  }

  /** A string that needs no escaping. */
  predicate Plain(s: string) {
    forall i :: 0 <= i < |s| ==> s[i] != '"' && s[i] != '\\' && s[i] >= ' '
  }

  /** Quoting leaves plain text as it is between the two quotes. */
  lemma {:induction false} QuotePlain(s: string)
    requires Plain(s)
    ensures Quote(s) == "\"" + s + "\""
  {
    EscapePlain(s);
  }

  lemma {:induction false} EscapePlain(s: string)
    requires Plain(s)
    ensures Escape(s) == s
  {
    if s != [] {
      assert Plain(s[1..]) by {
        forall i | 0 <= i < |s[1..]| ensures s[1..][i] != '"' && s[1..][i] != '\\' && s[1..][i] >= ' ' {
          assert s[1..][i] == s[i + 1];
        }
      }
      EscapePlain(s[1..]);
      assert s == [s[0]] + s[1..];
    }
  }
}
