/**
 * The JavaScript values that appear in a device snapshot or a response body, and the few pieces
 * of JavaScript semantics the core relies on: truthiness, `||`, `??`, property access, `Number(x)`,
 * `parseInt`, `String(n)` for integers, the relational `<=`, `String.prototype.includes`-style
 * substring search and `Array.prototype.indexOf`.
 *
 * Numbers are integers here; fractional numbers, NaN and the infinities as stored values, the
 * hexadecimal, binary, octal, exponent, fractional and `Infinity` forms of numeric strings, and
 * objects with their own `toString` are outside the model.
 */
module JsValues {
  import opened Wrappers

  datatype Value =
    | Undef
    | Null
    | Bool(b: bool)
    | Num(n: int)
    | Str(s: string)
    | Arr(items: seq<Value>)
    | Obj(fields: map<string, Value>)

  /** A device snapshot: dotted property path to value. A missing key reads as `undefined`. */
  type Snapshot = map<string, Value>

  /** The empty object `{}`: what the request pipeline answers on every failure. */
  const EMPTY: Value := Obj(map[])

  /** `m[key]` on a plain object. */
  function Get(m: map<string, Value>, key: string): Value {
    if key in m then m[key] else Undef
  }

  /** `v?.key`: undefined unless `v` is an object that has the key. */
  function Field(v: Value, key: string): Value {
    if v.Obj? then Get(v.fields, key) else Undef
  }

  /** `key in v` for an object `v`. */
  predicate HasKey(v: Value, key: string) {
    v.Obj? && key in v.fields
  }

  /** The `TypeError` thrown by reading a property of `undefined` or `null`. */
  datatype TypeError = TypeError

  /** `v.key` (no optional chaining): throws when `v` is nullish. */
  function Prop(v: Value, key: string): Result<Value, TypeError> {
    if v.Undef? || v.Null? then Err(TypeError) else Ok(Field(v, key))
  }

  /** ToBoolean, i.e. `!!v`. */
  predicate Truthy(v: Value) {
    match v
    case Undef => false
    case Null => false
    case Bool(b) => b
    case Num(n) => n != 0
    case Str(s) => s != ""
    case Arr(_) => true
    case Obj(_) => true
  }

  /** `v || d`. */
  function Or(v: Value, d: Value): Value {
    if Truthy(v) then v else d
  }

  /** `v ?? d`. */
  function Coalesce(v: Value, d: Value): Value {
    if v.Undef? || v.Null? then d else v
  }

  /** `b ? 1 : 0`, the encoding every setter uses for an on/off flag. */
  function Flag(b: bool): int {
    if b then 1 else 0
  }

  predicate IsDigit(c: char) {
    '0' <= c <= '9'
  }

  function DigitValue(c: char): int {
    c as int - '0' as int
  }

  function DigitChar(k: nat): char
    requires k < 10
  {
    ('0' as int + k) as char
  }

  /** The value of a string of decimal digits, most significant first. */
  function DigitsValue(s: string): int {
    if s == [] then 0 else DigitsValue(s[..|s| - 1]) * 10 + DigitValue(s[|s| - 1])
  }

  predicate AllDigits(s: string) {
    forall i :: 0 <= i < |s| ==> IsDigit(s[i])
  }

  /** The decimal rendering of a natural number, as `String(n)` gives it. */
  function NatToString(n: nat): string {
    if n < 10 then [DigitChar(n)] else NatToString(n / 10) + [DigitChar(n % 10)]
  }

  /** `String(n)` for an integer `n`. */
  function IntToString(n: int): string {
    if n < 0 then "-" + NatToString(-n) else NatToString(n)
  }

  /**
   * `Number(s)` for a string: surrounding white space is ignored, an empty rest means 0, and an
   * optional sign followed by decimal digits is that number.
   */
  function StringToNumber(s: string): Option<int> {
    var t := Trim(s);
    if t == "" then Some(0)
    else if AllDigits(t) then Some(DigitsValue(t))
    else if (t[0] == '-' || t[0] == '+') && |t| > 1 && AllDigits(t[1..]) then
      Some(if t[0] == '-' then -DigitsValue(t[1..]) else DigitsValue(t[1..]))
    else None
  }

  /**
   * `Number(v)`; `None` stands for NaN. An array is converted through its string form: `[]` is
   * `""`, one element is that element's string (`""` for `undefined` and `null`), and two or more
   * are joined with a comma, which no number contains. An object's string is `[object Object]`.
   */
  function ToNumber(v: Value): Option<int> {
    match v
    case Undef => None
    case Null => Some(0)
    case Bool(b) => Some(Flag(b))
    case Num(n) => Some(n)
    case Str(s) => StringToNumber(s)
    case Arr(items) =>
      if items == [] then Some(0)
      else if |items| > 1 then None
      else
        (match items[0]
         case Undef => Some(0)
         case Null => Some(0)
         case Bool(_) => None
         case _ => ToNumber(items[0]))
    case Obj(_) => None
  }

  /** White space and line terminators, as `Number` and `parseInt` skip them. */
  predicate IsSpace(c: char) {
    c == ' ' || c == '\t' || c == '\n' || c == '\r' || c == '\U{000B}' || c == '\U{000C}'
    || c == '\U{00A0}' || c == '\U{1680}' || ('\U{2000}' <= c <= '\U{200A}') || c == '\U{2028}'
    || c == '\U{2029}' || c == '\U{202F}' || c == '\U{205F}' || c == '\U{3000}' || c == '\U{FEFF}'
  }

  function TrimStart(s: string): string {
    if s != [] && IsSpace(s[0]) then TrimStart(s[1..]) else s
  }

  function TrimEnd(s: string): string {
    if s != [] && IsSpace(s[|s| - 1]) then TrimEnd(s[..|s| - 1]) else s
  }

  /** `s.trim()`. */
  function Trim(s: string): string {
    TrimEnd(TrimStart(s))
  }

  function DigitPrefix(s: string): string {
    if s != [] && IsDigit(s[0]) then [s[0]] + DigitPrefix(s[1..]) else []
  }

  /** `parseInt(s)` in base 10: leading blanks, an optional sign, then the longest digit prefix. */
  function ParseIntString(s: string): Option<int> {
    var t := TrimStart(s);
    var signed := t != [] && (t[0] == '-' || t[0] == '+');
    var digits := DigitPrefix(if signed then t[1..] else t);
    if digits == [] then None
    else if signed && t[0] == '-' then Some(-DigitsValue(digits))
    else Some(DigitsValue(digits))
  }

  /**
   * `parseInt(v)`: the argument is first converted with `String(v)`. An array's string starts
   * with its first element's and goes on, if at all, with a comma, where parsing stops; `[]`,
   * `undefined` and `null` as that first element give an empty or unparsable start.
   */
  function ParseInt(v: Value): Option<int> {
    match v
    case Undef => None
    case Null => None
    case Bool(_) => None
    case Num(n) => ParseIntString(IntToString(n))
    case Str(s) => ParseIntString(s)
    case Arr(items) => if items == [] then None else ParseInt(items[0])
    case Obj(_) => None
  }

  /** `(x).toString()` for a number that may be NaN. */
  function NumberToString(x: Option<int>): string {
    if x.Some? then IntToString(x.value) else "NaN"
  }

  /** The UTF-16 code units of a string: a character above U+FFFF becomes a surrogate pair. */
  function CodeUnits(s: string): (u: seq<int>)
    ensures |u| >= |s|
    ensures (forall i :: 0 <= i < |s| ==> (s[i] as int) < 0x1_0000) ==> u == seq(|s|, i requires 0 <= i < |s| => s[i] as int)
  {
    if s == [] then []
    else
      var c := s[0] as int;
      (if c < 0x1_0000 then [c] else [0xD800 + (c - 0x1_0000) / 0x400, 0xDC00 + (c - 0x1_0000) % 0x400])
      + CodeUnits(s[1..])
  }

  /** Lexicographic order on code-unit sequences: a proper prefix comes first. */
  predicate UnitsLess(a: seq<int>, b: seq<int>) {
    if a == [] then b != []
    else if b == [] then false
    else if a[0] != b[0] then a[0] < b[0]
    else UnitsLess(a[1..], b[1..])
  }

  /** `a < b` on two strings: lexicographic order of their UTF-16 code units. */
  predicate StringLess(a: string, b: string) {
    UnitsLess(CodeUnits(a), CodeUnits(b))
  }

  /** The comma-joined parts, as `Array.prototype.join` builds them. */
  function Join(parts: seq<string>): string {
    if parts == [] then ""
    else if |parts| == 1 then parts[0]
    else parts[0] + "," + Join(parts[1..])
  }

  /**
   * `String(v)`. An array joins its elements' strings with commas, where `undefined` and `null`
   * elements give the empty string; a plain object is `[object Object]`.
   */
  function ValueString(v: Value): string
    decreases v
  {
    match v
    case Undef => "undefined"
    case Null => "null"
    case Bool(b) => if b then "true" else "false"
    case Num(n) => IntToString(n)
    case Str(s) => s
    case Arr(items) =>
      Join(seq(|items|, i requires 0 <= i < |items| => if items[i].Undef? || items[i].Null? then "" else ValueString(items[i])))
    case Obj(_) => "[object " + "Object]"
  }

  /** `ToPrimitive(v, number)`: an array's or object's `valueOf` is itself, so its string is used. */
  function ToPrimitive(v: Value): (p: Value)
    ensures !(p.Arr? || p.Obj?)
    ensures v.Arr? || v.Obj? ==> p == Str(ValueString(v))
    ensures !(v.Arr? || v.Obj?) ==> p == v
  {
    if v.Arr? || v.Obj? then Str(ValueString(v)) else v
  }

  /**
   * `a <= b`: both sides are converted to primitives; two strings then compare lexicographically,
   * anything else numerically, and NaN gives false.
   */
  predicate LooseLessEq(a: Value, b: Value) {
    var x, y := ToPrimitive(a), ToPrimitive(b);
    if x.Str? && y.Str? then !StringLess(y.s, x.s)
    else
      var m, n := ToNumber(x), ToNumber(y);
      m.Some? && n.Some? && m.value <= n.value
  }

  /** `a > 0` for a value compared with the number 0. */
  predicate Positive(a: Value) {
    var x := ToNumber(a);
    x.Some? && x.value > 0
  }

  predicate StartsWith(s: string, prefix: string) {
    |prefix| <= |s| && s[..|prefix|] == prefix
  }

  /** Whether `pattern` occurs in `s`: what a regular expression made only of letters and `_` matches. */
  predicate Contains(s: string, pattern: string)
    decreases |s|
  {
    StartsWith(s, pattern) || (s != [] && Contains(s[1..], pattern))
  }

  /** `xs.indexOf(x)`: the first index holding `x`, or -1. */
  function IndexOf<T(==)>(xs: seq<T>, x: T): int {
    if xs == [] then -1
    else if xs[0] == x then 0
    else
      var k := IndexOf(xs[1..], x);
      if k < 0 then -1 else k + 1
  }

  /** `xs.includes(x)` */
  predicate Includes<T(==)>(xs: seq<T>, x: T) {
    x in xs
  }

  // ---------------------------------------------------------------------------------------------
  // Facts about the conversions

  lemma {:induction false} NatToStringShape(n: nat)
    ensures |NatToString(n)| >= 1 && AllDigits(NatToString(n))
    ensures n < 10 <==> |NatToString(n)| == 1
  {
    if n >= 10 {
      NatToStringShape(n / 10);
    }
  }

  lemma {:induction false} DigitPrefixOfDigits(s: string)
    requires AllDigits(s)
    ensures DigitPrefix(s) == s
  {
    if s != [] {
      DigitPrefixOfDigits(s[1..]);
    }
  }

  lemma {:induction false} DigitsValueOfNatToString(n: nat)
    ensures DigitsValue(NatToString(n)) == n
  {
    var s := NatToString(n);
    if n < 10 {
      assert s[..0] == [];
    } else {
      DigitsValueOfNatToString(n / 10);
      assert s[..|s| - 1] == NatToString(n / 10);
    }
  }

  /** `parseInt(String(n)) == n`: the decimal rendering of an integer parses back to it. */
  lemma ParseIntOfIntToString(n: int)
    ensures ParseIntString(IntToString(n)) == Some(n)
  {
    if n < 0 {
      ParseIntOfNegative(-n);
    } else {
      ParseIntOfNatToString(n);
    }
  }

  lemma ParseIntOfNatToString(m: nat)
    ensures ParseIntString(NatToString(m)) == Some(m)
  {
    NatToStringShape(m);
    DigitPrefixOfDigits(NatToString(m));
    DigitsValueOfNatToString(m);
    var s := NatToString(m);
    assert IsDigit(s[0]) && !IsSpace(s[0]);
    assert TrimStart(s) == s;
  }

  lemma ParseIntOfNegative(m: nat)
    ensures ParseIntString("-" + NatToString(m)) == Some(-(m as int))
  {
    NatToStringShape(m);
    DigitPrefixOfDigits(NatToString(m));
    DigitsValueOfNatToString(m);
    var s := "-" + NatToString(m);
    assert s[0] == '-' && !IsSpace(s[0]);
    assert TrimStart(s) == s;
    assert s[1..] == NatToString(m);
  }

  /** `ParseInt` of a stored number is that number. */
  lemma ParseIntOfNum(n: int)
    ensures ParseInt(Num(n)) == Some(n)
  {
    ParseIntOfIntToString(n);
  }

  /** A one-character rendering comes from exactly one digit. */
  lemma IntToStringOneChar(n: int, c: char)
    requires IntToString(n) == [c]
    ensures IsDigit(c) && n == DigitValue(c)
  {
    if n < 0 {
      NatToStringShape(-n);
    } else {
      NatToStringShape(n);
    }
  }

  /** A rendering of an integer is never a word: it starts with a digit or '-'. */
  lemma IntToStringHead(n: int)
    ensures |IntToString(n)| >= 1
    ensures IsDigit(IntToString(n)[0]) || IntToString(n)[0] == '-'
  {
    var m: nat := if n < 0 then -n else n;
    NatToStringShape(m);
    if n >= 0 {
      assert IntToString(n)[0] == NatToString(m)[0];
    }
  }

  lemma {:induction false} IndexOfBounds<T>(xs: seq<T>, x: T)
    ensures -1 <= IndexOf(xs, x) < |xs|
    ensures IndexOf(xs, x) >= 0 ==> xs[IndexOf(xs, x)] == x
    ensures IndexOf(xs, x) == -1 <==> x !in xs
  {
    if xs != [] && xs[0] != x {
      IndexOfBounds(xs[1..], x);
      assert x in xs <==> x in xs[1..];
    }
  }

  /** `xs.indexOf(xs[k]) == k` when the elements are distinct. */
  lemma {:induction false} IndexOfDistinct<T>(xs: seq<T>, k: nat)
    requires k < |xs|
    requires forall i, j :: 0 <= i < j < |xs| ==> xs[i] != xs[j]
    ensures IndexOf(xs, xs[k]) == k
  {
    if k > 0 {
      assert xs[1..][k - 1] == xs[k];
      IndexOfDistinct(xs[1..], k - 1);
    }
  }

  /** `parseInt` gives back a stored integer, and reads the default "0" as 0. */
  lemma NumberParses(v: Value)
    ensures v.Num? ==> ParseInt(v) == Some(v.n)
    ensures ParseInt(Str("0")) == Some(0)
  {
    assert IntToString(0) == "0";
    ParseIntOfNum(0);
    if v.Num? {
      ParseIntOfNum(v.n);
    }
  }

  /** Two numbers compare as numbers. */
  lemma LooseLessEqNumbers(x: int, y: int)
    ensures LooseLessEq(Num(x), Num(y)) <==> x <= y
  {
  }

  /** An array against a string compares as strings: `[10] <= "9"`, since "10" sorts before "9". */
  lemma ArrayAgainstStringIsTextual()
    ensures LooseLessEq(Arr([Num(10)]), Str("9"))
  {
    assert IntToString(10) == "10";
    assert ValueString(Arr([Num(10)])) == "10";
    assert CodeUnits("10") == [49, 48] && CodeUnits("9") == [57];
  }

  /** A number against a string compares as numbers: `10 <= "9"` is false. */
  lemma NumberAgainstStringIsNumeric()
    ensures !LooseLessEq(Num(10), Str("9"))
  {
    assert ToNumber(Str("9")) == Some(9);
  }

  /** An object against a string compares as strings: `{} <= "x"`, since "[object Object]" starts with '['. */
  lemma ObjectAgainstStringIsTextual()
    ensures LooseLessEq(Obj(map[]), Str("x"))
  {
    var o := "[object " + "Object]";
    assert o[0] == '[';
    assert CodeUnits(o) == [91] + CodeUnits(o[1..]);
    assert CodeUnits("x") == [120];
  }

  /** Order by code units, not by characters: U+10000 (units D800 DC00) sorts before U+FFFF. */
  lemma SupplementaryBeforeLastBmp()
    ensures StringLess("\U{10000}", "\U{FFFF}")
  {
    assert CodeUnits("\U{10000}") == [0xD800, 0xDC00];
    assert CodeUnits("\U{FFFF}") == [0xFFFF];
  }
}
