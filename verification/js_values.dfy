/**
 * The JavaScript values the client handles: decoded response bodies, request
 * parameters and the strings written to browser storage. Only the parts of
 * JavaScript's semantics the client relies on are modelled: truthiness,
 * property access (which throws on `null`/`undefined`), string coercion
 * (template literals and `localStorage.setItem`) and numeric coercion
 * (`Number(..)` and relational comparisons). Numbers are integers.
 */
module JsValues {

  datatype Option<+T> = None | Some(value: T)

  datatype Value =
    | Undefined
    | Null
    | Bool(b: bool)
    | Num(n: int)
    | Str(s: string)
    | Arr(items: seq<Value>)
    | Obj(fields: map<string, Value>)

  /** JavaScript truthiness, as used by `if (v)`, `!v`, `v || w` and `v && w`. */
  predicate Truthy(v: Value) {
    match v
    case Undefined => false
    case Null => false
    case Bool(b) => b
    case Num(n) => n != 0
    case Str(s) => s != ""
    case Arr(_) => true
    case Obj(_) => true
  }

  /** A string-or-absent argument (`string | undefined`) as a value. */
  function OfOption(o: Option<string>): Value {
    match o
    case None => Undefined
    case Some(s) => Str(s)
  }

  /**
   * Property access `v.k`. `None` stands for the TypeError JavaScript throws
   * when `v` is `null` or `undefined`; a missing key reads as `undefined`.
   */
  function Get(v: Value, k: string): (r: Option<Value>)
    ensures r.None? <==> v.Undefined? || v.Null?
    ensures v.Obj? && k in v.fields ==> r == Some(v.fields[k])
    ensures v.Obj? && k !in v.fields ==> r == Some(Undefined)
  {
    match v
    case Undefined => None
    case Null => None
    case Obj(f) => if k in f then Some(f[k]) else Some(Undefined)
    case _ => Some(Undefined)
  }

  // ---------------------------------------------------------------------------
  // Decimal text of integers

  function Digit(d: nat): char
    requires d < 10
  {
    "0123456789"[d]
  }

  predicate IsDigit(c: char) {
    '0' <= c <= '9'
  }

  predicate AllDigits(s: string) {
    forall i :: 0 <= i < |s| ==> IsDigit(s[i])
  }

  function NatToStr(n: nat): (s: string)
    decreases n
  {
    if n < 10 then [Digit(n)] else NatToStr(n / 10) + [Digit(n % 10)]
  }

  function IntToStr(n: int): string {
    if n < 0 then "-" + NatToStr(-n) else NatToStr(n)
  }

  /** The value of a string of decimal digits, read left to right. */
  function DigitsValue(s: string): nat
    requires AllDigits(s)
  {
    if |s| == 0 then 0
    else DigitsValue(s[..|s| - 1]) * 10 + (s[|s| - 1] as int - '0' as int)
  }

  /**
   * `Number(s)` restricted to integer text: the empty string is 0, an
   * optionally signed run of decimal digits is its value, anything else is
   * NaN (`None`).
   */
  function ParseNumber(s: string): (r: Option<int>)
    ensures AllDigits(s) ==> r == Some(DigitsValue(s))
  {
    if s == "" then Some(0)
    else if |s| > 1 && s[0] == '-' && AllDigits(s[1..]) then
      var d: int := DigitsValue(s[1..]);
      Some(-d)
    else if |s| > 1 && s[0] == '+' && AllDigits(s[1..]) then Some(DigitsValue(s[1..]))
    else if AllDigits(s) then Some(DigitsValue(s))
    else None
  }

  /** A digit character reads back as its value. */
  lemma DigitValue(d: nat)
    requires d < 10
    ensures IsDigit(Digit(d)) && Digit(d) as int - '0' as int == d
  {
  }

  lemma {:induction false} NatToStrDigits(n: nat)
    ensures |NatToStr(n)| > 0
    ensures AllDigits(NatToStr(n))
    ensures DigitsValue(NatToStr(n)) == n
    decreases n
  {
    if n < 10 {
      DigitValue(n);
    } else {
      NatToStrDigits(n / 10);
      DigitValue(n % 10);
      var prefix := NatToStr(n / 10);
      var s := NatToStr(n);
      assert s == prefix + [Digit(n % 10)];
      assert s[..|s| - 1] == prefix;
      assert AllDigits(s) by {
        forall i | 0 <= i < |s| ensures IsDigit(s[i]) {
          if i < |prefix| { assert s[i] == prefix[i]; }
        }
      }
      assert DigitsValue(s) == DigitsValue(prefix) * 10 + n % 10;
    }
  }

  /** Reading back the decimal text of an integer gives the integer. */
  lemma IntToStrRoundTrip(n: int)
    ensures ParseNumber(IntToStr(n)) == Some(n)
  {
    var s := IntToStr(n);
    if n < 0 {
      NatToStrDigits(-n);
      assert s[0] == '-' && s[1..] == NatToStr(-n);
      assert AllDigits(s[1..]);
    } else {
      NatToStrDigits(n);
      assert AllDigits(s);
    }
  }

  // ---------------------------------------------------------------------------
  // Coercions

  /**
   * `String(v)`, which is also what a template literal and
   * `localStorage.setItem` do with a value.
   */
  function ToStr(v: Value): string
    decreases v, 1, 0
  {
    match v
    case Undefined => "undefined"
    case Null => "null"
    case Bool(b) => if b then "true" else "false"
    case Num(n) => IntToStr(n)
    case Str(s) => s
    case Arr(items) => JoinFrom(v, 0)
    case Obj(_) => "[object Object]"
  }

  /** `Array.prototype.join(",")` from index `k`: null and undefined become "". */
  function JoinFrom(v: Value, k: nat): string
    requires v.Arr? && k <= |v.items|
    decreases v, 0, |v.items| - k
  {
    if k == |v.items| then ""
    else
      var x := v.items[k];
      (if k > 0 then "," else "")
      + (if x.Undefined? || x.Null? then "" else ToStr(x))
      + JoinFrom(v, k + 1)
  }

  /** JavaScript's ToNumber for the relational operators; `None` is NaN. */
  function ToNumber(v: Value): Option<int> {
    match v
    case Undefined => None
    case Null => Some(0)
    case Bool(b) => Some(if b then 1 else 0)
    case Num(n) => Some(n)
    case Str(s) => ParseNumber(s)
    case Arr(_) => ParseNumber(ToStr(v))
    case Obj(_) => None
  }

  /** `a >= v` for an integer `a`; every comparison with NaN is false. */
  predicate AtLeast(a: int, v: Value) {
    match ToNumber(v)
    case Some(n) => a >= n
    case None => false
  }

  /** `v > a` for an integer `a`. */
  predicate Exceeds(v: Value, a: int) {
    match ToNumber(v)
    case Some(n) => n > a
    case None => false
  }

  /** `Number(s)` placed in a JSON body: NaN is serialised as `null`. */
  function NumberField(s: string): (r: Value)
    ensures r.Num? || r.Null?
    ensures r.Null? <==> ParseNumber(s).None?
  {
    match ParseNumber(s)
    case Some(n) => Num(n)
    case None => Null
  }

  /** The decimal text of any integer, sign included, is sent as that integer. */
  lemma NumberFieldOfInt(n: int)
    ensures NumberField(IntToStr(n)) == Num(n)
  {
    IntToStrRoundTrip(n);
  }

  // ---------------------------------------------------------------------------
  // Substring search (`String.prototype.includes`)

  /** `sub` occurs in `s` at index `i`. */
  predicate OccursAt(s: string, sub: string, i: int) {
    0 <= i && i + |sub| <= |s| && s[i..i + |sub|] == sub
  }

  /** `s.includes(sub)`, by scanning from the left. */
  function Includes(s: string, sub: string): bool
    decreases |s|
  {
    if |sub| > |s| then false
    else if s[..|sub|] == sub then true
    else Includes(s[1..], sub)
  }

  lemma {:induction false} IncludesIffOccurs(s: string, sub: string)
    ensures Includes(s, sub) <==> exists i :: OccursAt(s, sub, i)
    decreases |s|
  {
    if |sub| > |s| {
      assert forall i :: !OccursAt(s, sub, i);
    } else if s[..|sub|] == sub {
      assert OccursAt(s, sub, 0);
    } else {
      IncludesIffOccurs(s[1..], sub);
      if Includes(s[1..], sub) {
        var i :| OccursAt(s[1..], sub, i);
        assert s[1..][i..i + |sub|] == s[i + 1..i + 1 + |sub|];
        assert OccursAt(s, sub, i + 1);
      }
      if exists i :: OccursAt(s, sub, i) {
        var i :| OccursAt(s, sub, i);
        assert i != 0;
        assert s[1..][i - 1..i - 1 + |sub|] == s[i..i + |sub|];
        assert OccursAt(s[1..], sub, i - 1);
      }
    }
  }
}
