/**
 * The slice of JavaScript semantics the modelled code relies on: JSON-like
 * values, truthiness, `||` and `??`, property reads that throw on
 * `undefined`/`null`, string conversion (`String(v)` and template
 * interpolation), `Number.prototype.toString` for integers,
 * `String.prototype.trim`, `Array.prototype.join` and `reverse`.
 */
module Js {

  datatype Option<T> = None | Some(value: T)

  /**
   * The outcome of a call that may throw, or of an awaited promise: a value,
   * or the message of the error thrown (the rejection reason).
   */
  datatype Result<T> = Ok(value: T) | Err(error: string)

  /**
   * A JavaScript value as far as the model inspects one. Numbers are
   * integers (the only numbers the modelled code reads); objects and arrays
   * are compared structurally.
   */
  datatype Value =
    | Undefined
    | Null
    | Bool(b: bool)
    | Num(n: int)
    | Str(s: string)
    | Arr(items: seq<Value>)
    | Obj(fields: map<string, Value>)

  /** JavaScript truthiness (`!!v`). */
  predicate Truthy(v: Value)
  {
    match v
    case Undefined => false
    case Null => false
    case Bool(b) => b
    case Num(n) => n != 0
    case Str(s) => s != ""
    case Arr(_) => true
    case Obj(_) => true
  }

  /** `a || b` */
  function Or(a: Value, b: Value): (r: Value)
    ensures Truthy(a) ==> r == a
    ensures !Truthy(a) ==> r == b
  {
    if Truthy(a) then a else b
  }

  /** `a && b` */
  function And(a: Value, b: Value): (r: Value)
    ensures !Truthy(a) ==> r == a
    ensures Truthy(a) ==> r == b
  {
    if Truthy(a) then b else a
  }

  /** `a ?? b` */
  function Coalesce(a: Value, b: Value): (r: Value)
    ensures (a.Undefined? || a.Null?) ==> r == b
    ensures !(a.Undefined? || a.Null?) ==> r == a
  {
    match a
    case Undefined => b
    case Null => b
    case _ => a
  }

  /** `v.key`: None when reading a property of `undefined` or `null` throws a TypeError. */
  function Prop(v: Value, key: string): (r: Option<Value>)
    ensures r.None? <==> (v.Undefined? || v.Null?)
    ensures v.Obj? && key in v.fields ==> r == Some(v.fields[key])
    ensures v.Obj? && key !in v.fields ==> r == Some(Undefined)
  {
    match v
    case Undefined => None
    case Null => None
    case Obj(m) => if key in m then Some(m[key]) else Some(Undefined)
    case _ => Some(Undefined)
  }

  /** A field of a plain object, `undefined` when absent. */
  function Field(m: map<string, Value>, key: string): Value
  {
    if key in m then m[key] else Undefined
  }

  /**
   * The own fields `...v` copies into an object literal. Objects contribute
   * their fields, arrays their indices, strings one field per character;
   * other values contribute none.
   */
  function Spread(v: Value): (m: map<string, Value>)
    ensures v.Obj? ==> m == v.fields
    ensures v.Undefined? || v.Null? || v.Bool? || v.Num? ==> m == map[]
  {
    DecimalInjective();
    match v
    case Obj(fields) => fields
    case Arr(items) => map i | 0 <= i < |items| :: Decimal(i) := items[i]
    case Str(s) => map i | 0 <= i < |s| :: Decimal(i) := Str([s[i]])
    case _ => map[]
  }

  // ---------------------------------------------------------------------
  // Integers as decimal text
  // ---------------------------------------------------------------------

  predicate IsDigit(c: char)
  {
    '0' <= c <= '9'
  }

  function DigitChar(d: nat): (c: char)
    requires d < 10
    ensures IsDigit(c) && c as int - '0' as int == d
  {
    ('0' as int + d) as char
  }

  /** The decimal digits of a natural number, most significant first. */
  function Digits(n: nat): (r: string)
    ensures |r| > 0
    ensures forall i | 0 <= i < |r| :: IsDigit(r[i])
  {
    if n < 10 then [DigitChar(n)] else Digits(n / 10) + [DigitChar(n % 10)]
  }

  /** `String(n)` for an integer `n`. */
  function Decimal(n: int): (r: string)
    ensures |r| > 0
    ensures forall i | 0 <= i < |r| :: IsDigit(r[i]) || r[i] == '-'
  {
    if n < 0 then "-" + Digits(-n) else Digits(n)
  }

  function DigitValue(c: char): nat
    requires IsDigit(c)
  {
    c as int - '0' as int
  }

  /** The value of a string of decimal digits (the inverse of Digits). */
  function DigitsValue(s: string): nat
    requires forall i | 0 <= i < |s| :: IsDigit(s[i])
  {
    if s == [] then 0
    else 10 * DigitsValue(s[..|s| - 1]) + DigitValue(s[|s| - 1])
  }

  /** Reads back what Decimal wrote. */
  function ParseDecimal(s: string): Option<int>
  {
    if |s| > 0 && s[0] == '-' && forall i | 1 <= i < |s| :: IsDigit(s[i]) then
      Some(-(DigitsValue(s[1..]) as int))
    else if forall i | 0 <= i < |s| :: IsDigit(s[i]) then
      Some(DigitsValue(s))
    else
      None
  }

  lemma {:induction false} DigitsRoundTrip(n: nat)
    ensures DigitsValue(Digits(n)) == n
  {
    if n >= 10 {
      DigitsRoundTrip(n / 10);
      var d := Digits(n / 10) + [DigitChar(n % 10)];
      assert d[..|d| - 1] == Digits(n / 10);
    }
  }

  /** The decimal rendering loses nothing: it parses back to the same integer. */
  lemma DecimalRoundTrip(n: int)
    ensures ParseDecimal(Decimal(n)) == Some(n)
  {
    if n < 0 {
      DigitsRoundTrip(-n);
      var s := Decimal(n);
      assert s[1..] == Digits(-n);
    } else {
      DigitsRoundTrip(n);
    }
  }

  /** Distinct integers have distinct decimal renderings. */
  lemma DecimalInjective()
    ensures forall i: int, j: int :: Decimal(i) == Decimal(j) ==> i == j
  {
    forall i: int, j: int | Decimal(i) == Decimal(j) ensures i == j {
      DecimalRoundTrip(i);
      DecimalRoundTrip(j);
    }
  }

  // ---------------------------------------------------------------------
  // String conversion
  // ---------------------------------------------------------------------

  /** `Array.prototype.join(sep)` */
  function Join(parts: seq<string>, sep: string): (r: string)
    ensures |parts| == 0 ==> r == ""
    ensures |parts| == 1 ==> r == parts[0]
  {
    if |parts| == 0 then ""
    else if |parts| == 1 then parts[0]
    else parts[0] + sep + Join(parts[1..], sep)
  }

  /** `String(v)`, which is also what `${v}` inserts into a template literal. */
  function ToStr(v: Value): string
  {
    match v
    case Undefined => "undefined"
    case Null => "null"
    case Bool(b) => if b then "true" else "false"
    case Num(n) => Decimal(n)
    case Str(s) => s
    case Arr(items) => Join(ElementStrings(items), ",")
    case Obj(_) => "[object Object]"
  }

  /** How `Array.prototype.toString` renders each element: `undefined` and `null` become empty. */
  function ElementStrings(items: seq<Value>): (r: seq<string>)
    ensures |r| == |items|
  {
    if |items| == 0 then []
    else [if items[0].Undefined? || items[0].Null? then "" else ToStr(items[0])] + ElementStrings(items[1..])
  }

  // ---------------------------------------------------------------------
  // String.prototype.trim
  // ---------------------------------------------------------------------

  /** The characters `trim` removes: WhiteSpace and LineTerminator of ECMA-262. */
  predicate IsWhitespace(c: char)
  {
    c == ' ' || c == '\t' || c == '\n' || c == '\r' || c == '\U{000B}' || c == '\U{000C}'
    || c == '\U{00A0}' || c == '\U{FEFF}' || c == '\U{1680}'
    || ('\U{2000}' <= c <= '\U{200A}')
    || c == '\U{2028}' || c == '\U{2029}' || c == '\U{202F}' || c == '\U{205F}' || c == '\U{3000}'
  }

  function TrimStart(s: string): (r: string)
    ensures |r| <= |s| && r == s[|s| - |r|..]
    ensures forall i | 0 <= i < |s| - |r| :: IsWhitespace(s[i])
    ensures |r| > 0 ==> !IsWhitespace(r[0])
  {
    if |s| > 0 && IsWhitespace(s[0]) then TrimStart(s[1..]) else s
  }

  function TrimEnd(s: string): (r: string)
    ensures |r| <= |s| && r == s[..|r|]
    ensures forall i | |r| <= i < |s| :: IsWhitespace(s[i])
    ensures |r| > 0 ==> !IsWhitespace(r[|r| - 1])
  {
    if |s| > 0 && IsWhitespace(s[|s| - 1]) then TrimEnd(s[..|s| - 1]) else s
  }

  /** `s.trim()` */
  function Trim(s: string): (r: string)
  {
    TrimEnd(TrimStart(s))
  }

  /**
   * What trim promises: the result is the slice of `s` left after removing
   * the longest whitespace prefix and suffix; it starts and ends with a
   * non-whitespace character.
   */
  lemma TrimIsCore(s: string) returns (i: nat, j: nat)
    ensures i <= j <= |s| && Trim(s) == s[i..j]
    ensures forall k | 0 <= k < i :: IsWhitespace(s[k])
    ensures forall k | j <= k < |s| :: IsWhitespace(s[k])
    ensures |Trim(s)| > 0 ==> !IsWhitespace(Trim(s)[0]) && !IsWhitespace(Trim(s)[|Trim(s)| - 1])
  {
    var t := TrimStart(s);
    i := |s| - |t|;
    j := i + |TrimEnd(t)|;
    assert Trim(s) == t[..|TrimEnd(t)|];
    assert t == s[i..];
    forall k | j <= k < |s| ensures IsWhitespace(s[k]) {
      assert s[k] == t[k - i];
    }
  }

  lemma TrimIdempotent(s: string)
    ensures Trim(Trim(s)) == Trim(s)
  {
    var r := Trim(s);
    if |r| > 0 {
      assert TrimStart(r) == r;
      assert TrimEnd(r) == r;
    }
  }

  // ---------------------------------------------------------------------
  // Arrays
  // ---------------------------------------------------------------------

  /** `Array.prototype.reverse` */
  function Reverse<T>(s: seq<T>): (r: seq<T>)
    ensures |r| == |s|
    ensures forall i | 0 <= i < |s| :: r[i] == s[|s| - 1 - i]
  {
    if |s| == 0 then [] else Reverse(s[1..]) + [s[0]]
  }

  /**
   * Joining one more part appends exactly one separator and the part: the
   * parts appear in order, separated by `sep`.
   */
  lemma {:induction false} JoinAppend(parts: seq<string>, x: string, sep: string)
    ensures Join(parts + [x], sep) == if parts == [] then x else Join(parts, sep) + sep + x
  {
    if |parts| >= 2 {
      JoinAppend(parts[1..], x, sep);
      assert (parts + [x])[1..] == parts[1..] + [x];
      assert Join(parts + [x], sep) == parts[0] + sep + Join(parts[1..] + [x], sep);
    } else if |parts| == 1 {
      assert (parts + [x])[1..] == [x];
    }
  }

  /** A character in none of the parts and not in the separator is not in the joined text. */
  lemma {:induction false} JoinChars(parts: seq<string>, sep: string, c: char)
    requires c !in sep
    requires forall i | 0 <= i < |parts| :: c !in parts[i]
    ensures c !in Join(parts, sep)
  {
    if |parts| >= 2 {
      JoinChars(parts[1..], sep, c);
      assert c !in parts[0];
    }
  }
}
