/**
 * Dynamically typed JSON-like values, the way the pipeline's dictionaries hold them,
 * together with the few Python coercions the scoring code applies to them:
 * truthiness, numeric comparison, `float(x)`, `isinstance(x, int)` and `len(x)`.
 */
module Values {
  import opened Wrappers
  import Text
  import Rounding

  datatype Value =
    | VNone
    | VBool(b: bool)
    | VInt(i: int)
    | VReal(r: real)
    | VStr(s: string)
      /** A string holding a valid ISO-8601 timestamp for the instant `t` (whole seconds). */
    | VTime(t: int)
      /** A `datetime` object (not a string) for the instant `t`. */
    | VDateTime(t: int)
    | VList(items: seq<Value>)
    | VTuple(items: seq<Value>)
    | VDict(fields: map<string, Value>)
      /** A member of one of the program's `Enum` classes; `value` is its string value. */
    | VEnum(value: string)

  /** A Python `dict` with string keys. */
  type Record = map<string, Value>

  /** Python's `d.get(k, default)`. */
  function Get(d: Record, k: string, default: Value): (v: Value)
    ensures k in d ==> v == d[k]
    ensures k !in d ==> v == default
  {
    if k in d then d[k] else default
  }

  /** Python's `bool(v)`. */
  predicate Truthy(v: Value)
  {
    match v
    case VNone => false
    case VBool(b) => b
    case VInt(i) => i != 0
    case VReal(r) => r != 0.0
    case VStr(s) => |s| > 0
    case VTime(_) => true
    case VDateTime(_) => true
    case VList(items) => |items| > 0
    case VTuple(items) => |items| > 0
    case VDict(fields) => |fields| > 0
    case VEnum(_) => true
  }

  /**
   * The number a value stands for in an arithmetic comparison such as `v < 0.5`:
   * `bool` is a subclass of `int`; anything else raises `TypeError` (here: `None`).
   */
  function Num(v: Value): (n: Option<real>)
    ensures n.Some? <==> (v.VBool? || v.VInt? || v.VReal?)
  {
    match v
    case VBool(b) => Some(if b then 1.0 else 0.0)
    case VInt(i) => Some(i as real)
    case VReal(r) => Some(r)
    case _ => None
  }

  /** Python's `isinstance(v, int)` (true for `bool` too) and the integer it holds. */
  function AsInt(v: Value): (n: Option<int>)
    ensures n.Some? <==> (v.VBool? || v.VInt?)
  {
    match v
    case VBool(b) => Some(if b then 1 else 0)
    case VInt(i) => Some(i)
    case _ => None
  }

  /** `len(v)` is defined (does not raise `TypeError`). */
  predicate Sized(v: Value)
  {
    v.VStr? || v.VTime? || v.VList? || v.VTuple? || v.VDict?
  }

  predicate IsDigit(c: char)
  {
    '0' <= c <= '9'
  }

  /** The natural number written by a non-empty run of decimal digits. */
  function DigitsValue(s: string): nat
    requires forall i :: 0 <= i < |s| ==> IsDigit(s[i])
  {
    if |s| == 0 then 0
    else
      var last := s[|s| - 1];
      assert IsDigit(last);
      DigitsValue(s[..|s| - 1]) * 10 + (last as int - '0' as int)
  }

  predicate AllDigits(s: string)
  {
    forall i :: 0 <= i < |s| ==> IsDigit(s[i])
  }

  /** A character of plain decimal notation: a digit, the point or a sign. */
  predicate DecimalChar(c: char)
  {
    IsDigit(c) || c == '.' || c == '+' || c == '-'
  }

  /** An unsigned decimal `digits[.digits]` with at least one digit on some side of the point. */
  function ParseUnsigned(s: string): (r: Option<real>)
    ensures r.Some? ==> r.value >= 0.0
    ensures |s| > 0 && AllDigits(s) ==> r == Some(DigitsValue(s) as real)
    ensures r.Some? ==> forall i :: 0 <= i < |s| ==> IsDigit(s[i]) || s[i] == '.'
  {
    var dot := Text.Find(s, ".", 0);
    if dot == -1 then
      if |s| > 0 && AllDigits(s) then Some(DigitsValue(s) as real) else None
    else
      assert s[dot..dot + 1] == "." && s[dot] == '.';
      var whole, frac := s[..dot], s[dot + 1..];
      if |whole| + |frac| > 0 && AllDigits(whole) && AllDigits(frac) then
        assert forall i :: 0 <= i < |s| ==> IsDigit(s[i]) || s[i] == '.' by {
          forall i | 0 <= i < |s|
            ensures IsDigit(s[i]) || s[i] == '.'
          {
            if i < dot {
              assert s[i] == whole[i];
            } else if i > dot {
              assert s[i] == frac[i - dot - 1];
            }
          }
        }
        Some(DigitsValue(whole) as real + DigitsValue(frac) as real / Rounding.Pow10(|frac|) as real)
      else None
  }

  /**
   * What `float` gives for text `t` without surrounding whitespace: a plain integer string its
   * value with its sign, and nothing for a string with a character other than digits, a point or
   * a sign (an exponent, `inf`, `nan`, an underscore).
   */
  predicate ReadsDecimal(t: string, r: Option<real>)
  {
    && (|t| > 0 && AllDigits(t) ==> r == Some(DigitsValue(t) as real))
    && (|t| > 1 && t[0] == '-' && AllDigits(t[1..]) ==> r == Some(-(DigitsValue(t[1..]) as real)))
    && (|t| > 1 && t[0] == '+' && AllDigits(t[1..]) ==> r == Some(DigitsValue(t[1..]) as real))
    && (r.Some? ==> forall i :: 0 <= i < |t| ==> DecimalChar(t[i]))
  }

  /** Python's `float(s)` for a string in plain decimal notation, surrounding whitespace allowed. */
  function ParseDecimal(s: string): (r: Option<real>)
    ensures ReadsDecimal(Text.Strip(s), r)
  {
    ParseStripped(Text.Strip(s))
  }

  /** `float` on text without surrounding whitespace: an optional sign, then unsigned decimal notation. */
  function ParseStripped(t: string): (r: Option<real>)
    ensures |t| > 0 && AllDigits(t) ==> r == Some(DigitsValue(t) as real)
    ensures |t| > 1 && t[0] == '-' && AllDigits(t[1..]) ==> r == Some(-(DigitsValue(t[1..]) as real))
    ensures |t| > 1 && t[0] == '+' && AllDigits(t[1..]) ==> r == Some(DigitsValue(t[1..]) as real)
    ensures r.Some? ==> forall i :: 0 <= i < |t| ==> DecimalChar(t[i])
  {
    if |t| > 0 && (t[0] == '-' || t[0] == '+') then
      assert !AllDigits(t) by { assert !IsDigit(t[0]); }
      ParseSigned(t)
    else ParseUnsigned(t)
  }

  /** A sign followed by unsigned decimal notation. */
  function ParseSigned(t: string): (r: Option<real>)
    requires |t| > 0 && (t[0] == '-' || t[0] == '+')
    ensures |t| > 1 && AllDigits(t[1..]) ==>
      r == Some(if t[0] == '-' then -(DigitsValue(t[1..]) as real) else DigitsValue(t[1..]) as real)
    ensures r.Some? ==> forall i :: 0 <= i < |t| ==> DecimalChar(t[i])
  {
    SignedChars(t);
    var u := ParseUnsigned(t[1..]);
    if t[0] == '-' then
      match u
      case Some(x) => Some(-x)
      case None => None
    else u
  }

  /** A sign followed by unsigned decimal notation is written in decimal characters only. */
  lemma {:induction false} SignedChars(t: string)
    requires |t| > 0 && (t[0] == '-' || t[0] == '+')
    ensures ParseUnsigned(t[1..]).Some? ==> forall i :: 0 <= i < |t| ==> DecimalChar(t[i])
  {
    if ParseUnsigned(t[1..]).Some? {
      forall i | 0 <= i < |t|
        ensures DecimalChar(t[i])
      {
        if i > 0 {
          assert t[i] == t[1..][i - 1];
        }
      }
    }
  }

  /** Python's `float(v)`; `None` when it raises `ValueError` or `TypeError`. */
  function ToFloat(v: Value): (r: Option<real>)
    ensures Num(v).Some? ==> r == Num(v)
    ensures r.Some? ==> v.VBool? || v.VInt? || v.VReal? || v.VStr?
    ensures v.VStr? && |Text.Strip(v.s)| > 0 && AllDigits(Text.Strip(v.s)) ==> r == Some(DigitsValue(Text.Strip(v.s)) as real)
    ensures v.VStr? && r.Some? ==> forall i :: 0 <= i < |Text.Strip(v.s)| ==> DecimalChar(Text.Strip(v.s)[i])
  {
    match v
    case VStr(s) => ParseDecimal(s)
    case _ => Num(v)
  }

  /** `digits.digits`, with digits on at least one side, parses to the whole part plus the scaled fraction. */
  lemma {:induction false} PointValue(whole: string, frac: string)
    requires AllDigits(whole) && AllDigits(frac) && |whole| + |frac| > 0
    ensures ParseUnsigned(whole + "." + frac)
            == Some(DigitsValue(whole) as real + DigitsValue(frac) as real / Rounding.Pow10(|frac|) as real)
  {
    var s := whole + "." + frac;
    var n := |whole|;
    assert s[n..n + 1] == ".";
    assert Text.OccursAt(s, ".", n);
    forall j | 0 <= j < n
      ensures !Text.OccursAt(s, ".", j)
    {
      assert s[j..j + 1] == [whole[j]];
    }
    assert Text.Find(s, ".", 0) == n;
    assert s[..n] == whole && s[n + 1..] == frac;
  }

  /** `float("12.5")`: a string in plain point notation converts to the value it writes. */
  lemma {:induction false} ToFloatPoint(whole: string, frac: string)
    requires AllDigits(whole) && AllDigits(frac) && |whole| + |frac| > 0
    ensures ToFloat(VStr(whole + "." + frac))
            == Some(DigitsValue(whole) as real + DigitsValue(frac) as real / Rounding.Pow10(|frac|) as real)
  {
    var s := whole + "." + frac;
    assert s[0] == (if |whole| > 0 then whole[0] else '.');
    assert s[|s| - 1] == (if |frac| > 0 then frac[|frac| - 1] else '.');
    Text.StripUnchanged(s);
    UnsignedDecimal(s);
    PointValue(whole, frac);
  }

  /** Without surrounding whitespace or a sign, `ParseDecimal` is `ParseUnsigned`. */
  lemma {:induction false} UnsignedDecimal(t: string)
    requires |t| > 0 && Text.Strip(t) == t && t[0] != '-' && t[0] != '+'
    ensures ParseDecimal(t) == ParseUnsigned(t)
  {
  }

  /** The value contains an `Enum` member somewhere inside it. */
  predicate HasEnum(v: Value)
  {
    match v
    case VEnum(_) => true
    case VList(items) => exists i :: 0 <= i < |items| && HasEnum(items[i])
    case VTuple(items) => exists i :: 0 <= i < |items| && HasEnum(items[i])
    case VDict(fields) => exists k :: k in fields && HasEnum(fields[k])
    case _ => false
  }

  /** `convert_enums_to_strings`: every `Enum` member replaced by its string value. */
  function ConvertEnums(v: Value): (r: Value)
    ensures !HasEnum(r)
    ensures v.VEnum? ==> r == VStr(v.value)
    ensures v.VDict? ==> r.VDict? && r.fields.Keys == v.fields.Keys
    ensures v.VList? ==> r.VList? && |r.items| == |v.items|
    ensures v.VTuple? ==> r.VTuple? && |r.items| == |v.items|
    ensures !(v.VEnum? || v.VDict? || v.VList? || v.VTuple?) ==> r == v
  {
    match v
    case VEnum(s) => VStr(s)
    case VDict(m) => VDict(map k | k in m :: ConvertEnums(m[k]))
    case VList(xs) => VList(seq(|xs|, i requires 0 <= i < |xs| => ConvertEnums(xs[i])))
    case VTuple(xs) => VTuple(seq(|xs|, i requires 0 <= i < |xs| => ConvertEnums(xs[i])))
    case _ => v
  }

  /** A value with no `Enum` inside is left exactly as it is. */
  lemma {:induction false} ConvertEnumsFixesEnumFree(v: Value)
    requires !HasEnum(v)
    ensures ConvertEnums(v) == v
    decreases v
  {
    match v
    case VDict(m) =>
      forall k | k in m ensures ConvertEnums(m[k]) == m[k] {
        ConvertEnumsFixesEnumFree(m[k]);
      }
    case VList(xs) =>
      forall i | 0 <= i < |xs| ensures ConvertEnums(xs[i]) == xs[i] {
        ConvertEnumsFixesEnumFree(xs[i]);
      }
    case VTuple(xs) =>
      forall i | 0 <= i < |xs| ensures ConvertEnums(xs[i]) == xs[i] {
        ConvertEnumsFixesEnumFree(xs[i]);
      }
    case _ =>
  }

  /** Converting twice is the same as converting once. */
  lemma {:induction false} ConvertEnumsIdempotent(v: Value)
    ensures ConvertEnums(ConvertEnums(v)) == ConvertEnums(v)
  {
    ConvertEnumsFixesEnumFree(ConvertEnums(v));
  }

  /** Each element keeps its position: the i-th element of the result is the converted i-th element. */
  lemma {:induction false} ConvertEnumsPointwise(v: Value)
    ensures v.VList? ==> forall i :: 0 <= i < |v.items| ==> ConvertEnums(v).items[i] == ConvertEnums(v.items[i])
    ensures v.VDict? ==> forall k :: k in v.fields ==> ConvertEnums(v).fields[k] == ConvertEnums(v.fields[k])
  {
  }
}
