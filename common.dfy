/** Shared vocabulary: optional values, the values held in form and `vals`
    dictionaries, Python-style truthiness, and the handful of string
    operations (strip, isdigit, startswith, `in`, lower-casing, int() and
    str()) that the checkout code relies on. */
module Common {

  datatype Option<T> = None | Some(value: T)

  /** A value stored in a checkout or `vals` dictionary: form fields are
      strings; a few defaults (country 173, record ids) are integers. */
  datatype Value = Str(s: string) | Int(i: int)

  /** Python truthiness of a dictionary value. */
  predicate Truthy(v: Value) {
    match v
    case Str(s) => s != ""
    case Int(i) => i != 0
  }

  /** `d.get(k)` used as a condition: absent keys read as None (falsy). */
  predicate TruthyAt(d: map<string, Value>, k: string) {
    k in d && Truthy(d[k])
  }

  /** An HTTP form (`kw`, `all_values`): every value is a string. */
  type Form = map<string, string>

  /** `form.get(k, '')`, which for string values is also `form.get(k) or ''`. */
  function FormGet(form: Form, k: string): (r: string)
    ensures k !in form ==> r == ""
    ensures k in form ==> r == form[k]
  {
    if k in form then form[k] else ""
  }

  // ---------------------------------------------------------------------
  // Characters

  predicate IsDigit(c: char) { '0' <= c <= '9' }

  /** ASCII whitespace as removed by Python's `str.strip()` and JavaScript's `trim()`. */
  predicate IsSpace(c: char) {
    c == ' ' || c == '\t' || c == '\n' || c == '\r' || c == '\U{B}' || c == '\U{C}'
  }

  /** Python `str.isdigit()`: non-empty and every character a digit. */
  predicate AllDigits(s: string) {
    |s| > 0 && forall i :: 0 <= i < |s| ==> IsDigit(s[i])
  }

  // ---------------------------------------------------------------------
  // Strip

  function StripLeft(s: string): (r: string)
    ensures |r| <= |s|
    ensures r == [] || !IsSpace(r[0])
    ensures forall i :: 0 <= i < |s| - |r| ==> IsSpace(s[i])
  {
    if |s| > 0 && IsSpace(s[0]) then StripLeft(s[1..]) else s
  }

  function StripRight(s: string): (r: string)
    ensures |r| <= |s| && (|r| > 0 ==> r[0] == s[0])
    ensures r == [] || !IsSpace(r[|r| - 1])
    ensures forall i :: |r| <= i < |s| ==> IsSpace(s[i])
  {
    if |s| > 0 && IsSpace(s[|s| - 1]) then StripRight(s[..|s| - 1]) else s
  }

  /** Python `str.strip()` (and JavaScript `trim()`) over ASCII whitespace. */
  function Strip(s: string): (r: string)
    ensures |r| <= |s|
    ensures r == [] || (!IsSpace(r[0]) && !IsSpace(r[|r| - 1]))
  {
    StripRight(StripLeft(s))
  }

  lemma {:induction false} StripLeftNoSpace(s: string)
    requires s == [] || !IsSpace(s[0])
    ensures StripLeft(s) == s
  {
  }

  lemma {:induction false} StripRightNoSpace(s: string)
    requires s == [] || !IsSpace(s[|s| - 1])
    ensures StripRight(s) == s
  {
  }

  /** A string without surrounding whitespace is its own strip; in
      particular stripping twice is stripping once. */
  lemma StripIdempotent(s: string)
    ensures Strip(Strip(s)) == Strip(s)
  {
    var r := Strip(s);
    StripLeftNoSpace(r);
    StripRightNoSpace(r);
  }

  lemma DigitsAreStripped(s: string)
    requires AllDigits(s)
    ensures Strip(s) == s
  {
    StripLeftNoSpace(s);
    StripRightNoSpace(s);
  }

  // ---------------------------------------------------------------------
  // Substrings

  predicate StartsWith(s: string, p: string) {
    |p| <= |s| && s[..|p|] == p
  }

  /** Python `sub in s`, JavaScript `s.includes(sub)`. */
  predicate Contains(s: string, sub: string)
    decreases |s|
  {
    StartsWith(s, sub) || (|s| > 0 && Contains(s[1..], sub))
  }

  /** What a string contains, every extension of it still contains. */
  lemma {:induction false} ContainsExtend(s: string, t: string, sub: string)
    requires Contains(s, sub)
    ensures Contains(s + t, sub)
    decreases |s|
  {
    if StartsWith(s, sub) {
      assert (s + t)[..|sub|] == s[..|sub|];
    } else {
      assert (s + t)[1..] == s[1..] + t;
      ContainsExtend(s[1..], t, sub);
    }
  }

  /** A string contains each of its suffixes. */
  lemma {:induction false} ContainsSuffix(t: string, sub: string)
    ensures Contains(t + sub, sub)
    decreases |t|
  {
    if |t| == 0 {
      assert t + sub == sub;
      assert (t + sub)[..|sub|] == sub;
    } else {
      assert (t + sub)[1..] == t[1..] + sub;
      ContainsSuffix(t[1..], sub);
    }
  }

  // ---------------------------------------------------------------------
  // Case

  function LowerChar(c: char): char {
    if 'A' <= c <= 'Z' then (c as int + 32) as char else c
  }

  /** `toLowerCase()` / `lower()` over ASCII letters. */
  function ToLower(s: string): (r: string)
    ensures |r| == |s|
    ensures forall i :: 0 <= i < |s| ==> r[i] == LowerChar(s[i])
  {
    if s == [] then [] else [LowerChar(s[0])] + ToLower(s[1..])
  }

  // ---------------------------------------------------------------------
  // Numbers as text

  function DigitChar(d: nat): char
    requires d < 10
  {
    ('0' as int + d) as char
  }

  function DigitValue(c: char): nat
    requires IsDigit(c)
  {
    c as int - '0' as int
  }

  /** Decimal spelling of a natural number, as Python's `str()` writes it. */
  function NatToStr(n: nat): (r: string)
    ensures AllDigits(r)
    decreases n
  {
    if n < 10 then [DigitChar(n)] else NatToStr(n / 10) + [DigitChar(n % 10)]
  }

  /** Python `str(i)` for an integer. */
  function IntToStr(i: int): (r: string)
    ensures i >= 0 ==> AllDigits(r)
    ensures i < 0 ==> |r| >= 2 && r[0] == '-' && AllDigits(r[1..])
  {
    if i < 0 then "-" + NatToStr(-i) else NatToStr(i)
  }

  /** Value of a string of digits. */
  function DigitsValue(s: string): nat
    requires forall i :: 0 <= i < |s| ==> IsDigit(s[i])
  {
    if s == [] then 0 else DigitsValue(s[..|s| - 1]) * 10 + DigitValue(s[|s| - 1])
  }

  /** Python `str(v)` of a dictionary value. */
  function ValueToStr(v: Value): string {
    match v
    case Str(s) => s
    case Int(i) => IntToStr(i)
  }

  /** Python `int(s)` for a string: surrounding whitespace is ignored, one
      optional sign, then at least one digit; anything else raises
      ValueError, modelled as None. */
  function ParseInt(s: string): (r: Option<int>)
    ensures AllDigits(Strip(s)) ==> r == Some(DigitsValue(Strip(s)))
    ensures var t := Strip(s); |t| >= 2 && t[0] == '-' && AllDigits(t[1..]) ==> r == Some(-(DigitsValue(t[1..]) as int))
    ensures var t := Strip(s); |t| >= 2 && t[0] == '+' && AllDigits(t[1..]) ==> r == Some(DigitsValue(t[1..]))
    ensures var t := Strip(s);
      r.Some? <==> AllDigits(t) || (|t| >= 2 && (t[0] == '-' || t[0] == '+') && AllDigits(t[1..]))
    ensures Strip(s) == "" ==> r == None
  {
    var t := Strip(s);
    if AllDigits(t) then Some(DigitsValue(t))
    else if |t| >= 2 && t[0] == '-' && AllDigits(t[1..]) then Some(-(DigitsValue(t[1..]) as int))
    else if |t| >= 2 && t[0] == '+' && AllDigits(t[1..]) then Some(DigitsValue(t[1..]))
    else None
  }

  /** The digits `str()` writes for `n` read back as `n`. */
  lemma {:induction false} DigitsValueOfNatToStr(n: nat)
    ensures DigitsValue(NatToStr(n)) == n
    decreases n
  {
    if n >= 10 {
      var s := NatToStr(n);
      assert s[..|s| - 1] == NatToStr(n / 10);
      DigitsValueOfNatToStr(n / 10);
    }
  }

  /** `int(str(i)) == i`: parsing reads back every integer Python writes. */
  lemma ParseIntOfIntToStr(i: int)
    ensures ParseInt(IntToStr(i)) == Some(i)
  {
    var s := IntToStr(i);
    assert IsDigit(s[|s| - 1]);
    StripLeftNoSpace(s);
    StripRightNoSpace(s);
    if i < 0 {
      assert s[1..] == NatToStr(-i);
      assert !AllDigits(s) by { assert !IsDigit(s[0]); }
      DigitsValueOfNatToStr(-i);
    } else {
      DigitsValueOfNatToStr(i);
    }
  }

  // ---------------------------------------------------------------------
  // A dictionary updated in place

  /** A Python dict passed by reference and updated key by key (`checkout`,
      `vals`, `new_values`). */
  class Dict {
    var entries: map<string, Value>

    constructor (m: map<string, Value>)
      ensures entries == m
    {
      entries := m;
    }
  }
}
