/** Small value types and string helpers shared by the modules of this model:
    an optional value, Python/JavaScript truthiness of optional strings,
    decimal rendering of integers, prefix truncation, ASCII lower-casing,
    substring search and lexicographic comparison of strings. */
module Common {

  datatype Option<T> = None | Some(value: T) {
    /** Python's `d.get(key, default)` on an optional field. */
    function GetOr(default: T): T {
      if Some? then value else default
    }
  }

  /** A request-body field that may be absent, present as `null`, or given. */
  datatype Field<T> = Missing | Null | Given(value: T) {
    /** `data.get(key, default)`, or the model's default when the key is
        absent: the default only then.  A `null` has no such value. */
    function Get(default: T): T
      requires !Null?
    {
      if Given? then value else default
    }

    /** The value an `Optional` model field with a default stores: the
        default when the key is absent, None for an explicit `null`. */
    function Stored(default: T): (r: Option<T>)
      ensures r.None? <==> Null?
      ensures Given? ==> r == Some(value)
      ensures Missing? ==> r == Some(default)
    {
      match this
      case Missing => Some(default)
      case Null => None
      case Given(v) => Some(v)
    }
  }

  /** A Python or JavaScript optional string used in a condition: it is
      "truthy" when present and non-empty. */
  predicate Truthy(s: Option<string>) {
    s.Some? && s.value != ""
  }

  function Min(a: int, b: int): int {
    if a <= b then a else b
  }

  function Max(a: int, b: int): int {
    if a <= b then b else a
  }

  predicate IsDigit(c: char) {
    '0' <= c <= '9'
  }

  predicate AllDigits(s: string) {
    forall i | 0 <= i < |s| :: IsDigit(s[i])
  }

  function DigitChar(d: nat): (c: char)
    requires d < 10
    ensures IsDigit(c)
  {
    "0123456789"[d]
  }

  /** Decimal rendering of a natural number, as Python's str() and
      JavaScript's String() render it. */
  function NatToString(n: nat): (s: string)
    ensures |s| >= 1 && AllDigits(s)
    decreases n
  {
    if n < 10 then [DigitChar(n)] else NatToString(n / 10) + [DigitChar(n % 10)]
  }

  function IntToString(i: int): string {
    if i < 0 then "-" + NatToString(-i) else NatToString(i)
  }

  /** Decimal rendering left-padded with zeros to at least `width` digits. */
  function PadNat(n: nat, width: nat): (s: string)
    ensures AllDigits(s)
    ensures |s| >= width
    decreases width
  {
    var digits := NatToString(n);
    if |digits| >= width then digits else "0" + PadNat(n, width - 1)
  }

  /** The number a string of decimal digits denotes (0 for the empty string). */
  function DigitsValue(s: string): nat
    requires AllDigits(s)
  {
    if s == [] then 0 else DigitsValue(s[..|s| - 1]) * 10 + (s[|s| - 1] as int - '0' as int)
  }

  lemma DigitCharValue(d: nat)
    requires d < 10
    ensures DigitChar(d) as int - '0' as int == d
  {
    if d == 0 {} else if d == 1 {} else if d == 2 {} else if d == 3 {} else if d == 4 {}
    else if d == 5 {} else if d == 6 {} else if d == 7 {} else if d == 8 {} else {}
  }

  /** Reading a rendered number back gives the number. */
  lemma {:induction false} NatToStringValue(n: nat)
    ensures DigitsValue(NatToString(n)) == n
    decreases n
  {
    var s := NatToString(n);
    if n < 10 {
      DigitCharValue(n);
      assert s[..0] == [];
    } else {
      DigitCharValue(n % 10);
      NatToStringValue(n / 10);
      assert s[..|s| - 1] == NatToString(n / 10);
    }
  }

  /** Numbers below 100 take at most two digits. */
  lemma NatToStringBelow100(n: nat)
    requires n < 100
    ensures |NatToString(n)| <= 2
  {
    if n >= 10 {
      assert NatToString(n) == NatToString(n / 10) + [DigitChar(n % 10)];
    }
  }

  /** A leading zero does not change the value. */
  lemma {:induction false} LeadingZeroValue(s: string)
    requires AllDigits(s)
    ensures AllDigits("0" + s) && DigitsValue("0" + s) == DigitsValue(s)
    decreases |s|
  {
    var z := "0" + s;
    if s != [] {
      assert z[..|z| - 1] == "0" + s[..|s| - 1];
      LeadingZeroValue(s[..|s| - 1]);
    }
  }

  /** Padding keeps the value and, for a number that fits, gives exactly
      `width` digits. */
  lemma {:induction false} PadNatValue(n: nat, width: nat)
    ensures DigitsValue(PadNat(n, width)) == n
    ensures |NatToString(n)| <= width ==> |PadNat(n, width)| == width
    decreases width
  {
    if |NatToString(n)| >= width {
      NatToStringValue(n);
    } else {
      PadNatValue(n, width - 1);
      LeadingZeroValue(PadNat(n, width - 1));
    }
  }

  /** `t` is an optional minus sign, whole units, a point and exactly two
      digits of hundredths, and denotes `c` hundredths. */
  predicate DecimalText(t: string, c: int) {
    var sign := if c < 0 then 1 else 0;
    && |t| >= sign + 4
    && (t[0] == '-' <==> c < 0)
    && t[|t| - 3] == '.'
    && AllDigits(t[sign..|t| - 3]) && AllDigits(t[|t| - 2..])
    && DigitsValue(t[sign..|t| - 3]) * 100 + DigitsValue(t[|t| - 2..]) == (if c < 0 then -c else c)
  }

  lemma DecimalLayout(c: int, whole: string, frac: string)
    requires |whole| >= 1 && AllDigits(whole) && |frac| == 2 && AllDigits(frac)
    requires DigitsValue(whole) * 100 + DigitsValue(frac) == (if c < 0 then -c else c)
    ensures DecimalText((if c < 0 then "-" else "") + whole + "." + frac, c)
  {
    var sgn := if c < 0 then "-" else "";
    var p := sgn + whole;
    var q := p + ".";
    var t := q + frac;
    assert t[..|q|] == q && t[|q|..] == frac;
    assert q[..|p|] == p && q[|p|] == '.';
    assert p[|sgn|..] == whole && p[0] == (if c < 0 then '-' else whole[0]);
    assert t[|sgn|..|t| - 3] == p[|sgn|..];
    assert IsDigit(whole[0]);
  }

  /** `x.toFixed(2)` of a number held as `c` hundredths. */
  function CentsText(c: int): string {
    var a: nat := if c < 0 then -c else c;
    (if c < 0 then "-" else "") + NatToString(a / 100) + "." + PadNat(a % 100, 2)
  }

  lemma CentsTextReadsBack(c: int)
    ensures DecimalText(CentsText(c), c)
  {
    var a: nat := if c < 0 then -c else c;
    var whole := NatToString(a / 100);
    var frac := PadNat(a % 100, 2);
    NatToStringValue(a / 100);
    NatToStringBelow100(a % 100);
    PadNatValue(a % 100, 2);
    assert DigitsValue(whole) * 100 + DigitsValue(frac) == a;
    DecimalLayout(c, whole, frac);
  }

  /** The first `n` elements of `s`: Python's s[:n] for n >= 0, a query's
      limit, and JavaScript's s.substring(0, n), which clamps a negative
      bound to 0. */
  function Take<T>(s: seq<T>, n: int): (r: seq<T>)
    ensures |r| == if n <= 0 then 0 else Min(n, |s|)
    ensures r <= s
  {
    if n <= 0 then [] else if n >= |s| then s else s[..n]
  }

  function LowerChar(c: char): char {
    if 'A' <= c <= 'Z' then (c as int - 'A' as int + 'a' as int) as char else c
  }

  /** ASCII lower-casing (letters A-Z only). */
  function Lower(s: string): (r: string)
    ensures |r| == |s|
    ensures forall i | 0 <= i < |s| :: r[i] == LowerChar(s[i])
  {
    if s == [] then [] else [LowerChar(s[0])] + Lower(s[1..])
  }

  predicate IsSpace(c: char) {
    c == ' ' || c == '\t' || c == '\n' || c == '\r'
  }

  /** True when trimming whitespace from `s` leaves the empty string. */
  predicate IsBlank(s: string) {
    forall i | 0 <= i < |s| :: IsSpace(s[i])
  }

  /** `needle` occurs in `hay` as a contiguous substring (Python `in`,
      JavaScript `includes`). */
  predicate Contains(hay: string, needle: string)
    decreases |hay|
  {
    needle <= hay || (hay != [] && Contains(hay[1..], needle))
  }

  /** Lexicographic order on strings, as Python and JavaScript compare
      strings (and as the document store compares string fields). */
  predicate StrLe(a: string, b: string)
    decreases |a|
  {
    if a == [] then true
    else if b == [] then false
    else if a[0] != b[0] then a[0] < b[0]
    else StrLe(a[1..], b[1..])
  }

  function CountChar(s: string, c: char): nat {
    if s == [] then 0 else (if s[0] == c then 1 else 0) + CountChar(s[1..], c)
  }

  /** A Python list comprehension with a condition, or JavaScript's
      `Array.filter`: the elements that satisfy `p`, in their order. */
  function Filter<T(==, !new)>(s: seq<T>, p: T -> bool): (r: seq<T>)
    ensures |r| <= |s|
    ensures forall x :: x in r <==> x in s && p(x)
    ensures Subseq(r, s)
  {
    if s == [] then []
    else
      var rest := Filter(s[1..], p);
      if p(s[0]) then assert ([s[0]] + rest)[1..] == rest; [s[0]] + rest else rest
  }

  /** Filtering a sequence with one more element at the end. */
  lemma {:induction false} FilterSnoc<T(!new)>(s: seq<T>, x: T, p: T -> bool)
    ensures Filter(s + [x], p) == Filter(s, p) + (if p(x) then [x] else [])
  {
    if s == [] {
      assert [] + [x] == [x];
    } else {
      assert (s + [x])[1..] == s[1..] + [x];
      FilterSnoc(s[1..], x, p);
    }
  }

  /** `r` is `s` with some elements left out, the rest in their order. */
  lemma {:induction false} EmptySubseq<T>(s: seq<T>)
    ensures Subseq([], s)
    decreases |s|
  {
    if s != [] {
      EmptySubseq(s[1..]);
    }
  }

  /** A prefix of a subsequence is a subsequence. */
  lemma {:induction false} SubseqPrefix<T>(r: seq<T>, f: seq<T>, s: seq<T>)
    requires Subseq(f, s) && r <= f
    ensures Subseq(r, s)
    decreases |s|
  {
    if r == [] {
      EmptySubseq(s);
    } else if s != [] {
      if f != [] && f[0] == s[0] && Subseq(f[1..], s[1..]) {
        assert r[1..] <= f[1..];
        SubseqPrefix(r[1..], f[1..], s[1..]);
      } else {
        SubseqPrefix(r, f, s[1..]);
      }
    }
  }

  predicate Subseq<T(==)>(r: seq<T>, s: seq<T>)
    decreases |s|
  {
    if s == [] then r == []
    else (r != [] && r[0] == s[0] && Subseq(r[1..], s[1..])) || Subseq(r, s[1..])
  }
}
