/** The Python built-ins the device client relies on, as exact functions:
    `str.strip()`, `str.startswith`, `str(int)`, `int(str)`, the zero-padded
    format `f"{i:04d}"`, and the ASCII codec of `str.encode`/`bytes.decode`. */
module PyText {
  import opened Wrappers

  type byte = b: int | 0 <= b < 256

  // ---------------------------------------------------------------------
  // Whitespace and str.strip()
  // ---------------------------------------------------------------------

  /** Python's `str.isspace()` for one character. */
  predicate IsSpace(c: char)
  {
    var n := c as int;
    (9 <= n <= 13) || (28 <= n <= 32) || n == 0x85 || n == 0xA0 || n == 0x1680
    || (0x2000 <= n <= 0x200A) || n == 0x2028 || n == 0x2029 || n == 0x202F
    || n == 0x205F || n == 0x3000
  }

  predicate AllSpace(s: string)
  {
    forall i :: 0 <= i < |s| ==> IsSpace(s[i])
  }

  /** True when `s` neither starts nor ends with whitespace. */
  predicate Trimmed(s: string)
  {
    s == [] || (!IsSpace(s[0]) && !IsSpace(s[|s| - 1]))
  }

  /** The first index at or after `i` whose character is not whitespace, or
      `|s|` when there is none: where `s.lstrip()` starts. */
  function SkipSpace(s: string, i: nat): (n: nat)
    requires i <= |s|
    ensures i <= n <= |s|
    ensures forall j :: i <= j < n ==> IsSpace(s[j])
    ensures n == |s| || !IsSpace(s[n])
    decreases |s| - i
  {
    if i < |s| && IsSpace(s[i]) then SkipSpace(s, i + 1) else i
  }

  /** The index just past the last character before `j` that is not
      whitespace, or `0` when there is none: where `s.rstrip()` ends. */
  function SkipSpaceBack(s: string, j: nat): (n: nat)
    requires j <= |s|
    ensures n <= j
    ensures forall k :: n <= k < j ==> IsSpace(s[k])
    ensures n == 0 || !IsSpace(s[n - 1])
  {
    if j > 0 && IsSpace(s[j - 1]) then SkipSpaceBack(s, j - 1) else j
  }

  /** `s.strip()`: `s` with its leading and trailing whitespace removed. What
      remains is one contiguous slice of `s`, and everything before and
      after it is whitespace. */
  function Strip(s: string): (r: string)
    ensures Trimmed(r)
    ensures var a := SkipSpace(s, 0);
      && a + |r| <= |s| && r == s[a..a + |r|]
      && (forall i :: 0 <= i < a ==> IsSpace(s[i]))
      && (forall i :: a + |r| <= i < |s| ==> IsSpace(s[i]))
  {
    var a := SkipSpace(s, 0);
    if a == |s| then [] else s[a..SkipSpaceBack(s, |s|)]
  }

  /** Stripping undoes any whitespace padding around a trimmed text, so a
      line read as `text + "\r\n"` strips back to `text`. */
  lemma StripSurrounded(lead: string, s: string, trail: string)
    requires AllSpace(lead) && AllSpace(trail) && Trimmed(s)
    ensures Strip(lead + s + trail) == s
  {
    var x := lead + s + trail;
    var m := |lead| + |s|;
    assert forall i :: 0 <= i < |lead| ==> x[i] == lead[i];
    assert forall i :: m <= i < |x| ==> x[i] == trail[i - m];
    if s == [] {
      assert SkipSpace(x, 0) == |x|;
    } else {
      assert x[|lead|] == s[0] && x[m - 1] == s[|s| - 1];
      assert SkipSpace(x, 0) == |lead|;
      assert SkipSpaceBack(x, |x|) == m;
      assert x[|lead|..m] == s;
    }
  }

  /** `strip()` is idempotent. */
  lemma StripIdempotent(s: string)
    ensures Strip(Strip(s)) == Strip(s)
  {
    var t := Strip(s);
    assert [] + t + [] == t;
    StripSurrounded([], t, []);
  }

  // ---------------------------------------------------------------------
  // str(int), int(str) and f"{i:04d}"
  // ---------------------------------------------------------------------

  predicate IsDigit(c: char)
  {
    '0' <= c <= '9'
  }

  function DigitChar(d: nat): (c: char)
    requires d < 10
    ensures IsDigit(c)
  {
    ('0' as int + d) as char
  }

  function DigitValue(c: char): (d: nat)
    requires IsDigit(c)
    ensures d < 10
  {
    c as int - '0' as int
  }

  predicate DigitsOrUnderscores(s: string)
  {
    forall i :: 0 <= i < |s| ==> IsDigit(s[i]) || s[i] == '_'
  }

  /** The digit part accepted by Python's `int()`: `digit (["_"] digit)*`. */
  predicate IsDigitGroup(s: string)
  {
    && DigitsOrUnderscores(s)
    && |s| > 0 && IsDigit(s[0]) && IsDigit(s[|s| - 1])
    && forall i :: 0 <= i < |s| ==>
         IsDigit(s[i]) || (s[i] == '_' && 0 < i < |s| - 1 && IsDigit(s[i + 1]))
  }

  /** The decimal value of a digit string, underscores ignored. */
  function DigitsValue(s: string): nat
    requires DigitsOrUnderscores(s)
  {
    if s == [] then 0
    else if s[|s| - 1] == '_' then DigitsValue(s[..|s| - 1])
    else DigitsValue(s[..|s| - 1]) * 10 + DigitValue(s[|s| - 1])
  }

  /** The decimal digits of `n`, most significant first, without leading zeros. */
  function NatToDigits(n: nat): (s: string)
    ensures |s| > 0 && forall i :: 0 <= i < |s| ==> IsDigit(s[i])
    ensures |s| > 1 ==> s[0] != '0'
  {
    if n < 10 then [DigitChar(n)] else NatToDigits(n / 10) + [DigitChar(n % 10)]
  }

  /** `str(n)` for a Python int: an optional minus sign, then digits. */
  function IntToString(n: int): (s: string)
    ensures |s| > 0 && IsDigit(s[|s| - 1])
    ensures forall i :: 0 <= i < |s| ==> IsDigit(s[i]) || (i == 0 && s[i] == '-')
  {
    if n < 0 then "-" + NatToDigits(-n) else NatToDigits(n)
  }

  /** `int(s)` for a base-10 string: surrounding whitespace is ignored, one
      optional sign, then a digit group; `None` stands for ValueError. */
  function ParseInt(s: string): (r: Option<int>)
    ensures r.Some? ==>
      var t := Strip(s);
      || IsDigitGroup(t)
      || (|t| > 0 && (t[0] == '+' || t[0] == '-') && IsDigitGroup(t[1..]))
    ensures r.Some? && r.value < 0 ==> Strip(s)[0] == '-'
  {
    var t := Strip(s);
    if |t| > 0 && (t[0] == '+' || t[0] == '-') then
      if IsDigitGroup(t[1..]) then
        var v: int := DigitsValue(t[1..]);
        Some(if t[0] == '-' then -v else v)
      else None
    else if IsDigitGroup(t) then Some(DigitsValue(t))
    else None
  }

  function Zeros(k: nat): (s: string)
    ensures |s| == k && forall i :: 0 <= i < k ==> s[i] == '0'
  {
    seq(k, _ => '0')
  }

  /** `f"{i:04d}"` for a non-negative `i`: at least four digits, zero-padded. */
  function Pad4(i: nat): (s: string)
    ensures |s| >= 4 && forall j :: 0 <= j < |s| ==> IsDigit(s[j])
  {
    var d := NatToDigits(i);
    var z := if |d| < 4 then Zeros(4 - |d|) else [];
    assert forall j :: 0 <= j < |z + d| ==> (z + d)[j] == if j < |z| then z[j] else d[j - |z|];
    z + d
  }

  lemma {:induction false} NatToDigitsValue(n: nat)
    ensures IsDigitGroup(NatToDigits(n))
    ensures DigitsValue(NatToDigits(n)) == n
  {
    var s := NatToDigits(n);
    if n >= 10 {
      var p := NatToDigits(n / 10);
      NatToDigitsValue(n / 10);
      assert s == p + [DigitChar(n % 10)];
      assert s[..|s| - 1] == p;
    }
  }

  lemma {:induction false} LeadingZerosValue(k: nat, s: string)
    requires DigitsOrUnderscores(s)
    ensures DigitsOrUnderscores(Zeros(k) + s)
    ensures DigitsValue(Zeros(k) + s) == DigitsValue(s)
    decreases |s|, k
  {
    var z := Zeros(k);
    if s == [] {
      assert z + s == z;
      if k > 0 {
        assert z[..k - 1] == Zeros(k - 1);
        LeadingZerosValue(k - 1, []);
        assert Zeros(k - 1) + [] == Zeros(k - 1);
      }
    } else {
      var init := s[..|s| - 1];
      LeadingZerosValue(k, init);
      assert (z + s)[..|z + s| - 1] == z + init;
    }
  }

  lemma LeadingZerosGroup(k: nat, s: string)
    requires IsDigitGroup(s)
    ensures IsDigitGroup(Zeros(k) + s)
  {
    var t := Zeros(k) + s;
    forall i | 0 <= i < |t|
      ensures IsDigit(t[i]) || (t[i] == '_' && 0 < i < |t| - 1 && IsDigit(t[i + 1]))
    {
      if i < k {
        assert t[i] == Zeros(k)[i];
      } else {
        var j := i - k;
        assert t[i] == s[j];
        if !IsDigit(s[j]) {
          assert 0 < j < |s| - 1 && IsDigit(s[j + 1]);
          assert t[i + 1] == s[j + 1];
        }
      }
    }
    assert t[0] == if k > 0 then '0' else s[0];
    assert t[|t| - 1] == s[|s| - 1];
  }

  /** A text without surrounding whitespace is its own `strip()`. */
  lemma StripTrimmed(s: string)
    requires Trimmed(s)
    ensures Strip(s) == s
  {
    assert [] + s + [] == s;
    StripSurrounded([], s, []);
  }

  /** Round trip: `int(str(n)) == n` for every integer. */
  lemma ParseIntRoundTrip(n: int)
    ensures ParseInt(IntToString(n)) == Some(n)
  {
    var m: nat := if n < 0 then -n else n;
    NatToDigitsValue(m);
    if n < 0 {
      ParseNegatedGroup(NatToDigits(m));
    } else {
      ParseDigitGroup(NatToDigits(m));
    }
  }

  /** `int()` reads a minus sign followed by a digit group as its negation. */
  lemma ParseNegatedGroup(t: string)
    requires IsDigitGroup(t)
    ensures ParseInt("-" + t) == Some(-(DigitsValue(t) as int))
  {
    var s := "-" + t;
    assert Trimmed(s) by {
      assert s[|s| - 1] == t[|t| - 1];
    }
    StripTrimmed(s);
    assert s[0] == '-' && s[1..] == t;
  }

  /** `int()` accepts a bare digit group and returns its value. */
  lemma ParseDigitGroup(t: string)
    requires IsDigitGroup(t)
    ensures ParseInt(t) == Some(DigitsValue(t))
  {
    assert !IsSpace(t[0]) && !IsSpace(t[|t| - 1]);
    StripTrimmed(t);
  }

  /** Round trip: `int(f"{i:04d}") == i`, leading zeros included. */
  lemma Pad4RoundTrip(i: nat)
    ensures |Pad4(i)| >= 4 && IsDigitGroup(Pad4(i))
    ensures ParseInt(Pad4(i)) == Some(i)
  {
    var d := NatToDigits(i);
    var z: nat := if |d| < 4 then 4 - |d| else 0;
    assert Pad4(i) == Zeros(z) + d;
    NatToDigitsValue(i);
    LeadingZerosValue(z, d);
    LeadingZerosGroup(z, d);
    ParseDigitGroup(Pad4(i));
  }

  lemma Pad4Injective(i: nat, j: nat)
    requires Pad4(i) == Pad4(j)
    ensures i == j
  {
    Pad4RoundTrip(i);
    Pad4RoundTrip(j);
  }

  // ---------------------------------------------------------------------
  // The ASCII codec
  // ---------------------------------------------------------------------

  predicate IsAscii(s: string)
  {
    forall i :: 0 <= i < |s| ==> s[i] as int < 128
  }

  predicate AsciiBytes(b: seq<byte>)
  {
    forall i :: 0 <= i < |b| ==> b[i] < 128
  }

  /** `s.encode("ascii")`; `None` stands for UnicodeEncodeError. */
  function Encode(s: string): (r: Option<seq<byte>>)
    ensures r.Some? <==> IsAscii(s)
    ensures r.Some? ==> |r.value| == |s| && AsciiBytes(r.value)
    ensures r.Some? ==> forall i :: 0 <= i < |s| ==> r.value[i] == s[i] as int
  {
    if IsAscii(s) then Some(seq(|s|, i requires 0 <= i < |s| => s[i] as int)) else None
  }

  /** `b.decode("ascii")`; `None` stands for UnicodeDecodeError. */
  function Decode(b: seq<byte>): (r: Option<string>)
    ensures r.Some? <==> AsciiBytes(b)
    ensures r.Some? ==> |r.value| == |b| && IsAscii(r.value)
    ensures r.Some? ==> forall i :: 0 <= i < |b| ==> r.value[i] == b[i] as char
  {
    if AsciiBytes(b) then Some(seq(|b|, i requires 0 <= i < |b| => b[i] as char)) else None
  }

  /** Decoding what was encoded gives the text back. */
  lemma DecodeEncode(s: string)
    requires IsAscii(s)
    ensures Decode(Encode(s).value) == Some(s)
  {
    var b := Encode(s).value;
    var t := Decode(b).value;
    assert forall i :: 0 <= i < |s| ==> t[i] == s[i];
    assert t == s;
  }

  /** Encoding what was decoded gives the bytes back. */
  lemma EncodeDecode(b: seq<byte>)
    requires AsciiBytes(b)
    ensures Encode(Decode(b).value) == Some(b)
  {
    var t := Decode(b).value;
    var c := Encode(t).value;
    assert forall i :: 0 <= i < |b| ==> c[i] == b[i];
    assert c == b;
  }

  /** The codec works character by character, so it distributes over `+`. */
  lemma EncodeAppend(s: string, t: string)
    requires IsAscii(s) && IsAscii(t)
    ensures IsAscii(s + t)
    ensures Encode(s + t).value == Encode(s).value + Encode(t).value
  {
    assert forall i :: 0 <= i < |s + t| ==> (s + t)[i] == if i < |s| then s[i] else t[i - |s|];
  }
}
