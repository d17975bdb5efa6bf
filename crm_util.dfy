/** crm/util.go: lenient base-10 parsing that discards errors, and string membership. */
module CrmUtil {
  import opened Ints

  /** The error kinds `strconv` reports. */
  datatype NumError = NoError | ErrSyntax | ErrRange

  /** The number of decimal digits `s` starts with. */
  function DigitRun(s: string): (k: nat)
    ensures k <= |s| && AllDigits(s[..k])
    ensures k < |s| ==> !IsDigit(s[k])
  {
    if s == [] || !IsDigit(s[0]) then 0
    else
      var k := 1 + DigitRun(s[1..]);
      assert forall i :: 0 < i < k ==> s[..k][i] == s[1..][..k - 1][i - 1];
      k
  }

  /** The value of the digits `s` starts with. */
  function LeadingValue(s: string): nat {
    DecimalValue(s[..DigitRun(s)])
  }

  /** A string whose first `i` characters are digits starts with at least `i` digits. */
  lemma {:induction false} DigitRunCovers(s: string, i: nat)
    requires i <= |s| && AllDigits(s[..i])
    ensures i <= DigitRun(s)
  {
    if i > 0 {
      assert s[..i][0] == s[0];
      assert s[1..][..i - 1] == s[..i][1..];
      DigitRunCovers(s[1..], i - 1);
    }
  }

  /** The leading digits end at the first non-digit. */
  lemma DigitRunStops(s: string, i: nat)
    requires i < |s| && AllDigits(s[..i]) && !IsDigit(s[i])
    ensures DigitRun(s) == i
  {
    DigitRunCovers(s, i);
  }

  /** A prefix of a digit string never denotes more than the whole string. */
  lemma {:induction false} DecimalPrefixAtMost(q: string, j: nat)
    requires AllDigits(q) && j <= |q|
    ensures AllDigits(q[..j]) && DecimalValue(q[..j]) <= DecimalValue(q)
    decreases |q|
  {
    if j < |q| {
      var q' := q[..|q| - 1];
      assert q[..j] == q'[..j];
      DecimalPrefixAtMost(q', j);
    } else {
      assert q[..j] == q;
    }
  }

  /** The digit loop of `strconv.ParseUint(s, 10, 64)`, from position `i` with `n` the value of
      the digits read so far: a non-digit is a syntax error, and the first digit that takes the
      value past the largest `uint64` is a range error returning that bound (Go's `n >= cutoff`
      and `n1 > maxVal` tests together say exactly `n * 10 + d > maxVal`). */
  function ScanDigits(s: string, i: nat, n: uint64): (uint64, NumError)
    requires i <= |s| && AllDigits(s[..i]) && n == DecimalValue(s[..i])
    decreases |s| - i
  {
    if i == |s| then (n, NoError)
    else if !IsDigit(s[i]) then (0, ErrSyntax)
    else
      var n1 := n * 10 + DigitValue(s[i]);
      if n1 > MAX_UINT64 then (MAX_UINT64, ErrRange)
      else
        assert s[..i + 1] == s[..i] + [s[i]];
        DecimalValueSnoc(s[..i], s[i]);
        ScanDigits(s, i + 1, n1)
  }

  /** The digits read so far are part of the leading digits, and denote no more than they do. */
  lemma LeadingValueAtLeast(s: string, j: nat)
    requires j <= |s| && AllDigits(s[..j])
    ensures j <= DigitRun(s) && DecimalValue(s[..j]) <= LeadingValue(s)
  {
    DigitRunCovers(s, j);
    var k := DigitRun(s);
    assert s[..k][..j] == s[..j];
    DecimalPrefixAtMost(s[..k], j);
  }

  /** What the digit loop computes: a range error as soon as the leading digits exceed the
      `uint64` range, whatever follows them; otherwise their value when they are the whole
      string, and a syntax error when something else follows. */
  lemma {:induction false} ScanDigitsMeaning(s: string, i: nat, n: uint64)
    requires i <= |s| && AllDigits(s[..i]) && n == DecimalValue(s[..i])
    ensures LeadingValue(s) > MAX_UINT64 ==> ScanDigits(s, i, n) == (MAX_UINT64, ErrRange)
    ensures LeadingValue(s) <= MAX_UINT64 && DigitRun(s) == |s| ==> ScanDigits(s, i, n) == (DecimalValue(s), NoError)
    ensures LeadingValue(s) <= MAX_UINT64 && DigitRun(s) < |s| ==> ScanDigits(s, i, n) == (0, ErrSyntax)
    decreases |s| - i
  {
    DigitRunCovers(s, i);
    if i == |s| {
      assert s[..i] == s;
    } else if !IsDigit(s[i]) {
      DigitRunStops(s, i);
    } else {
      var n1 := n * 10 + DigitValue(s[i]);
      assert s[..i + 1] == s[..i] + [s[i]];
      DecimalValueSnoc(s[..i], s[i]);
      if n1 > MAX_UINT64 {
        LeadingValueAtLeast(s, i + 1);
      } else {
        ScanDigitsMeaning(s, i + 1, n1);
      }
    }
  }

  /** `strconv.ParseUint(s, 10, 64)`: the value of a non-empty digit string; the largest
      `uint64` with a range error once the leading digits exceed it, before any later character
      is looked at; otherwise 0 with a syntax error. */
  function ParseUint(s: string): (r: (uint64, NumError))
    ensures LeadingValue(s) > MAX_UINT64 ==> r == (MAX_UINT64, ErrRange)
    ensures s != "" && LeadingValue(s) <= MAX_UINT64 && DigitRun(s) == |s| ==> r == (DecimalValue(s), NoError)
    ensures LeadingValue(s) <= MAX_UINT64 && (s == "" || DigitRun(s) < |s|) ==> r == (0, ErrSyntax)
  {
    if s == "" then (0, ErrSyntax)
    else
      assert s[..0] == [];
      ScanDigitsMeaning(s, 0, 0);
      ScanDigits(s, 0, 0)
  }

  /** `strconv.ParseInt(s, 10, 64)`'s value: an optional sign, then `ParseUint` of the rest; a
      syntax error gives 0, and values out of the `int64` range (including the clamped result of
      a range error) are clamped to the nearest `int64` bound. */
  function ParseIntValue(s: string): (v: int64)
    requires s != ""
  {
    var neg := s[0] == '-';
    var digits := if s[0] == '+' || s[0] == '-' then s[1..] else s;
    var (un, err) := ParseUint(digits);
    if err == ErrSyntax then 0
    else if !neg && un > MAX_INT64 then MAX_INT64
    else if neg && un > -MIN_INT64 then MIN_INT64
    else if neg then -(un as int)
    else un
  }

  /** `parseInt64`: 0 for the empty string, otherwise whatever `ParseInt` yields, its error dropped. */
  function ParseInt64(s: string): (v: int64)
    ensures s == "" ==> v == 0
  {
    if s == "" then 0 else ParseIntValue(s)
  }

  /** `parseUInt64`: 0 for the empty string, otherwise whatever `ParseUint` yields, its error
      dropped: the number, the clamped bound, or 0 on a syntax error. */
  function ParseUInt64(s: string): (v: uint64)
    ensures LeadingValue(s) > MAX_UINT64 ==> v == MAX_UINT64
    ensures LeadingValue(s) <= MAX_UINT64 && DigitRun(s) == |s| ==> v == DecimalValue(s)
    ensures LeadingValue(s) <= MAX_UINT64 && DigitRun(s) < |s| ==> v == 0
  {
    if s == "" then 0 else ParseUint(s).0
  }

  /** Every `uint64`, printed in base 10, parses back to itself. */
  lemma ParseUInt64RoundTrip(n: uint64)
    ensures ParseUInt64(DecimalString(n)) == n
  {
    DecimalRoundTrip(n);
    var d := DecimalString(n);
    assert d[..|d|] == d;
  }

  /** Every `int64`, printed in base 10 (with a `-` when negative), parses back to itself. */
  lemma ParseInt64RoundTrip(n: int64)
    ensures ParseInt64(if n < 0 then "-" + DecimalString(-(n as int)) else DecimalString(n)) == n
  {
    if n < 0 {
      NegativeRoundTrip(n);
    } else {
      DecimalRoundTrip(n);
      DigitStringParses(DecimalString(n));
    }
  }

  /** A digit string within the `uint64` range parses without error. */
  lemma DigitStringParses(d: string)
    requires d != "" && AllDigits(d) && DecimalValue(d) <= MAX_UINT64
    ensures DigitRun(d) == |d| && ParseUint(d) == (DecimalValue(d), NoError)
  {
    assert d[..|d|] == d;
  }

  lemma NegativeRoundTrip(n: int64)
    requires n < 0
    ensures ParseInt64("-" + DecimalString(-(n as int))) == n
  {
    var d := DecimalString(-(n as int));
    var s := "-" + d;
    assert s[0] == '-' && s[1..] == d;
    DecimalRoundTrip(-(n as int));
    DigitStringParses(d);
  }

  /** A string that is neither empty nor signed, whose leading digits stay within the `uint64`
      range but are followed by something else, parses as 0. */
  lemma ParseErrorsGiveZero(s: string)
    requires s != "" && s[0] != '+' && s[0] != '-' && DigitRun(s) < |s| && LeadingValue(s) <= MAX_UINT64
    ensures ParseInt64(s) == 0 && ParseUInt64(s) == 0
  {
  }

  /** A value beyond the `int64` range is clamped, as `strconv` reports a range error together
      with the nearest bound: for a whole digit string, or for leading digits that already
      exceed the `uint64` range whatever follows them. */
  lemma ParseInt64Clamps(s: string)
    requires s != "" && DigitRun(s) > 0
    requires (DigitRun(s) == |s| && LeadingValue(s) > MAX_INT64) || LeadingValue(s) > MAX_UINT64
    ensures ParseInt64(s) == MAX_INT64 && ParseInt64("-" + s) == MIN_INT64
  {
    var t := "-" + s;
    assert t[1..] == s;
    assert s[0] != '+' && s[0] != '-' by { assert s[..DigitRun(s)][0] == s[0]; }
    if DigitRun(s) == |s| { assert s[..|s|] == s; }
  }

  /** Digits beyond the `uint64` range followed by anything at all (`"99999999999999999999x"`)
      give the clamped bounds rather than the 0 of a syntax error. */
  lemma OverflowBeforeSyntaxError(d: string, rest: string)
    requires d != "" && AllDigits(d) && DecimalValue(d) > MAX_UINT64
    ensures ParseUInt64(d + rest) == MAX_UINT64
    ensures ParseInt64(d + rest) == MAX_INT64 && ParseInt64("-" + d + rest) == MIN_INT64
  {
    var s := d + rest;
    assert s[..|d|] == d;
    LeadingValueAtLeast(s, |d|);
    assert "-" + d + rest == "-" + s;
    ParseInt64Clamps(s);
  }

  /** A syntax error after the leading digits gives 0 even when they exceed the `int64` range,
      as long as they stay within the `uint64` range. */
  lemma SyntaxErrorBeatsInt64Range(s: string)
    requires s != "" && 0 < DigitRun(s) < |s| && MAX_INT64 < LeadingValue(s) <= MAX_UINT64
    ensures ParseInt64(s) == 0 && ParseInt64("-" + s) == 0
  {
    var t := "-" + s;
    assert t[1..] == s;
    assert s[0] != '+' && s[0] != '-' by { assert s[..DigitRun(s)][0] == s[0]; }
  }

  /** `is(s, matches...)`: true iff `s` equals one of `matches`. */
  method Is(s: string, matches: seq<string>) returns (found: bool)
    ensures found <==> s in matches
  {
    for i := 0 to |matches|
      invariant s !in matches[..i]
    {
      if s == matches[i] {
        return true;
      }
    }
    return false;
  }
}
