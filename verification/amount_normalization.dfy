/** The clean-up the eSpace-to-Core transfer form applies to an amount:
    `val.replace(/(?:\.0*|(\.\d+?)0+)$/, '$1')`. The regular expression is
    modelled as JavaScript runs it: positions are tried from the left, at
    each position the first alternative (`\.0*` up to the end) before the
    second (`\.` and a lazily growing group of digits, then one or more
    zeros up to the end), and only the first match is replaced. */
module AmountNormalization {
  import opened Common

  predicate IsDigit(c: char) {
    '0' <= c <= '9'
  }

  predicate AllDigits(s: string) {
    forall i :: 0 <= i < |s| ==> IsDigit(s[i])
  }

  predicate AllZeros(s: string) {
    forall i :: 0 <= i < |s| ==> s[i] == '0'
  }

  /** First alternative `\.0*$` at position `i`. */
  predicate PointZerosAt(s: string, i: nat) {
    i < |s| && s[i] == '.' && AllZeros(s[i + 1..])
  }

  /** Second alternative, after `\.` and one digit: the lazy group `\d+?`
      tries the ends `j`, `j+1`, ... and stops at the first end after which
      one or more zeros reach the end of the string. */
  function LazyGroupEnd(s: string, j: nat): (e: Option<nat>)
    decreases |s| - j
    ensures e.Some? ==> j <= e.value < |s| && AllZeros(s[e.value..])
    ensures e.Some? ==> forall x :: j <= x < e.value ==> IsDigit(s[x])
    ensures e.Some? ==> e.value == j || s[e.value - 1] != '0'
  {
    if j >= |s| then None
    else if AllZeros(s[j..]) then Some(j)
    else if IsDigit(s[j]) then
      ZerosFrom(s, j);
      LazyGroupEnd(s, j + 1)
    else None
  }

  lemma ZerosFrom(s: string, j: nat)
    requires j < |s|
    ensures AllZeros(s[j + 1..]) && !AllZeros(s[j..]) ==> s[j] != '0'
  {
    if s[j] == '0' && AllZeros(s[j + 1..]) {
      forall x | 0 <= x < |s[j..]| ensures s[j..][x] == '0' {
        if x > 0 { assert s[j..][x] == s[j + 1..][x - 1]; }
      }
    }
  }

  /** Second alternative `(\.\d+?)0+$` at position `i`: the end of the
      captured group. */
  function GroupMatchAt(s: string, i: nat): Option<nat> {
    if i + 1 < |s| && s[i] == '.' && IsDigit(s[i + 1]) then LazyGroupEnd(s, i + 2) else None
  }

  predicate MatchesAt(s: string, i: nat) {
    PointZerosAt(s, i) || GroupMatchAt(s, i).Some?
  }

  /** The leftmost position at or after `k` where the expression matches. */
  function FirstMatch(s: string, k: nat): (m: Option<nat>)
    decreases |s| - k
    ensures m.Some? ==> k <= m.value < |s| && MatchesAt(s, m.value)
    ensures m.Some? ==> forall x :: k <= x < m.value ==> !MatchesAt(s, x)
    ensures m.None? ==> forall x :: k <= x < |s| ==> !MatchesAt(s, x)
  {
    if k >= |s| then None
    else if MatchesAt(s, k) then Some(k)
    else FirstMatch(s, k + 1)
  }

  /** The string with the match at `i` replaced by `$1`: the first
      alternative captures nothing, the second captures `.` and its group. */
  function Replace(s: string, i: nat): string
    requires MatchesAt(s, i)
  {
    if PointZerosAt(s, i) then s[..i] else s[..GroupMatchAt(s, i).value]
  }

  /** The normalised amount: always a prefix of the input. */
  function Normalize(s: string): (r: string)
    ensures |r| <= |s| && r == s[..|r|]
  {
    match FirstMatch(s, 0)
    case None => s
    case Some(i) => Replace(s, i)
  }

  // ---- the reference definition: trailing zeros of the fraction ----

  /** `t` without its trailing zeros. */
  function TrimZeros(t: string): (r: string)
    decreases |t|
    ensures |r| <= |t| && r == t[..|r|] && AllZeros(t[|r|..])
    ensures r == [] || r[|r| - 1] != '0'
  {
    if t == [] then t
    else if t[|t| - 1] == '0' then
      var r := TrimZeros(t[..|t| - 1]);
      assert t[|r|..] == t[..|t| - 1][|r|..] + ['0'];
      r
    else t
  }

  lemma TrimNoZero(t: string)
    requires t != [] && t[|t| - 1] != '0'
    ensures TrimZeros(t) == t
  {
  }

  lemma TrimAllZeros(t: string)
    ensures TrimZeros(t) == [] <==> AllZeros(t)
  {
    var r := TrimZeros(t);
    if r != [] {
      assert r[|r| - 1] == t[|r| - 1];
    } else {
      assert t[|r|..] == t;
    }
  }

  /** The lazy group stops at `m` when no end before `m` is followed by
      zeros only and the text from `m` on is zeros. */
  lemma {:induction false} LazyGroupEndIs(s: string, j: nat, m: nat)
    requires j <= m <= |s|
    requires forall x :: j <= x < m ==> IsDigit(s[x]) && !AllZeros(s[x..])
    requires AllZeros(s[m..])
    ensures LazyGroupEnd(s, j) == if m < |s| then Some(m) else None
    decreases m - j
  {
    if j < m {
      LazyGroupEndIs(s, j + 1, m);
    }
  }

  /** No position of the integer part can match. */
  lemma WholeNoMatch(whole: string, frac: string)
    requires '.' !in whole
    ensures forall x :: 0 <= x < |whole| ==> !MatchesAt(whole + "." + frac, x)
  {
    var s := whole + "." + frac;
    forall x | 0 <= x < |whole| ensures !MatchesAt(s, x) {
      assert s[x] == whole[x];
    }
  }

  /** A decimal numeral `whole.frac` loses the trailing zeros of its
      fraction, and its point too when only zeros follow it. */
  lemma {:induction false} NormalizeDecimal(whole: string, frac: string)
    requires '.' !in whole && AllDigits(frac)
    ensures Normalize(whole + "." + frac) ==
      if AllZeros(frac) then whole else whole + "." + TrimZeros(frac)
  {
    var s := whole + "." + frac;
    var i := |whole|;
    WholeNoMatch(whole, frac);
    TrimAllZeros(frac);
    if AllZeros(frac) {
      assert s[i + 1..] == frac;
      assert PointZerosAt(s, i);
      FirstMatchIs(s, i);
      assert s[..i] == whole;
    } else if |TrimZeros(frac)| < |frac| {
      NormalizeTrailingZeros(whole, frac);
    } else {
      NormalizeNoTrailingZero(whole, frac);
    }
  }

  /** The second alternative at a point followed by digits that end, at
      `m - 1`, in a nonzero digit and then only zeros. */
  lemma GroupEnd(s: string, i: nat, m: nat)
    requires i + 2 <= m <= |s| && s[i] == '.'
    requires forall x :: i + 1 <= x < m ==> IsDigit(s[x])
    requires s[m - 1] != '0' && AllZeros(s[m..])
    ensures GroupMatchAt(s, i) == if m < |s| then Some(m) else None
  {
    forall x | i + 2 <= x < m ensures IsDigit(s[x]) && !AllZeros(s[x..]) {
      NonZeroAhead(s, x, m - 1);
    }
    LazyGroupEndIs(s, i + 2, m);
  }

  /** A nonzero character at `k` keeps every suffix starting at or before
      `k` from being all zeros. */
  lemma NonZeroAhead(s: string, x: nat, k: nat)
    requires x <= k < |s| && s[k] != '0'
    ensures !AllZeros(s[x..])
  {
    assert s[x..][k - x] == s[k];
  }

  /** Where the lazy group ends after the point at `i` when the digits
      `frac` that follow it are not all zeros. */
  lemma GroupEndAfterPoint(s: string, i: nat, frac: string)
    requires i < |s| && s[i] == '.' && s[i + 1..] == frac
    requires AllDigits(frac) && !AllZeros(frac)
    ensures var m := i + 1 + |TrimZeros(frac)|;
      GroupMatchAt(s, i) == if m < |s| then Some(m) else None
  {
    var t := TrimZeros(frac);
    TrimAllZeros(frac);
    var m := i + 1 + |t|;
    assert s[m - 1] == frac[|t| - 1] == t[|t| - 1];
    forall x | i + 1 <= x < m ensures IsDigit(s[x]) {
      assert s[x] == frac[x - i - 1];
    }
    assert s[m..] == frac[|t|..];
    GroupEnd(s, i, m);
  }

  /** The first alternative needs only zeros after the point. */
  lemma NotPointZerosOfDecimal(whole: string, frac: string)
    requires !AllZeros(frac)
    ensures !PointZerosAt(whole + "." + frac, |whole|)
  {
    assert (whole + "." + frac)[|whole| + 1..] == frac;
  }

  lemma NormalizeTrailingZeros(whole: string, frac: string)
    requires '.' !in whole && AllDigits(frac) && !AllZeros(frac)
    requires |TrimZeros(frac)| < |frac|
    requires forall x :: 0 <= x < |whole| ==> !MatchesAt(whole + "." + frac, x)
    ensures Normalize(whole + "." + frac) == whole + "." + TrimZeros(frac)
  {
    var s := whole + "." + frac;
    var i := |whole|;
    var t := TrimZeros(frac);
    var m := i + 1 + |t|;
    assert s[i + 1..] == frac;
    GroupEndAfterPoint(s, i, frac);
    NotPointZerosOfDecimal(whole, frac);
    FirstMatchIs(s, i);
    assert Normalize(s) == s[..m];
    DecimalPrefix(whole, frac, |t|);
  }

  /** Cutting `whole.frac` after `n` digits of the fraction. */
  lemma DecimalPrefix(whole: string, frac: string, n: nat)
    requires n <= |frac|
    ensures (whole + "." + frac)[..|whole| + 1 + n] == whole + "." + frac[..n]
  {
  }

  lemma NormalizeNoTrailingZero(whole: string, frac: string)
    requires '.' !in whole && AllDigits(frac) && !AllZeros(frac)
    requires |TrimZeros(frac)| == |frac|
    requires forall x :: 0 <= x < |whole| ==> !MatchesAt(whole + "." + frac, x)
    ensures Normalize(whole + "." + frac) == whole + "." + TrimZeros(frac)
  {
    var s := whole + "." + frac;
    var i := |whole|;
    assert s[i + 1..] == frac;
    GroupEndAfterPoint(s, i, frac);
    NotPointZerosOfDecimal(whole, frac);
    forall x | i < x < |s| ensures !MatchesAt(s, x) {
      assert s[x] == frac[x - i - 1];
    }
    NoMatch(s);
  }

  lemma FirstMatchIs(s: string, i: nat)
    requires i < |s| && MatchesAt(s, i)
    requires forall x :: 0 <= x < i ==> !MatchesAt(s, x)
    ensures FirstMatch(s, 0) == Some(i)
  {
  }

  lemma NoMatch(s: string)
    requires forall x :: 0 <= x < |s| ==> !MatchesAt(s, x)
    ensures Normalize(s) == s
  {
  }

  /** A string without a decimal point is left alone. */
  lemma NoPointUnchanged(s: string)
    requires '.' !in s
    ensures Normalize(s) == s
  {
    forall x | 0 <= x < |s| ensures !MatchesAt(s, x) {
      assert s[x] != '.';
    }
    NoMatch(s);
  }

  predicate AtMostOnePoint(s: string) {
    forall i, j :: 0 <= i < j < |s| && s[i] == '.' ==> s[j] != '.'
  }

  /** On a string with at most one decimal point (every numeral the number
      input produces), normalising twice is normalising once. */
  lemma {:induction false} NormalizeIdempotent(s: string)
    requires AtMostOnePoint(s)
    ensures Normalize(Normalize(s)) == Normalize(s)
  {
    if '.' !in s {
      NoPointUnchanged(s);
      return;
    }
    var i :| 0 <= i < |s| && s[i] == '.';
    var whole, rest := s[..i], s[i + 1..];
    assert s == whole + "." + rest;
    assert '.' !in whole by {
      forall x | 0 <= x < |whole| ensures whole[x] != '.' { assert whole[x] == s[x]; }
    }
    assert '.' !in rest by {
      forall x | 0 <= x < |rest| ensures rest[x] != '.' { assert rest[x] == s[i + 1 + x]; }
    }
    if AllDigits(rest) {
      DecimalIdempotent(whole, rest);
    } else {
      MatchDigitsAfter(s, i);
      forall x | 0 <= x < |s| ensures !MatchesAt(s, x) {
        if x != i {
          assert s[x] != '.';
        }
      }
      NoMatch(s);
    }
  }

  /** Idempotence for a decimal numeral `whole.frac`. */
  lemma DecimalIdempotent(whole: string, frac: string)
    requires '.' !in whole && AllDigits(frac)
    ensures Normalize(Normalize(whole + "." + frac)) == Normalize(whole + "." + frac)
  {
    NormalizeDecimal(whole, frac);
    if AllZeros(frac) {
      NoPointUnchanged(whole);
    } else {
      var t := TrimZeros(frac);
      TrimAllZeros(frac);
      assert AllDigits(t) by {
        forall x | 0 <= x < |t| ensures IsDigit(t[x]) { assert t[x] == frac[x]; }
      }
      TrimNoZero(t);
      TrimAllZeros(t);
      NormalizeDecimal(whole, t);
    }
  }

  /** A match at `i` leaves only digits after the point at `i`. */
  lemma MatchDigitsAfter(s: string, i: nat)
    requires i < |s|
    ensures MatchesAt(s, i) ==> AllDigits(s[i + 1..])
  {
    if MatchesAt(s, i) {
      NumeralAfterMatch(s, i);
      var rest := s[i + 1..];
      forall y | 0 <= y < |rest| ensures IsDigit(rest[y]) { assert rest[y] == s[i + 1 + y]; }
    }
  }

  /** Whatever alternative matches at a point, only digits follow it. */
  lemma NumeralAfterMatch(s: string, i: nat)
    requires MatchesAt(s, i)
    ensures forall y :: i + 1 <= y < |s| ==> IsDigit(s[y])
  {
    if !PointZerosAt(s, i) {
      var e := GroupMatchAt(s, i).value;
      forall y | e <= y < |s| ensures IsDigit(s[y]) {
        assert s[y] == s[e..][y - e];
      }
    } else {
      forall y | i + 1 <= y < |s| ensures IsDigit(s[y]) {
        assert s[y] == s[i + 1..][y - i - 1];
      }
    }
  }

  /** "1.500" becomes "1.5". */
  lemma ExampleTrailingZeros()
    ensures Normalize("1.500") == "1.5"
  {
    var frac := "500";
    assert "1.500" == "1" + "." + frac;
    assert frac[0] == '5' && frac[1] == '0' && frac[2] == '0';
    assert AllDigits(frac) && !AllZeros(frac);
    assert "1"[0] != '.';
    assert TrimZeros("5") == "5";
    assert TrimZeros("50") == "5";
    NormalizeDecimal("1", frac);
  }

  /** "2.000" becomes "2". */
  lemma ExampleZeroFraction()
    ensures Normalize("2.000") == "2"
  {
    var frac := "000";
    assert "2.000" == "2" + "." + frac;
    assert frac[0] == '0' && frac[1] == '0' && frac[2] == '0';
    assert AllZeros(frac) && AllDigits(frac);
    assert "2"[0] != '.';
    NormalizeDecimal("2", frac);
  }

  /** "10" stays "10": zeros before the point are kept. */
  lemma ExampleInteger()
    ensures Normalize("10") == "10"
  {
    assert "10"[0] != '.' && "10"[1] != '.';
    NoPointUnchanged("10");
  }

  /** With two points the clean-up is not idempotent: "1.0.0" becomes
      "1.0", which becomes "1". The number input never yields such text. */
  lemma TwoPointsNotIdempotent()
    ensures Normalize("1.0.0") == "1.0"
    ensures Normalize("1.0") == "1"
  {
    var s := "1.0.0";
    assert !MatchesAt(s, 0);
    assert s[2..][1] == '.';
    assert !PointZerosAt(s, 1);
    assert LazyGroupEnd(s, 3) == None;
    assert !MatchesAt(s, 1);
    assert !MatchesAt(s, 2);
    assert PointZerosAt(s, 3);
    FirstMatchIs(s, 3);
    NormalizeDecimal("1", "0");
  }
}
