/** Integer text and width conversions used when reading SOA timers:
    Go's strconv.Atoi on a 64-bit platform, the truncating conversion
    `uint32(i)`, and decimal rendering as its inverse. */
module Numbers {

  datatype Option<T> = None | Some(value: T)

  /** Values of Go's `uint32`. */
  type uint32 = x: int | 0 <= x < 0x1_0000_0000

  /** Bounds of Go's 64-bit `int`, the range strconv.Atoi accepts. */
  const MinInt64: int := -0x8000_0000_0000_0000
  const MaxInt64: int := 0x7fff_ffff_ffff_ffff

  /** Go's conversion `uint32(i)` of a 64-bit int: keep the low 32 bits of
      the two's-complement value, which is the residue modulo 2^32. */
  function Uint32(i: int): (r: uint32)
    ensures 0 <= i < 0x1_0000_0000 ==> r == i
    ensures (i - r) % 0x1_0000_0000 == 0
  {
    i % 0x1_0000_0000
  }

  predicate IsDigit(c: char)
  {
    '0' <= c <= '9'
  }

  /** A non-empty run of decimal digits. */
  predicate IsDigits(d: string)
  {
    |d| > 0 && forall k :: 0 <= k < |d| ==> IsDigit(d[k])
  }

  /** The number a run of decimal digits denotes (leading zeros allowed). */
  function DigitsValue(d: string): nat
    requires forall k :: 0 <= k < |d| ==> IsDigit(d[k])
  {
    if |d| == 0 then 0
    else
      assert IsDigit(d[|d| - 1]);
      DigitsValue(d[..|d| - 1]) * 10 + (d[|d| - 1] as int - '0' as int)
  }

  /** strconv.Atoi: an optional `+` or `-` followed by at least one decimal
      digit, whose value must fit in a 64-bit int; anything else is an error,
      modelled as None. */
  function Atoi(s: string): (r: Option<int>)
    ensures r.Some? ==> MinInt64 <= r.value <= MaxInt64
    ensures r.Some? ==> |s| > 0 && IsDigits(if s[0] == '+' || s[0] == '-' then s[1..] else s)
    ensures r.Some? && r.value < 0 ==> |s| > 0 && s[0] == '-'
  {
    var signed := |s| > 0 && (s[0] == '+' || s[0] == '-');
    var digits := if signed then s[1..] else s;
    if !IsDigits(digits) then None
    else
      var magnitude: int := DigitsValue(digits);
      var v := if signed && s[0] == '-' then -magnitude else magnitude;
      if MinInt64 <= v <= MaxInt64 then Some(v) else None
  }

  /** Decimal rendering of a natural number, without sign or leading zeros. */
  function Itoa(n: nat): (s: string)
    ensures IsDigits(s)
    ensures s[0] != '0' || n == 0
  {
    var last := [('0' as int + n % 10) as char];
    if n < 10 then last else Itoa(n / 10) + last
  }

  /** A leading zero does not change the value of a run of digits. */
  lemma {:induction false} DigitsValueLeadingZero(d: string)
    requires forall k :: 0 <= k < |d| ==> IsDigit(d[k])
    ensures DigitsValue("0" + d) == DigitsValue(d)
    decreases |d|
  {
    if |d| > 0 {
      var z := "0" + d;
      assert z[..|z| - 1] == "0" + d[..|d| - 1];
      assert z[|z| - 1] == d[|d| - 1];
      DigitsValueLeadingZero(d[..|d| - 1]);
    }
  }

  /** Leading zeros are accepted: a numeral with a zero in front reads as
      the numeral itself. */
  lemma AtoiLeadingZero(n: nat)
    requires n <= MaxInt64
    ensures Atoi("0" + Itoa(n)) == Some(n)
  {
    DigitsValueItoa(n);
    DigitsValueLeadingZero(Itoa(n));
  }

  /** Reading back a rendered number yields the number. */
  lemma {:induction false} DigitsValueItoa(n: nat)
    ensures DigitsValue(Itoa(n)) == n
  {
    if n >= 10 {
      var s := Itoa(n);
      assert s[..|s| - 1] == Itoa(n / 10);
      DigitsValueItoa(n / 10);
    }
  }

  /** Atoi inverts Itoa on every 64-bit value, with or without a sign. */
  lemma AtoiItoa(n: nat)
    requires n <= MaxInt64
    ensures Atoi(Itoa(n)) == Some(n)
    ensures Atoi("+" + Itoa(n)) == Some(n)
    ensures Atoi("-" + Itoa(n)) == Some(-(n as int))
  {
    DigitsValueItoa(n);
    assert ("+" + Itoa(n))[1..] == Itoa(n);
    assert ("-" + Itoa(n))[1..] == Itoa(n);
  }

  /** A token is malformed when it is empty, is a lone sign, or holds a
      character other than a decimal digit at some position `j`, a leading
      sign excepted. */
  predicate Malformed(s: string, j: nat)
  {
    || |s| == 0
    || s == "+" || s == "-"
    || (j < |s| && !IsDigit(s[j]) && (j > 0 || (s[0] != '+' && s[0] != '-')))
  }

  /** Atoi rejects every malformed token: Go reports a syntax error. */
  lemma AtoiRejectsMalformed(s: string, j: nat)
    requires Malformed(s, j)
    ensures Atoi(s) == None
  {
    if |s| > 0 && (s[0] == '+' || s[0] == '-') && s != "+" && s != "-" {
      assert s[1..][j - 1] == s[j];
    }
  }

  /** Atoi rejects every decimal numeral outside the 64-bit range: Go
      reports a range error there, so no SOA timer is taken from it. */
  lemma AtoiRejectsOutOfRange(n: nat)
    requires n > MaxInt64
    ensures Atoi(Itoa(n)) == None
    ensures Atoi("+" + Itoa(n)) == None
    ensures n > MaxInt64 + 1 ==> Atoi("-" + Itoa(n)) == None
  {
    DigitsValueItoa(n);
    assert ("+" + Itoa(n))[1..] == Itoa(n);
    assert ("-" + Itoa(n))[1..] == Itoa(n);
  }
}
