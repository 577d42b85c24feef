/** Decimal text of unsigned 64-bit integers: `u64::to_string` and
    `str::parse::<u64>`, as the cumulative-column transform uses them. */
module Decimal {
  import opened Results

  /** 2^64: every `u64` value is below it. */
  const U64_LIMIT: nat := 0x1_0000_0000_0000_0000

  /** The kinds of `ParseIntError` an unsigned parse can report. */
  datatype ParseIntError = Empty | InvalidDigit | PosOverflow

  predicate IsDigit(c: char) {
    '0' <= c <= '9'
  }

  predicate AllDigits(s: string) {
    forall i :: 0 <= i < |s| ==> IsDigit(s[i])
  }

  function DigitValue(c: char): (d: nat)
    requires IsDigit(c)
    ensures d < 10
  {
    c as int - '0' as int
  }

  function DigitChar(d: nat): (c: char)
    requires d < 10
    ensures IsDigit(c) && DigitValue(c) == d
  {
    (d + '0' as int) as char
  }

  /** `to_string` of a non-negative integer: most significant digit first,
      no leading zero except for zero itself. */
  function NatToString(n: nat): (s: string)
    ensures |s| >= 1
  {
    if n < 10 then [DigitChar(n)]
    else
      var q := n / 10;
      NatToString(q) + [DigitChar(n - q * 10)]
  }

  /** The text of a number is all digits, begins with `0` only for zero, and
      is a single digit exactly for the numbers below ten. */
  lemma {:induction false} NatToStringDigits(n: nat)
    ensures var s := NatToString(n);
      && AllDigits(s)
      && (s[0] == '0' <==> n == 0)
      && (n < 10 <==> |s| == 1)
    decreases n
  {
    if n >= 10 {
      NatToStringDigits(n / 10);
    }
  }

  /** The digit loop of `u64::from_str`: scans left to right from the
      accumulated value `acc`; the first character that is not a digit is
      `InvalidDigit`, and a step whose value reaches 2^64 is `PosOverflow`. */
  function ParseDigits(acc: nat, s: string): (r: Result<nat, ParseIntError>)
    requires acc < U64_LIMIT
    ensures r.Ok? ==> r.value < U64_LIMIT
    ensures r.Err? ==> r.error != Empty
    decreases |s|
  {
    if s == [] then Ok(acc)
    else if !IsDigit(s[0]) then Err(InvalidDigit)
    else
      var next := acc * 10 + DigitValue(s[0]);
      if next >= U64_LIMIT then Err(PosOverflow) else ParseDigits(next, s[1..])
  }

  /** `str::parse::<u64>`: the empty string is `Empty`; one leading `+` is
      allowed but a lone `+` is `InvalidDigit`; a `-` is an invalid digit. */
  function ParseU64(s: string): (r: Result<nat, ParseIntError>)
    ensures r.Ok? ==> r.value < U64_LIMIT
    ensures r == Err(Empty) <==> s == []
  {
    if s == [] then Err(Empty)
    else if s[0] == '+' then
      if |s| == 1 then Err(InvalidDigit) else ParseDigits(0, s[1..])
    else ParseDigits(0, s)
  }

  /** Appending one character to the scanned text extends a successful scan
      by one step. */
  lemma {:induction false} ParseDigitsSnoc(acc: nat, s: string, c: char)
    requires acc < U64_LIMIT
    requires ParseDigits(acc, s).Ok?
    ensures ParseDigits(acc, s + [c]) ==
      var v := ParseDigits(acc, s).value;
      if !IsDigit(c) then Err(InvalidDigit)
      else if v * 10 + DigitValue(c) >= U64_LIMIT then Err(PosOverflow)
      else Ok(v * 10 + DigitValue(c))
    decreases |s|
  {
    if s == [] {
      assert s + [c] == [c];
      assert [c][1..] == [];
    } else {
      assert (s + [c])[0] == s[0];
      assert (s + [c])[1..] == s[1..] + [c];
      ParseDigitsSnoc(acc * 10 + DigitValue(s[0]), s[1..], c);
    }
  }

  /** Parsing the decimal text of a `u64` gives the value back. */
  lemma {:induction false} ParseNatToString(n: nat)
    requires n < U64_LIMIT
    ensures ParseU64(NatToString(n)) == Ok(n)
    decreases n
  {
    var s := NatToString(n);
    NatToStringDigits(n);
    assert s[0] != '+' by { assert IsDigit(s[0]); }
    if n < 10 {
      assert s == [DigitChar(n)];
      assert s[1..] == [];
      assert ParseDigits(0, s) == ParseDigits(n, []);
    } else {
      ParseNatToString(n / 10);
      var prefix := NatToString(n / 10);
      NatToStringDigits(n / 10);
      assert prefix[0] != '+' by { assert IsDigit(prefix[0]); }
      ParseDigitsSnoc(0, prefix, DigitChar(n - n / 10 * 10));
    }
  }

  /** Distinct `u64` values have distinct decimal texts. */
  lemma NatToStringInjective(m: nat, n: nat)
    requires m < U64_LIMIT && n < U64_LIMIT
    requires NatToString(m) == NatToString(n)
    ensures m == n
  {
    ParseNatToString(m);
    ParseNatToString(n);
  }
}
