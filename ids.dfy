/**
 * The identity tokens `fromVideo` stores on a video element: "video_"
 * followed by the decimal digits of a number drawn from the process-wide
 * counter behind `utils.uuid()`.
 */
module Ids {
  const Prefix: string := "video_"

  function DigitChar(d: nat): char
    requires d < 10
  {
    (48 + d) as char
  }

  function DigitValue(c: char): nat
  {
    if '0' <= c <= '9' then c as int - 48 else 0
  }

  /** The decimal text of `n`, as JavaScript writes a non-negative integer. */
  function Decimal(n: nat): (s: string)
    ensures |s| >= 1
    ensures forall i :: 0 <= i < |s| ==> '0' <= s[i] <= '9'
    decreases n
  {
    if n < 10 then [DigitChar(n)] else Decimal(n / 10) + [DigitChar(n % 10)]
  }

  /** Reads a string of decimal digits back as a number. */
  function ParseDecimal(s: string): nat
    decreases |s|
  {
    if s == [] then 0 else ParseDecimal(s[..|s| - 1]) * 10 + DigitValue(s[|s| - 1])
  }

  lemma {:induction false} ParseDecimalOfDecimal(n: nat)
    ensures ParseDecimal(Decimal(n)) == n
    decreases n
  {
    if n >= 10 {
      var s := Decimal(n);
      assert s[..|s| - 1] == Decimal(n / 10);
      ParseDecimalOfDecimal(n / 10);
    }
  }

  /** The id minted when the counter yields `n`: the prefix followed by the digits of `n`. */
  function MintId(n: nat): (id: string)
    ensures |id| > |Prefix| && id[..|Prefix|] == Prefix
  {
    Prefix + Decimal(n)
  }

  /** The number a minted id was made from. */
  function IdNumber(id: string): nat
  {
    if |id| < |Prefix| then 0 else ParseDecimal(id[|Prefix|..])
  }

  lemma IdNumberOfMintId(n: nat)
    ensures IdNumber(MintId(n)) == n
  {
    assert MintId(n)[|Prefix|..] == Decimal(n);
    ParseDecimalOfDecimal(n);
  }

  /** Distinct counter values give distinct ids. */
  lemma MintIdInjective(a: nat, b: nat)
    ensures MintId(a) == MintId(b) <==> a == b
  {
    IdNumberOfMintId(a);
    IdNumberOfMintId(b);
  }
}
