/**
 * Decimal text of integers, as strconv.AppendInt / AppendUint write it, and
 * the explicitly signed form of fmt's %+d verb, which the level names use
 * for their offset from an anchor.
 */
module Numbers {

  predicate IsDigit(c: char) { '0' <= c <= '9' }

  function DigitChar(d: nat): (c: char)
    requires d < 10
    ensures IsDigit(c)
  {
    ['0', '1', '2', '3', '4', '5', '6', '7', '8', '9'][d]
  }

  function DigitValue(c: char): (d: nat)
    requires IsDigit(c)
    ensures d < 10
  {
    (c as int - '0' as int) as nat
  }

  /** The shortest base-10 text of n: digits only, no leading zero. */
  function NatText(n: nat): (s: string)
    ensures |s| >= 1
    ensures forall i :: 0 <= i < |s| ==> IsDigit(s[i])
    ensures |s| > 1 ==> s[0] != '0'
    decreases n
  {
    if n < 10 then [DigitChar(n)] else NatText(n / 10) + [DigitChar(n % 10)]
  }

  /** The value of a text of digits. */
  function ParseNat(s: string): nat
    requires forall i :: 0 <= i < |s| ==> IsDigit(s[i])
  {
    if s == [] then 0 else 10 * ParseNat(s[..|s| - 1]) + DigitValue(s[|s| - 1])
  }

  /** Reading back the decimal text gives the number. */
  lemma {:induction false} ParseNatText(n: nat)
    ensures ParseNat(NatText(n)) == n
    decreases n
  {
    var s := NatText(n);
    if n >= 10 {
      ParseNatText(n / 10);
      assert s[..|s| - 1] == NatText(n / 10);
    }
  }

  /** Distinct numbers have distinct decimal texts. */
  lemma NatTextInjective(m: nat, n: nat)
    requires NatText(m) == NatText(n)
    ensures m == n
  {
    ParseNatText(m);
    ParseNatText(n);
  }

  /** strconv.AppendInt(_, i, 10): a '-' before the magnitude of a negative number. */
  function IntText(i: int): (s: string)
    ensures |s| >= 1
    ensures (s[0] == '-') <==> i < 0
  {
    if i < 0 then "-" + NatText(-i) else NatText(i)
  }

  /** fmt's %+d: the sign is always written. */
  function SignedText(i: int): (s: string)
    ensures |s| >= 2
    ensures s[0] == (if i < 0 then '-' else '+')
    ensures forall k :: 1 <= k < |s| ==> IsDigit(s[k])
  {
    (if i < 0 then "-" else "+") + NatText(if i < 0 then -i else i)
  }

  /** The signed text determines the number. */
  lemma SignedTextInjective(i: int, j: int)
    requires SignedText(i) == SignedText(j)
    ensures i == j
  {
    var si, sj := SignedText(i), SignedText(j);
    assert si[1..] == NatText(if i < 0 then -i else i);
    assert sj[1..] == NatText(if j < 0 then -j else j);
    NatTextInjective(if i < 0 then -i else i, if j < 0 then -j else j);
  }

  /** Distinct ints have distinct texts. */
  lemma IntTextInjective(i: int, j: int)
    requires IntText(i) == IntText(j)
    ensures i == j
  {
    var si, sj := IntText(i), IntText(j);
    if i < 0 {
      assert si[1..] == NatText(-i) && sj[1..] == NatText(-j);
      NatTextInjective(-i, -j);
    } else {
      NatTextInjective(i, j);
    }
  }
}
