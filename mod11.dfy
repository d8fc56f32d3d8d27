/** The check-digit rule that both identifiers share: a weighted sum of the known
    digits is reduced modulo 11, and the check digit is 0 when the remainder is 0
    or 1, and 11 minus the remainder otherwise (cnpj.py:147-152, cpf.py:146-151).

    The same digit is also obtained by the usual "ascending weights" formulation:
    weigh each digit by 11 minus its weight, and take the sum modulo 11 and then
    modulo 10. The lemmas here prove that the two agree. */
module Mod11 {
  import opened Builtins

  /** The check digit for a weighted sum s. */
  function CheckDigit(s: int): (f: int)
    ensures 0 <= f <= 9
    ensures f == 0 <==> s % 11 <= 1
    ensures f != 0 ==> (s + f) % 11 == 0
  {
    var r := s % 11;
    if r > 1 then 11 - r else 0
  }

  /** The plain sum of xs from position i on. */
  function SumFrom(xs: seq<int>, i: nat): int
    decreases |xs| - i
  {
    if i >= |xs| then 0 else xs[i] + SumFrom(xs, i + 1)
  }

  /** Each weight plus its partner weight makes 11. */
  predicate Complementary(ws: seq<int>, vs: seq<int>) {
    |ws| == |vs| && forall i :: 0 <= i < |ws| ==> ws[i] + vs[i] == 11
  }

  /** Weighing by complementary weights splits eleven times the plain digit sum. */
  lemma {:induction false} ComplementarySums(xs: seq<int>, ws: seq<int>, vs: seq<int>, i: nat)
    requires |xs| == |ws| && Complementary(ws, vs)
    ensures ZipSumFrom(xs, ws, i) + ZipSumFrom(xs, vs, i) == 11 * SumFrom(xs, i)
    decreases |xs| - i
  {
    if i < |xs| {
      assert ws[i] + vs[i] == 11;
      ComplementarySums(xs, ws, vs, i + 1);
      calc {
        ZipSumFrom(xs, ws, i) + ZipSumFrom(xs, vs, i);
        xs[i] * ws[i] + xs[i] * vs[i] + (ZipSumFrom(xs, ws, i + 1) + ZipSumFrom(xs, vs, i + 1));
        xs[i] * (ws[i] + vs[i]) + 11 * SumFrom(xs, i + 1);
        11 * SumFrom(xs, i);
      }
    }
  }

  /** If s + t is a multiple of 11, the check digit of s is t mod 11 mod 10. */
  lemma CheckDigitOfComplement(s: int, t: int, k: int)
    requires s + t == 11 * k
    ensures CheckDigit(s) == t % 11 % 10
  {
    var q, m := t / 11, t % 11;
    assert t == 11 * q + m && 0 <= m < 11;
    if m == 0 {
      assert s == 11 * (k - q);
      assert s % 11 == 0;
    } else {
      assert s == 11 * (k - q - 1) + (11 - m);
      assert s % 11 == 11 - m;
    }
  }

  /** The subtract-from-11 rule with weights ws gives the same digit as the
      mod-11-mod-10 rule with the complementary weights vs. */
  lemma ComplementaryRule(xs: seq<int>, ws: seq<int>, vs: seq<int>)
    requires |xs| == |ws| && Complementary(ws, vs)
    ensures CheckDigit(ZipSum(xs, ws)) == ZipSum(xs, vs) % 11 % 10
  {
    ComplementarySums(xs, ws, vs, 0);
    CheckDigitOfComplement(ZipSum(xs, ws), ZipSum(xs, vs), SumFrom(xs, 0));
  }
}
