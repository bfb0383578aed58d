// Perceptual-hash comparison: imagehash's `a - b` (the number of differing
// bits of two square boolean hash matrices) and the similarity percentage
// the scanner derives from it.

module Similarity {

  /** Side of imagehash's default pHash matrix (`hash_size = 8`), the value of `len(hash.hash)`. */
  const HASH_SIDE: nat := 8

  /** `len(hash.hash) ** 2`: the number of bits of a pHash. */
  const HASH_BITS: nat := HASH_SIDE * HASH_SIDE

  /** A pHash: the HASH_SIDE x HASH_SIDE boolean matrix, flattened row by row. */
  type PHash = h: seq<bool> | |h| == HASH_BITS
    witness seq(HASH_BITS, _ => false)

  /** Hamming distance: the number of positions at which `a` and `b` differ. */
  function Distance(a: seq<bool>, b: seq<bool>): (d: nat)
    requires |a| == |b|
    ensures d <= |a|
    ensures d == 0 ==> a == b
  {
    if |a| == 0 then 0
    else (if a[0] != b[0] then 1 else 0) + Distance(a[1..], b[1..])
  }

  lemma {:induction false} DistanceSelf(a: seq<bool>)
    ensures Distance(a, a) == 0
  {
    if |a| > 0 {
      DistanceSelf(a[1..]);
    }
  }

  lemma {:induction false} DistanceSymmetric(a: seq<bool>, b: seq<bool>)
    requires |a| == |b|
    ensures Distance(a, b) == Distance(b, a)
  {
    if |a| > 0 {
      DistanceSymmetric(a[1..], b[1..]);
    }
  }

  /** The distance is the metric the score relies on: it obeys the triangle inequality. */
  lemma {:induction false} DistanceTriangle(a: seq<bool>, b: seq<bool>, c: seq<bool>)
    requires |a| == |b| == |c|
    ensures Distance(a, c) <= Distance(a, b) + Distance(b, c)
  {
    if |a| > 0 {
      DistanceTriangle(a[1..], b[1..], c[1..]);
    }
  }

  /** Every position differs exactly when `b` is the bitwise complement of `a`. */
  lemma {:induction false} DistanceMaximal(a: seq<bool>, b: seq<bool>)
    requires |a| == |b|
    ensures Distance(a, b) == |a| <==> forall i | 0 <= i < |a| :: a[i] != b[i]
  {
    if |a| > 0 {
      DistanceMaximal(a[1..], b[1..]);
      assert forall i | 1 <= i < |a| :: a[i] == a[1..][i - 1] && b[i] == b[1..][i - 1];
    }
  }

  /** `(1 - distance / len(hash.hash) ** 2) * 100` over the reals. */
  function Percent(distance: nat): (r: real)
    requires distance <= HASH_BITS
    ensures 0.0 <= r <= 100.0
    ensures r == 100.0 <==> distance == 0
    ensures r == 0.0 <==> distance == HASH_BITS
  {
    (1.0 - distance as real / HASH_BITS as real) * 100.0
  }

  lemma PercentAntitone(d1: nat, d2: nat)
    requires d1 <= d2 <= HASH_BITS
    ensures Percent(d2) <= Percent(d1)
  {
  }

  /** The similarity percentage of two pHashes: 100 for equal hashes, less the more bits differ. */
  function Score(a: PHash, b: PHash): (r: real)
    ensures 0.0 <= r <= 100.0
    ensures r == 100.0 <==> a == b
  {
    DistanceSelf(a);
    Percent(Distance(a, b))
  }

  lemma ScoreSymmetric(a: PHash, b: PHash)
    ensures Score(a, b) == Score(b, a)
  {
    DistanceSymmetric(a, b);
  }

  /** Complementary hashes, and only those, score exactly 0. */
  lemma ScoreZeroIffComplement(a: PHash, b: PHash)
    ensures Score(a, b) == 0.0 <==> forall i | 0 <= i < |a| :: a[i] != b[i]
  {
    DistanceMaximal(a, b);
  }

  /** A larger distance never gives a higher score. */
  lemma ScoreAntitone(a: PHash, b: PHash, c: PHash)
    requires Distance(a, b) <= Distance(a, c)
    ensures Score(a, c) <= Score(a, b)
  {
    PercentAntitone(Distance(a, b), Distance(a, c));
  }
}
