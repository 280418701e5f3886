/**
 * Pair construction for the Siamese-network experiment (`create_pairs`).
 *
 * For every class `d` and every step `i < n`, where `n` is the size of the
 * smallest class minus one, the generator emits a positive pair (positions
 * `i` and `i + 1` of class `d`) and then a negative pair (position `i` of
 * class `d` and position `i` of the class `(d + inc) % numClasses`), with the
 * labels `1, 0`. The random offsets `inc` are supplied by the caller, one per
 * step, in the order the generator draws them.
 */
module SiamesePairs {
  import DigitIndices

  /** Two images (or two dataset positions) compared by the twin network. */
  datatype Pair<T> = Pair(first: T, second: T)

  /** Every position listed for the first `numClasses` classes indexes a dataset of `size` images. */
  predicate ListsIndex(digitIndices: seq<seq<nat>>, numClasses: nat, size: nat)
    requires numClasses <= |digitIndices|
  {
    forall d, q :: 0 <= d < numClasses && q in digitIndices[d] ==> q < size
  }

  /** Every offset the random source can draw lies in `[1, numClasses)`. */
  predicate ValidOffsets(incs: seq<int>, numClasses: nat) {
    forall k :: 0 <= k < |incs| ==> 1 <= incs[k] < numClasses
  }

  /** The size of the smallest of the first `numClasses` lists. */
  function MinClassSize(digitIndices: seq<seq<nat>>, numClasses: nat): (m: nat)
    requires 0 < numClasses <= |digitIndices|
    ensures forall d :: 0 <= d < numClasses ==> m <= |digitIndices[d]|
    ensures exists d :: 0 <= d < numClasses && m == |digitIndices[d]|
  {
    if numClasses == 1 then |digitIndices[0]|
    else
      var rest := MinClassSize(digitIndices, numClasses - 1);
      var last := |digitIndices[numClasses - 1]|;
      if last < rest then last else rest
  }

  /**
   * How many steps each class contributes: `n = min size - 1`, and `range(n)`
   * is empty when `n <= 0`. It is zero exactly when some class has fewer than
   * two samples; otherwise every class has more than `n` samples (so `i + 1`
   * is a valid index for every `i < n`) and some class has exactly `n + 1`.
   */
  function StepsPerClass(digitIndices: seq<seq<nat>>, numClasses: nat): (n: nat)
    requires 0 < numClasses <= |digitIndices|
    ensures n == 0 <==> exists d :: 0 <= d < numClasses && |digitIndices[d]| < 2
    ensures n > 0 ==> forall d :: 0 <= d < numClasses ==> n < |digitIndices[d]|
    ensures n > 0 ==> exists d :: 0 <= d < numClasses && |digitIndices[d]| == n + 1
  {
    var m := MinClassSize(digitIndices, numClasses);
    if m >= 1 then m - 1 else 0
  }

  /** The class paired with class `d` in a negative pair: never `d` itself, always a class. */
  function Partner(d: nat, inc: int, numClasses: nat): (dn: nat)
    requires d < numClasses && 1 <= inc < numClasses
    ensures dn < numClasses && dn != d
  {
    (d + inc) % numClasses
  }

  /**
   * Each class other than `d` is the partner of `d` for exactly one offset in
   * `[1, numClasses)`, so an offset drawn uniformly gives a partner drawn
   * uniformly from the other classes.
   */
  lemma PartnerIsBijective(d: nat, dn: nat, numClasses: nat)
    requires d < numClasses && dn < numClasses && dn != d
    ensures exists inc :: 1 <= inc < numClasses && Partner(d, inc, numClasses) == dn
    ensures forall a, b :: (1 <= a < numClasses && 1 <= b < numClasses &&
      Partner(d, a, numClasses) == dn && Partner(d, b, numClasses) == dn) ==> a == b
  {
    var inc := if d < dn then dn - d else dn + numClasses - d;
    SumBelowTwice(d, inc, numClasses);
    assert Partner(d, inc, numClasses) == dn;
    forall a, b | 1 <= a < numClasses && 1 <= b < numClasses &&
      Partner(d, a, numClasses) == dn && Partner(d, b, numClasses) == dn
      ensures a == b
    {
      SumBelowTwice(d, a, numClasses);
      SumBelowTwice(d, b, numClasses);
    }
  }

  /** `d + a` with `d, a < c` is below `2 * c`, so reducing it mod `c` subtracts `c` at most once. */
  lemma SumBelowTwice(d: nat, a: int, c: nat)
    requires d < c && 1 <= a < c
    ensures (d + a) % c == if d + a < c then d + a else d + a - c
  {
  }

  /** Splitting a step number `s < numClasses * steps` into its class `s / steps` and its step `s % steps`. */
  lemma StepSplit(s: nat, steps: nat, numClasses: nat)
    requires s < numClasses * steps
    ensures steps > 0 && s / steps < numClasses && s % steps < steps
  {
  }

  /** The step number `d * steps + i` of step `i` in class `d` is a step number, and splits back into `d` and `i`. */
  lemma StepJoin(d: nat, i: nat, steps: nat, numClasses: nat)
    requires d < numClasses && i < steps
    ensures d * steps + i < numClasses * steps
    ensures (d * steps + i) / steps == d && (d * steps + i) % steps == i
  {
    MulGrows(d + 1, numClasses, steps);
    assert (d + 1) * steps == d * steps + steps;
    DivModUnique(d * steps + i, d, i, steps);
  }

  /** `a <= b` implies `a * n <= b * n` for a natural `n`. */
  lemma MulGrows(a: nat, b: nat, n: nat)
    requires a <= b
    ensures a * n <= b * n
  {
    assert b * n == a * n + (b - a) * n;
  }

  /** Euclidean division is unique: `q * n + r` with `0 <= r < n` divides into `q` and `r`. */
  lemma DivModUnique(s: int, q: int, r: int, n: int)
    requires n > 0 && 0 <= r < n && s == q * n + r
    ensures s / n == q && s % n == r
  {
    var q', r' := s / n, s % n;
    assert q' * n + r' == q * n + r;
    if q' < q {
      MulGrows(1, q - q', n);
    } else if q < q' {
      MulGrows(1, q' - q, n);
    }
  }

  /**
   * Reference definition of the dataset positions joined by the `k`-th pair
   * the generator emits: step `k / 2` belongs to class `(k / 2) / n` and is
   * step `(k / 2) % n` inside it; an even `k` is the step's positive pair and
   * an odd `k` its negative pair. A positive pair joins two consecutive
   * entries of one class's list; a negative pair joins entries at the same
   * place in the lists of two different classes.
   */
  function PositionsAt(digitIndices: seq<seq<nat>>, numClasses: nat, incs: seq<int>, k: nat): (r: Pair<nat>)
    requires 0 < numClasses <= |digitIndices|
    requires ValidOffsets(incs, numClasses)
    requires numClasses * StepsPerClass(digitIndices, numClasses) <= |incs|
    requires k < 2 * (numClasses * StepsPerClass(digitIndices, numClasses))
    ensures k % 2 == 0 ==> exists d, i ::
      (0 <= d < numClasses && 0 <= i && i + 1 < |digitIndices[d]| &&
       r == Pair(digitIndices[d][i], digitIndices[d][i + 1]))
    ensures k % 2 == 1 ==> exists d, e, i ::
      (0 <= d < numClasses && 0 <= e < numClasses && d != e &&
       0 <= i < |digitIndices[d]| && i < |digitIndices[e]| &&
       r == Pair(digitIndices[d][i], digitIndices[e][i]))
  {
    var steps := StepsPerClass(digitIndices, numClasses);
    var s := k / 2;
    StepSplit(s, steps, numClasses);
    var d, i := s / steps, s % steps;
    if k % 2 == 0 then
      Pair(digitIndices[d][i], digitIndices[d][i + 1])
    else
      Pair(digitIndices[d][i], digitIndices[Partner(d, incs[s], numClasses)][i])
  }

  /**
   * The pairs of step `i` of class `d` sit at positions `2 * (d * n + i)` and
   * `2 * (d * n + i) + 1`: the positive pair joins entries `i` and `i + 1` of
   * class `d`, and the negative pair joins entry `i` of class `d` with entry
   * `i` of the partner class chosen by the `(d * n + i)`-th offset.
   */
  lemma PairsOfStep(digitIndices: seq<seq<nat>>, numClasses: nat, incs: seq<int>, d: nat, i: nat)
    requires 0 < numClasses <= |digitIndices|
    requires ValidOffsets(incs, numClasses)
    requires numClasses * StepsPerClass(digitIndices, numClasses) <= |incs|
    requires d < numClasses && i < StepsPerClass(digitIndices, numClasses)
    ensures var n := StepsPerClass(digitIndices, numClasses);
      d * n + i < numClasses * n &&
      i + 1 < |digitIndices[d]| &&
      PositionsAt(digitIndices, numClasses, incs, 2 * (d * n + i)) ==
        Pair(digitIndices[d][i], digitIndices[d][i + 1]) &&
      i < |digitIndices[Partner(d, incs[d * n + i], numClasses)]| &&
      PositionsAt(digitIndices, numClasses, incs, 2 * (d * n + i) + 1) ==
        Pair(digitIndices[d][i], digitIndices[Partner(d, incs[d * n + i], numClasses)][i])
  {
    var n := StepsPerClass(digitIndices, numClasses);
    StepJoin(d, i, n, numClasses);
    var s := d * n + i;
    var k := 2 * s;
    assert k / 2 == s && k % 2 == 0;
    assert (k + 1) / 2 == s && (k + 1) % 2 == 1;
  }

  /**
   * `pairs` holds, in order, the images in `x` of the first `|pairs|` pairs of
   * positions given by `PositionsAt`.
   */
  ghost predicate ImagesOfPositions<T>(x: seq<T>, digitIndices: seq<seq<nat>>, numClasses: nat, incs: seq<int>,
                                       pairs: seq<Pair<T>>)
    requires 0 < numClasses <= |digitIndices|
    requires ValidOffsets(incs, numClasses)
    requires numClasses * StepsPerClass(digitIndices, numClasses) <= |incs|
  {
    && |pairs| <= 2 * (numClasses * StepsPerClass(digitIndices, numClasses))
    && forall k :: 0 <= k < |pairs| ==>
         var p := PositionsAt(digitIndices, numClasses, incs, k);
         p.first < |x| && p.second < |x| && pairs[k] == Pair(x[p.first], x[p.second])
  }

  /** Labels that alternate `1, 0, 1, 0, ...`, starting with `1`. */
  predicate Alternating(labels: seq<int>) {
    forall k :: 0 <= k < |labels| ==> labels[k] == if k % 2 == 0 then 1 else 0
  }

  /** How many entries of `s` equal `v`. */
  function Occurrences(s: seq<int>, v: int): (c: nat)
    ensures c <= |s|
  {
    if s == [] then 0 else (if s[0] == v then 1 else 0) + Occurrences(s[1..], v)
  }

  /** An alternating label list of even length is half positive and half negative. */
  lemma {:induction false} AlternatingIsBalanced(labels: seq<int>)
    requires Alternating(labels) && |labels| % 2 == 0
    ensures Occurrences(labels, 1) == |labels| / 2
    ensures Occurrences(labels, 0) == |labels| / 2
  {
    if labels != [] {
      var rest := labels[2..];
      forall k | 0 <= k < |rest|
        ensures rest[k] == if k % 2 == 0 then 1 else 0
      {
        assert rest[k] == labels[k + 2];
      }
      AlternatingIsBalanced(rest);
      assert labels[1..][1..] == rest;
    }
  }

  /** `total` steps of alternating labels hold `total` positive and `total` negative labels. */
  lemma BalancedLabels(labels: seq<int>, total: nat)
    requires Alternating(labels) && |labels| == 2 * total
    ensures Occurrences(labels, 1) == Occurrences(labels, 0) == total
  {
    AlternatingIsBalanced(labels);
  }

  /** Each list of the table is ascending and holds only positions of `y` labelled with its class. */
  predicate ListsLabelled(y: seq<int>, digitIndices: seq<seq<nat>>, numClasses: nat)
    requires numClasses <= |digitIndices|
  {
    && (forall d :: 0 <= d < numClasses ==> DigitIndices.StrictlyAscending(digitIndices[d]))
    && (forall d, j :: 0 <= d < numClasses && 0 <= j < |digitIndices[d]| ==>
          digitIndices[d][j] < |y| && y[digitIndices[d][j]] == d)
  }

  /**
   * For a table whose lists hold positions labelled with their class, the two
   * positions of the `k`-th pair hold the same label exactly when `k` is
   * even; the two positions of a positive pair are distinct, the first one
   * coming earlier in the dataset.
   */
  lemma SameLabelExactlyWhenPositive(y: seq<int>, digitIndices: seq<seq<nat>>, numClasses: nat, incs: seq<int>, k: nat)
    requires 0 < numClasses <= |digitIndices|
    requires ListsLabelled(y, digitIndices, numClasses)
    requires ValidOffsets(incs, numClasses)
    requires numClasses * StepsPerClass(digitIndices, numClasses) <= |incs|
    requires k < 2 * (numClasses * StepsPerClass(digitIndices, numClasses))
    ensures var p := PositionsAt(digitIndices, numClasses, incs, k);
      && p.first < |y| && p.second < |y|
      && (y[p.first] == y[p.second] <==> k % 2 == 0)
      && (k % 2 == 0 ==> p.first < p.second)
  {
  }

  /**
   * With the index table built from the labels `y`, the two positions of the
   * `k`-th pair hold the same digit exactly when `k` is even, that is, exactly
   * when the pair's label is `1`; the two positions of a positive pair are
   * distinct, the first one coming earlier in the dataset.
   */
  lemma SameDigitExactlyWhenPositive(y: seq<int>, numClasses: nat, incs: seq<int>, k: nat)
    requires 0 < numClasses
    requires ValidOffsets(incs, numClasses)
    requires numClasses * StepsPerClass(DigitIndices.IndexTable(y, numClasses), numClasses) <= |incs|
    requires k < 2 * (numClasses * StepsPerClass(DigitIndices.IndexTable(y, numClasses), numClasses))
    ensures var p := PositionsAt(DigitIndices.IndexTable(y, numClasses), numClasses, incs, k);
      && p.first < |y| && p.second < |y|
      && (y[p.first] == y[p.second] <==> k % 2 == 0)
      && (k % 2 == 0 ==> p.first < p.second)
  {
    var table := DigitIndices.IndexTable(y, numClasses);
    forall d, j | 0 <= d < numClasses && 0 <= j < |table[d]|
      ensures table[d][j] < |y| && y[table[d][j]] == d
    {
      DigitIndices.EntryHoldsItsClass(y, numClasses, d, j);
    }
    SameLabelExactlyWhenPositive(y, table, numClasses, incs, k);
  }

  /** Appending the labels `1, 0` of one more step keeps the labels alternating. */
  lemma AppendStepLabels(labels: seq<int>)
    requires Alternating(labels) && |labels| % 2 == 0
    ensures Alternating(labels + [1, 0])
  {
    var longer := labels + [1, 0];
    forall k | 0 <= k < |longer|
      ensures longer[k] == if k % 2 == 0 then 1 else 0
    {
      if k < |labels| {
        assert longer[k] == labels[k];
      }
    }
  }

  /**
   * One step of the inner loop: with the pairs of all earlier steps built,
   * appending the positive and the negative pair of step `i` of class `d`
   * (the `(d * n + i)`-th step overall) builds the pairs of one more step.
   */
  lemma ExtendByStep<T>(x: seq<T>, digitIndices: seq<seq<nat>>, numClasses: nat, incs: seq<int>,
                        pairs: seq<Pair<T>>, d: nat, i: nat)
    requires 0 < numClasses <= |digitIndices|
    requires ListsIndex(digitIndices, numClasses, |x|)
    requires ValidOffsets(incs, numClasses)
    requires numClasses * StepsPerClass(digitIndices, numClasses) <= |incs|
    requires d < numClasses && i < StepsPerClass(digitIndices, numClasses)
    requires d * StepsPerClass(digitIndices, numClasses) + i < numClasses * StepsPerClass(digitIndices, numClasses)
    requires |pairs| == 2 * (d * StepsPerClass(digitIndices, numClasses) + i)
    requires ImagesOfPositions(x, digitIndices, numClasses, incs, pairs)
    ensures var n := StepsPerClass(digitIndices, numClasses);
      var dn := Partner(d, incs[d * n + i], numClasses);
      && i + 1 < |digitIndices[d]| && i < |digitIndices[dn]|
      && digitIndices[d][i] < |x| && digitIndices[d][i + 1] < |x| && digitIndices[dn][i] < |x|
      && ImagesOfPositions(x, digitIndices, numClasses, incs,
           pairs + [Pair(x[digitIndices[d][i]], x[digitIndices[d][i + 1]])]
                 + [Pair(x[digitIndices[d][i]], x[digitIndices[dn][i]])])
  {
    var n := StepsPerClass(digitIndices, numClasses);
    PairsOfStep(digitIndices, numClasses, incs, d, i);
    var dn := Partner(d, incs[d * n + i], numClasses);
    assert digitIndices[d][i] in digitIndices[d] && digitIndices[d][i + 1] in digitIndices[d];
    assert digitIndices[dn][i] in digitIndices[dn];
    AppendImages(x, digitIndices, numClasses, incs, pairs,
      Pair(x[digitIndices[d][i]], x[digitIndices[d][i + 1]]),
      Pair(x[digitIndices[d][i]], x[digitIndices[dn][i]]));
  }

  /** Appending the images of the next two pairs of positions keeps `ImagesOfPositions`. */
  lemma AppendImages<T>(x: seq<T>, digitIndices: seq<seq<nat>>, numClasses: nat, incs: seq<int>,
                        pairs: seq<Pair<T>>, positive: Pair<T>, negative: Pair<T>)
    requires 0 < numClasses <= |digitIndices|
    requires ValidOffsets(incs, numClasses)
    requires numClasses * StepsPerClass(digitIndices, numClasses) <= |incs|
    requires ImagesOfPositions(x, digitIndices, numClasses, incs, pairs)
    requires |pairs| + 2 <= 2 * (numClasses * StepsPerClass(digitIndices, numClasses))
    requires var p := PositionsAt(digitIndices, numClasses, incs, |pairs|);
      p.first < |x| && p.second < |x| && positive == Pair(x[p.first], x[p.second])
    requires var p := PositionsAt(digitIndices, numClasses, incs, |pairs| + 1);
      p.first < |x| && p.second < |x| && negative == Pair(x[p.first], x[p.second])
    ensures ImagesOfPositions(x, digitIndices, numClasses, incs, pairs + [positive] + [negative])
  {
    var longer := pairs + [positive] + [negative];
    forall k | 0 <= k < |longer|
      ensures var p := PositionsAt(digitIndices, numClasses, incs, k);
        p.first < |x| && p.second < |x| && longer[k] == Pair(x[p.first], x[p.second])
    {
      if k < |pairs| {
        assert longer[k] == pairs[k];
      }
    }
  }

  /**
   * `create_pairs`: builds the pairs and their labels with two nested loops,
   * growing both lists by appending. The pairs are those of `PositionsAt`
   * looked up in `x`, the labels alternate `1, 0, 1, 0, ...`, and there are
   * `2 * numClasses * n` of each, half of the labels `1` and half `0`; when
   * some class has fewer than two samples both lists stay empty. No index goes
   * out of bounds.
   */
  method CreatePairs<T>(x: seq<T>, digitIndices: seq<seq<nat>>, numClasses: nat, incs: seq<int>)
    returns (pairs: seq<Pair<T>>, labels: seq<int>)
    requires 2 <= numClasses <= |digitIndices|
    requires ListsIndex(digitIndices, numClasses, |x|)
    requires ValidOffsets(incs, numClasses)
    requires numClasses * StepsPerClass(digitIndices, numClasses) <= |incs|
    ensures |pairs| == |labels| == 2 * (numClasses * StepsPerClass(digitIndices, numClasses))
    ensures Alternating(labels)
    ensures Occurrences(labels, 1) == Occurrences(labels, 0) == numClasses * StepsPerClass(digitIndices, numClasses)
    ensures forall k :: 0 <= k < |pairs| ==>
      var p := PositionsAt(digitIndices, numClasses, incs, k);
      p.first < |x| && p.second < |x| && pairs[k] == Pair(x[p.first], x[p.second])
    ensures (exists d :: 0 <= d < numClasses && |digitIndices[d]| < 2) ==> pairs == [] && labels == []
  {
    ghost var steps := StepsPerClass(digitIndices, numClasses);
    pairs, labels := [], [];
    var n := MinClassSize(digitIndices, numClasses) - 1;
    assert steps == if n > 0 then n else 0;
    var draws := 0;
    var d := 0;
    while d < numClasses
      invariant 0 <= d <= numClasses
      invariant draws == StepsBefore(d, steps)
      invariant |pairs| == |labels| == 2 * draws
      invariant Alternating(labels)
      invariant ImagesOfPositions(x, digitIndices, numClasses, incs, pairs)
    {
      var i := 0;
      while i < n
        invariant 0 <= i <= steps
        invariant draws == StepsBefore(d, steps) + i
        invariant |pairs| == |labels| == 2 * draws
        invariant Alternating(labels)
        invariant ImagesOfPositions(x, digitIndices, numClasses, incs, pairs)
      {
        StepsBeforeIsProduct(d, steps);
        StepJoin(d, i, steps, numClasses);
        ExtendByStep(x, digitIndices, numClasses, incs, pairs, d, i);
        var z1, z2 := digitIndices[d][i], digitIndices[d][i + 1];
        pairs := pairs + [Pair(x[z1], x[z2])];
        var inc := incs[draws];
        var dn := Partner(d, inc, numClasses);
        z1, z2 := digitIndices[d][i], digitIndices[dn][i];
        pairs := pairs + [Pair(x[z1], x[z2])];
        AppendStepLabels(labels);
        labels := labels + [1, 0];
        draws := draws + 1;
        i := i + 1;
      }
      d := d + 1;
    }
    StepsBeforeIsProduct(numClasses, steps);
    BalancedLabels(labels, numClasses * steps);
  }

  /**
   * The number of steps taken by the classes before class `d`, each taking
   * `steps`: `d * steps` written as a running sum, so that the loop invariant
   * of `CreatePairs` stays linear (`StepsBeforeIsProduct` equates the two).
   * It is a proof device with no counterpart in `create_pairs`.
   */
  function StepsBefore(d: nat, steps: nat): nat {
    if d == 0 then 0 else StepsBefore(d - 1, steps) + steps
  }

  /** The classes before `d` take `d * steps` steps together. */
  lemma {:induction false} StepsBeforeIsProduct(d: nat, steps: nat)
    ensures StepsBefore(d, steps) == d * steps
  {
    if d > 0 {
      StepsBeforeIsProduct(d - 1, steps);
      assert d * steps == (d - 1) * steps + steps;
    }
  }
}
