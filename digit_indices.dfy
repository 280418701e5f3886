/**
 * The digit index table of the Siamese-network experiment: for every class
 * label, the dataset positions that hold that label, in increasing order
 * (`np.where(y == i)[0]` for each `i` in `range(num_classes)`).
 */
module DigitIndices {

  /** Each entry is smaller than the next, as `np.where` lists positions. */
  predicate StrictlyAscending(s: seq<nat>) {
    forall j, k :: 0 <= j < k < |s| ==> s[j] < s[k]
  }

  /**
   * The positions of `y` that hold `cls`, in increasing order: a position
   * appears exactly when it holds that class, and no position twice.
   */
  function ClassPositions(y: seq<int>, cls: int): (r: seq<nat>)
    ensures StrictlyAscending(r)
    ensures forall q :: q in r ==> q < |y| && y[q] == cls
    ensures forall p :: 0 <= p < |y| && y[p] == cls ==> p in r
    decreases |y|
  {
    if |y| == 0 then []
    else
      var last := |y| - 1;
      var front := ClassPositions(y[..last], cls);
      assert |y[..last]| == last;
      assert forall j :: 0 <= j < |front| ==> front[j] in front;
      assert forall p :: 0 <= p < last ==> y[..last][p] == y[p];
      front + (if y[last] == cls then [last] else [])
  }

  /**
   * The table built at the start of the experiment, one list per class in
   * `[0, numClasses)`. Each list is ascending, holds only positions of its own
   * class, and every position whose label is a class lands in that class's list.
   */
  function IndexTable(y: seq<int>, numClasses: nat): (table: seq<seq<nat>>)
    ensures |table| == numClasses
    ensures forall d :: 0 <= d < numClasses ==> StrictlyAscending(table[d])
    ensures forall d, q :: 0 <= d < numClasses && q in table[d] ==> q < |y| && y[q] == d
    ensures forall p :: 0 <= p < |y| && 0 <= y[p] < numClasses ==> p in table[y[p]]
  {
    seq(numClasses, d requires 0 <= d < numClasses => ClassPositions(y, d))
  }

  /** Entry `j` of class `d`'s list is a position of the dataset holding label `d`. */
  lemma EntryHoldsItsClass(y: seq<int>, numClasses: nat, d: nat, j: nat)
    requires d < numClasses && j < |IndexTable(y, numClasses)[d]|
    ensures IndexTable(y, numClasses)[d][j] < |y|
    ensures y[IndexTable(y, numClasses)[d][j]] == d
  {
    var table := IndexTable(y, numClasses);
    assert table[d][j] in table[d];
  }

  /** The positions that appear in some list of the table. */
  ghost function Listed(table: seq<seq<nat>>): set<nat> {
    set d, q | 0 <= d < |table| && q in table[d] :: q
  }

  /**
   * The table partitions the positions whose label is a class: the lists are
   * pairwise disjoint, and together they hold exactly those positions.
   */
  lemma TablePartitionsLabelledPositions(y: seq<int>, numClasses: nat)
    ensures var table := IndexTable(y, numClasses);
      forall d, e, q :: 0 <= d < numClasses && 0 <= e < numClasses && q in table[d] && q in table[e] ==> d == e
    ensures Listed(IndexTable(y, numClasses)) == set p | 0 <= p < |y| && 0 <= y[p] < numClasses
  {
    var table := IndexTable(y, numClasses);
    var labelled := set p | 0 <= p < |y| && 0 <= y[p] < numClasses;
    forall p | p in labelled ensures p in Listed(table) {
      assert p in table[y[p]];
    }
  }
}
