/** The batch loop of `process_courses` (app.py:122-142): the course tasks are awaited three at a
    time, in order, and a progress label is shown after each batch. */
module Batching {

  function Min(a: int, b: int): int {
    if a <= b then a else b
  }

  /** How many values `range(0, n, 3)` yields: the tasks are awaited three at a time. */
  function NumBatches(n: nat): (count: nat)
    ensures n == 0 <==> count == 0
    ensures count * 3 >= n
    ensures count > 0 ==> (count - 1) * 3 < n
  {
    (n + 2) / 3
  }

  /** The consecutive slices of at most three tasks, in order. */
  function Batches<T>(s: seq<T>): (batches: seq<seq<T>>)
    ensures |batches| == NumBatches(|s|)
    decreases |s|
  {
    if s == [] then []
    else
      var size := Min(3, |s|);
      [s[..size]] + Batches(s[size..])
  }

  /** One more element of a prefix. */
  lemma TakeOneMore<T>(s: seq<T>, i: nat)
    requires i < |s|
    ensures s[..i + 1] == s[..i] + [s[i]]
  {
  }

  /** The batches laid end to end. */
  function Flatten<T>(batches: seq<seq<T>>): seq<T> {
    if batches == [] then [] else batches[0] + Flatten(batches[1..])
  }

  /** Batch `i` is the slice `s[3i : 3i + 3]`, cut short at the end of `s`. */
  lemma {:induction false} BatchAt<T>(s: seq<T>, i: nat)
    requires i < NumBatches(|s|)
    ensures i * 3 < |s|
    ensures Batches(s)[i] == s[i * 3 .. Min(i * 3 + 3, |s|)]
    decreases i
  {
    if i > 0 {
      var size := Min(3, |s|);
      BatchAt(s[size..], i - 1);
      assert Batches(s)[i] == Batches(s[size..])[i - 1];
    }
  }

  /** The batches partition the tasks: laid end to end they give back the task list. */
  lemma {:induction false} BatchesPartition<T>(s: seq<T>)
    ensures Flatten(Batches(s)) == s
    decreases |s|
  {
    if s != [] {
      var size := Min(3, |s|);
      BatchesPartition(s[size..]);
      assert ([s[..size]] + Batches(s[size..]))[1..] == Batches(s[size..]);
      assert s[..size] + s[size..] == s;
    }
  }

  /** Every batch holds one to three tasks, and all but the last hold exactly three. */
  lemma BatchSizes<T>(s: seq<T>, i: nat)
    requires i < NumBatches(|s|)
    ensures 1 <= |Batches(s)[i]| <= 3
    ensures i < NumBatches(|s|) - 1 ==> |Batches(s)[i]| == 3
  {
    BatchAt(s, i);
  }

  /** What the page shows after batch `i` of `total` tasks: the completed count the progress bar is
      computed from (`i*3 + len(batch)`), and the label range `i*3+1 .. min(i*3+3, total)`. */
  datatype Progress = Progress(completed: nat, first: nat, last: nat, total: nat)

  function ProgressAt(total: nat, i: nat): (p: Progress)
    requires i < NumBatches(total)
    ensures p.total == total > 0
    ensures p.completed == p.last
    ensures 1 <= p.first <= p.last <= p.total
    ensures p.last - p.first < 3
    ensures p.completed == total <==> i == NumBatches(total) - 1
  {
    var batchLen := Min(3, total - i * 3);
    Progress(i * 3 + batchLen, i * 3 + 1, Min(i * 3 + 3, total), total)
  }

  /** The progress after every batch, in order. */
  function BatchProgress(total: nat): (ps: seq<Progress>)
    ensures |ps| == NumBatches(total)
    ensures forall i :: 0 <= i < |ps| ==> ps[i] == ProgressAt(total, i)
  {
    seq(NumBatches(total), i requires 0 <= i < NumBatches(total) => ProgressAt(total, i))
  }

  /** The completed count only grows, one batch at a time, and reaches the total with the last
      batch; with no tasks no batch runs, so nothing is ever divided by a zero total. */
  lemma ProgressIsMonotone(total: nat)
    ensures BatchProgress(total) == [] <==> total == 0
    ensures forall i :: 0 < i < NumBatches(total) ==>
              BatchProgress(total)[i - 1].completed < BatchProgress(total)[i].completed
    ensures total > 0 ==> BatchProgress(total)[NumBatches(total) - 1].completed == total
  {
  }
}
