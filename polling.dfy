// Batch polling.  A batch poller answers every poll with a batch of data; a
// poll iterator hands out the data of the batches one element at a time,
// polls a new batch only when the current one is used up, and numbers the
// elements 0, 1, 2, ... .  Iteration ends at the first empty batch.

module Polling {
  import opened Wrappers

  /** One polled datum with its position in the polling order. */
  datatype PolledElement<D> = PolledElement(index: nat, data: D)

  /** The data of the batches, one batch after the other, up to the first empty batch. */
  function UntilEmpty<D>(batches: seq<seq<D>>): seq<D> {
    if batches == [] || batches[0] == [] then [] else batches[0] + UntilEmpty(batches[1..])
  }

  lemma UntilEmptyCons<D>(batch: seq<D>, rest: seq<seq<D>>)
    requires batch != []
    ensures UntilEmpty([batch] + rest) == batch + UntilEmpty(rest)
  {
    assert ([batch] + rest)[1..] == rest;
  }

  /** Batches behind the first empty batch are never reached. */
  lemma {:induction false} EmptyBatchEndsIteration<D>(prefix: seq<seq<D>>, rest: seq<seq<D>>)
    requires forall i :: 0 <= i < |prefix| ==> prefix[i] != []
    ensures UntilEmpty(prefix + [[]] + rest) == UntilEmpty(prefix)
    decreases |prefix|
  {
    if prefix == [] {
      assert (prefix + [[]] + rest)[0] == [];
    } else {
      EmptyBatchEndsIteration(prefix[1..], rest);
      assert (prefix + [[]] + rest)[1..] == prefix[1..] + [[]] + rest;
    }
  }

  /** The elements numbered from `start` on, in order. */
  function Indexed<D>(start: nat, items: seq<D>): (r: seq<PolledElement<D>>)
    ensures |r| == |items|
    decreases |items|
  {
    if items == [] then [] else [PolledElement(start, items[0])] + Indexed(start + 1, items[1..])
  }

  /** Element `i` of the numbered data is datum `i` with index `start + i`. */
  lemma {:induction false} IndexedAt<D>(start: nat, items: seq<D>)
    ensures forall i :: 0 <= i < |items| ==> Indexed(start, items)[i] == PolledElement(start + i, items[i])
    decreases |items|
  {
    if items != [] {
      IndexedAt(start + 1, items[1..]);
    }
  }

  /** A batch poller answering with its configured batches in order, then with empty batches. */
  class BatchScript<D> {
    var batches: seq<seq<D>>

    constructor()
      ensures batches == []
    {
      batches := [];
    }

    method WithNextBatch(batch: seq<D>)
      modifies this
      ensures batches == old(batches) + [batch]
    {
      batches := batches + [batch];
    }

    method Poll() returns (r: seq<D>)
      modifies this
      ensures old(batches) != [] ==> r == old(batches)[0] && batches == old(batches)[1..]
      ensures old(batches) == [] ==> r == [] && batches == []
    {
      if batches != [] {
        r := batches[0];
        batches := batches[1..];
      } else {
        r := [];
      }
    }
  }

  /** A cursor over the data of a batch poller. */
  class PollIterator<D> {
    const poller: BatchScript<D>
    /** What is left of the batch polled last. */
    var batch: seq<D>
    var index: nat

    /** A fresh cursor: index 0 and no current batch. */
    constructor(poller: BatchScript<D>)
      ensures this.poller == poller && batch == [] && index == 0
    {
      this.poller := poller;
      batch := [];
      index := 0;
    }

    /** The data this cursor will still hand out. */
    ghost function Remaining(): seq<D>
      reads this, poller
    {
      batch + UntilEmpty(poller.batches)
    }

    /** Polls a new batch when, and only when, the current one is used up. */
    method Step()
      modifies this, poller
      ensures old(batch) != [] ==> batch == old(batch) && poller.batches == old(poller.batches)
      ensures old(batch) == [] && old(poller.batches) != [] ==>
                batch == old(poller.batches)[0] && poller.batches == old(poller.batches)[1..]
      ensures old(batch) == [] && old(poller.batches) == [] ==> batch == [] && poller.batches == []
      ensures index == old(index)
      ensures batch != [] <==> old(Remaining()) != []
      ensures batch != [] ==> Remaining() == old(Remaining())
    {
      if batch == [] {
        batch := poller.Poll();
      }
    }

    /** Whether data is left before the next empty batch; a call on a non-empty batch does not poll. */
    method HasNext() returns (r: bool)
      modifies this, poller
      ensures r <==> old(Remaining()) != []
      ensures r ==> Remaining() == old(Remaining())
      ensures old(batch) != [] ==> poller.batches == old(poller.batches) && batch == old(batch)
      ensures index == old(index)
    {
      Step();
      r := batch != [];
    }

    /**
     * The next datum with the next index.  The index is taken before the datum,
     * so it also advances when nothing is left and the call fails (None).
     */
    method Next() returns (r: Option<PolledElement<D>>)
      modifies this, poller
      ensures index == old(index) + 1
      ensures old(Remaining()) != [] ==>
                r == Some(PolledElement(old(index), old(Remaining())[0])) &&
                Remaining() == old(Remaining())[1..]
      ensures old(Remaining()) == [] ==> r == None
    {
      Step();
      var position := index;
      index := index + 1;
      if batch != [] {
        r := Some(PolledElement(position, batch[0]));
        batch := batch[1..];
      } else {
        r := None;
      }
    }
  }

  /** An iterable over a batch poller: every iterator is a fresh cursor. */
  class DataPoller<D> {
    const poller: BatchScript<D>

    constructor(poller: BatchScript<D>)
      ensures this.poller == poller
    {
      this.poller := poller;
    }

    method Iterator() returns (it: PollIterator<D>)
      ensures fresh(it) && it.poller == poller && it.index == 0 && it.batch == []
      ensures it.Remaining() == UntilEmpty(poller.batches)
    {
      it := new PollIterator(poller);
    }
  }

  /** Iterates the data of an indexed cursor, without the indices. */
  class DataIterator<D> {
    const indexed: PollIterator<D>

    constructor(indexed: PollIterator<D>)
      ensures this.indexed == indexed
    {
      this.indexed := indexed;
    }

    method HasNext() returns (r: bool)
      modifies indexed, indexed.poller
      ensures r <==> old(indexed.Remaining()) != []
      ensures r ==> indexed.Remaining() == old(indexed.Remaining())
      ensures indexed.index == old(indexed.index)
    {
      r := indexed.HasNext();
    }

    method Next() returns (r: Option<D>)
      modifies indexed, indexed.poller
      ensures indexed.index == old(indexed.index) + 1
      ensures old(indexed.Remaining()) != [] ==>
                r == Some(old(indexed.Remaining())[0]) && indexed.Remaining() == old(indexed.Remaining())[1..]
      ensures old(indexed.Remaining()) == [] ==> r == None
    {
      var e := indexed.Next();
      r := if e.Some? then Some(e.value.data) else None;
    }
  }

  /** An iterable whose iterators all share one indexed cursor, created with the iterable. */
  class Poller<D> {
    const indexed: PollIterator<D>

    constructor(indexed: PollIterator<D>)
      ensures this.indexed == indexed
    {
      this.indexed := indexed;
    }

    method Iterator() returns (it: DataIterator<D>)
      ensures fresh(it) && it.indexed == indexed
    {
      it := new DataIterator(indexed);
    }
  }

  /** A data poller over the given batch poller. */
  method CreateIndexedPoller<D>(poller: BatchScript<D>) returns (r: DataPoller<D>)
    ensures fresh(r) && r.poller == poller
  {
    r := new DataPoller(poller);
  }

  /** A poller without indices, over one cursor of an indexed poller. */
  method CreatePoller<D>(poller: BatchScript<D>) returns (r: Poller<D>)
    ensures fresh(r) && fresh(r.indexed) && r.indexed.poller == poller
    ensures r.indexed.index == 0 && r.indexed.Remaining() == UntilEmpty(poller.batches)
  {
    var data := CreateIndexedPoller(poller);
    var indexed := data.Iterator();
    r := new Poller(indexed);
  }

  /** A for-each loop over an indexed cursor: every datum up to the first empty batch, numbered on. */
  method ForEach<D>(it: PollIterator<D>) returns (out: seq<PolledElement<D>>)
    modifies it, it.poller
    ensures out == Indexed(old(it.index), old(it.Remaining()))
  {
    out := [];
    ghost var start := it.index;
    ghost var all := it.Remaining();
    ghost var rest := it.Remaining();
    var has := it.HasNext();
    while has
      invariant has <==> rest != []
      invariant has ==> it.Remaining() == rest
      invariant it.index == start + |out|
      invariant Indexed(start, all) == out + Indexed(it.index, rest)
      decreases |rest|
    {
      var e := it.Next();
      assert Indexed(start + |out|, rest) == [e.value] + Indexed(start + |out| + 1, rest[1..]);
      assert out + ([e.value] + Indexed(start + |out| + 1, rest[1..])) ==
             (out + [e.value]) + Indexed(start + |out| + 1, rest[1..]);
      out := out + [e.value];
      rest := rest[1..];
      has := it.HasNext();
    }
  }

  /** A for-each loop over a data iterator: every datum up to the first empty batch. */
  method ForEachData<D>(it: DataIterator<D>) returns (out: seq<D>)
    modifies it.indexed, it.indexed.poller
    ensures out == old(it.indexed.Remaining())
    ensures it.indexed.index == old(it.indexed.index) + |out|
  {
    out := [];
    ghost var all := it.indexed.Remaining();
    ghost var rest := it.indexed.Remaining();
    var has := it.HasNext();
    while has
      invariant has <==> rest != []
      invariant has ==> it.indexed.Remaining() == rest
      invariant it.indexed.index == old(it.indexed.index) + |out|
      invariant all == out + rest
      decreases |rest|
    {
      var e := it.Next();
      out := out + [e.value];
      assert all == out + rest[1..];
      rest := it.indexed.Remaining();
      has := it.HasNext();
    }
  }

  /** The indices of polled elements, in order. */
  function IndexesOf<D>(elements: seq<PolledElement<D>>): (r: seq<nat>)
    ensures |r| == |elements| && forall i :: 0 <= i < |r| ==> r[i] == elements[i].index
  {
    seq(|elements|, i requires 0 <= i < |elements| => elements[i].index)
  }

  /** The data of polled elements, in order. */
  function DataOf<D>(elements: seq<PolledElement<D>>): (r: seq<D>)
    ensures |r| == |elements| && forall i :: 0 <= i < |r| ==> r[i] == elements[i].data
  {
    seq(|elements|, i requires 0 <= i < |elements| => elements[i].data)
  }

  /** Numbering keeps the data; the indices count up from the start. */
  lemma IndexedProjections<D>(start: nat, items: seq<D>)
    ensures DataOf(Indexed(start, items)) == items
    ensures forall i :: 0 <= i < |items| ==> IndexesOf(Indexed(start, items))[i] == start + i
  {
    IndexedAt(start, items);
  }

  /** A batch poller configured with [1,2,3], [4,5,6] and [7,8,9]. */
  method ThreeBatches() returns (script: BatchScript<int>)
    ensures fresh(script) && UntilEmpty(script.batches) == [1, 2, 3, 4, 5, 6, 7, 8, 9]
  {
    script := new BatchScript<int>();
    script.WithNextBatch([1, 2, 3]);
    script.WithNextBatch([4, 5, 6]);
    script.WithNextBatch([7, 8, 9]);
    UntilEmptyCons([7, 8, 9], []);
    UntilEmptyCons([4, 5, 6], [[7, 8, 9]]);
    UntilEmptyCons([1, 2, 3], [[4, 5, 6], [7, 8, 9]]);
    assert script.batches == [[1, 2, 3]] + [[4, 5, 6], [7, 8, 9]];
  }

  /** Batches [1,2,3], [4,5,6], [7,8,9] give the data 1..9 with the indices 0..8. */
  method PollNineInThreeBatches() returns (indexes: seq<nat>, dataItems: seq<int>)
    ensures indexes == [0, 1, 2, 3, 4, 5, 6, 7, 8]
    ensures dataItems == [1, 2, 3, 4, 5, 6, 7, 8, 9]
  {
    var script := ThreeBatches();
    var poller := new DataPoller(script);
    var it := poller.Iterator();
    ghost var items := it.Remaining();
    var elements := ForEach(it);
    NumberedFromZero(elements, items);
    indexes := IndexesOf(elements);
    dataItems := DataOf(elements);
    FirstNine(indexes);
  }

  /** Nine positions, each holding its own index, are the indices 0 to 8. */
  lemma FirstNine(s: seq<nat>)
    requires |s| == 9 && forall i :: 0 <= i < |s| ==> s[i] == i
    ensures s == [0, 1, 2, 3, 4, 5, 6, 7, 8]
  {
    assert s[0] == 0 && s[1] == 1 && s[2] == 2 && s[3] == 3 && s[4] == 4;
    assert s[5] == 5 && s[6] == 6 && s[7] == 7 && s[8] == 8;
  }

  /** Elements numbered from 0: their data are the items, and each index is the position. */
  lemma NumberedFromZero<D>(elements: seq<PolledElement<D>>, items: seq<D>)
    requires elements == Indexed(0, items)
    ensures DataOf(elements) == items
    ensures |IndexesOf(elements)| == |items|
    ensures forall i :: 0 <= i < |items| ==> IndexesOf(elements)[i] == i
  {
    IndexedProjections(0, items);
  }

  /** Three single-element batches through the indexed poller: indices 0, 1, 2. */
  method PollWithIndexing() returns (indexes: seq<nat>, polledData: seq<int>)
    ensures indexes == [0, 1, 2] && polledData == [1, 1, 1]
  {
    var script := new BatchScript<int>();
    script.WithNextBatch([1]);
    script.WithNextBatch([1]);
    script.WithNextBatch([1]);
    assert UntilEmpty(script.batches) == [1, 1, 1] by {
      UntilEmptyCons([1], []);
      UntilEmptyCons([1], [[1]]);
      UntilEmptyCons([1], [[1], [1]]);
      assert script.batches == [[1]] + [[1], [1]];
    }
    var poller := CreateIndexedPoller(script);
    var it := poller.Iterator();
    ghost var items := it.Remaining();
    var elements := ForEach(it);
    NumberedFromZero(elements, items);
    indexes := IndexesOf(elements);
    polledData := DataOf(elements);
    assert indexes == [0, 1, 2] by {
      assert |indexes| == 3 && indexes[0] == 0 && indexes[1] == 1 && indexes[2] == 2;
    }
  }

  /** The same three batches through the poller without indices. */
  method PollWithoutIndexing() returns (polledData: seq<int>)
    ensures polledData == [1, 1, 1]
  {
    var script := new BatchScript<int>();
    script.WithNextBatch([1]);
    script.WithNextBatch([1]);
    script.WithNextBatch([1]);
    assert UntilEmpty(script.batches) == [1, 1, 1] by {
      UntilEmptyCons([1], []);
      UntilEmptyCons([1], [[1]]);
      UntilEmptyCons([1], [[1], [1]]);
      assert script.batches == [[1]] + [[1], [1]];
    }
    var poller := CreatePoller(script);
    var it := poller.Iterator();
    polledData := ForEachData(it);
  }

  /** Two iterators of one poller without indices share its cursor: the second continues the first. */
  method SharedCursor() returns (first: Option<int>, second: Option<int>)
    ensures first == Some(1) && second == Some(2)
  {
    var script := new BatchScript<int>();
    script.WithNextBatch([1, 2]);
    assert UntilEmpty(script.batches) == [1, 2] by {
      assert script.batches[1..] == [];
    }
    var poller := CreatePoller(script);
    var one := poller.Iterator();
    var two := poller.Iterator();
    first := one.Next();
    second := two.Next();
  }
}
