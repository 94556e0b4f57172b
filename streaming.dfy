// Pull-based streaming.  A direct stream is the connection between a source
// and a destination: the stream asks the source to read, the source submits
// one item (or completes), the stream counts the item, notifies its
// observers, hands the item to the destination, and the destination asks the
// stream to receive the next item.  A rechargeable source chains a queue of
// sources, reading the next one whenever the current one completes.

module Streaming {
  import opened Wrappers

  /** One data item with its size, as submitted by a source. */
  datatype SubmitIteration = SubmitIteration(data: int, size: int)

  /** A status notification: an observer, and the transferred size it was shown. */
  datatype Notification = Notification(observer: nat, size: int)

  function SumSizes(items: seq<SubmitIteration>): int {
    if items == [] then 0 else items[0].size + SumSizes(items[1..])
  }

  /** One notification per observer, in registration order. */
  function Broadcast(observers: seq<nat>, size: int): (r: seq<Notification>)
    ensures |r| == |observers|
    ensures forall i :: 0 <= i < |r| ==> r[i] == Notification(observers[i], size)
  {
    seq(|observers|, i requires 0 <= i < |observers| => Notification(observers[i], size))
  }

  /** The notifications for submitting `items`, starting from the transferred size `total`. */
  function Notices(observers: seq<nat>, total: int, items: seq<SubmitIteration>): seq<Notification>
    decreases |items|
  {
    if items == [] then []
    else
      var t := total + items[0].size;
      Broadcast(observers, t) + Notices(observers, t, items[1..])
  }

  /** A source that submits its configured iterations in order, then completes. */
  class MockSource {
    var iterations: seq<SubmitIteration>
    var released: bool

    constructor()
      ensures iterations == [] && !released
    {
      iterations := [];
      released := false;
    }

    /** Queues one more iteration behind the configured ones. */
    method WithNextIteration(item: SubmitIteration)
      modifies this
      ensures iterations == old(iterations) + [item] && released == old(released)
    {
      iterations := iterations + [item];
    }

    method Release()
      modifies this
      ensures released && iterations == old(iterations)
    {
      released := true;
    }

    /** Takes the head of the configured iterations. */
    method TakeNext() returns (item: SubmitIteration)
      requires iterations != []
      modifies this
      ensures [item] + iterations == old(iterations) && released == old(released)
    {
      item := iterations[0];
      iterations := iterations[1..];
    }

    /** Submits the next iteration to the connection, or completes it when none is left. */
    method Read(c: Connection)
      requires ConnOk(c) && StreamOf(c).Valid() && ReaderOf(c, this)
      modifies StreamOf(c).Repr
      ensures StreamOf(c).Valid()
      ensures Finished(old(StreamOf(c).View()), StreamOf(c).View())
      decreases StreamOf(c).Pending(), 1, 0, 0
    {
      StreamOf(c).ReaderRemaining(c, this);
      if iterations != [] {
        ReadNext(c);
      } else {
        CompleteOn(c);
      }
    }

    /** Takes the next iteration and submits it to the connection. */
    method ReadNext(c: Connection)
      requires ConnOk(c) && StreamOf(c).Valid() && ReaderOf(c, this) && iterations != []
      modifies StreamOf(c).Repr
      ensures StreamOf(c).Valid()
      ensures Finished(old(StreamOf(c).View()), StreamOf(c).View())
      decreases StreamOf(c).Pending(), 0, 0, 0
    {
      ghost var s := StreamOf(c);
      ghost var before := s.View();
      ghost var rest := s.RestAfterCurrent();
      s.ReaderRemaining(c, this);
      assert before.remaining == iterations + rest;
      var item := TakeNext();
      assert s.RestAfterCurrent() == rest;
      assert s.CurrentIterations() == iterations;
      assert s.View() == before.(remaining := before.remaining[1..]) by {
        assert before.remaining[1..] == iterations + rest;
      }
      SubmitOn(c, item.data, item.size);
      FinishedAfterTake(before, item, s.View());
    }
  }

  /** A destination that records every write and then pulls the next item. */
  class MockDestination {
    var history: seq<SubmitIteration>
    var released: bool

    constructor()
      ensures history == [] && !released
    {
      history := [];
      released := false;
    }

    method Release()
      modifies this
      ensures released && history == old(history)
    {
      released := true;
    }

    /** Records the item, then asks the stream for the next one. */
    method Write(s: DirectStream, data: int, size: int)
      requires s.Valid() && s.CanRead() && s.destination == this
      modifies s.Repr
      ensures s.Valid()
      ensures Finished(old(s.View()).(history := old(s.View()).history + [SubmitIteration(data, size)]), s.View())
      decreases s.Pending(), 4, 0, 0
    {
      history := history + [SubmitIteration(data, size)];
      s.Receive();
    }
  }

  /** A source reading a queue of sources one after the other. */
  class RechargeableSource {
    /** The queue as given; the first `polled` of them have been taken off it. */
    const sources: seq<MockSource>
    var polled: nat
    var current: Option<MockSource>

    ghost predicate Valid()
      reads this
    {
      polled <= |sources| &&
      current == (if polled == 0 then None else Some(sources[polled - 1])) &&
      forall i, j :: 0 <= i < j < |sources| ==> sources[i] != sources[j]
    }

    /** The sources still queued. */
    function Queue(): seq<MockSource>
      reads this
      requires polled <= |sources|
    {
      sources[polled..]
    }

    /** Takes the first source off the queue as the current one. */
    constructor(sources: seq<MockSource>)
      requires forall i, j :: 0 <= i < j < |sources| ==> sources[i] != sources[j]
      ensures this.sources == sources && Valid()
      ensures sources != [] ==> current == Some(sources[0]) && Queue() == sources[1..]
      ensures sources == [] ==> current == None && Queue() == []
    {
      this.sources := sources;
      polled := 0;
      current := None;
      new;
      Recharge();
    }

    /** Polls the queue: the head becomes current, or nothing when the queue is empty. */
    method Recharge()
      requires polled <= |sources|
      modifies this
      ensures polled <= |sources|
      ensures old(Queue()) != [] ==> current == Some(old(Queue())[0]) && polled == old(polled) + 1
      ensures old(Queue()) == [] ==> current == None && polled == old(polled)
    {
      if polled < |sources| {
        current := Some(sources[polled]);
        polled := polled + 1;
      } else {
        current := None;
      }
    }

    /** Release is a no-op: the chained sources are not released by it. */
    method Release()
    {
    }

    /** Reads the current source through a connection wrapping `c`. */
    method Read(c: Connection)
      requires ConnOk(c) && StreamOf(c).Valid() && StreamOf(c).source == RechargeableRef(this)
      requires current.Some?
      modifies StreamOf(c).Repr
      ensures StreamOf(c).Valid()
      ensures Finished(old(StreamOf(c).View()), StreamOf(c).View())
      decreases StreamOf(c).Pending(), 2, 0, 0
    {
      current.value.Read(Wrapped(this, c));
    }

    /**
     * Completion of the wrapping connection `c`: with sources left, the next
     * one becomes current and is read; otherwise the wrapped connection completes.
     */
    method ConnectionComplete(c: Connection)
      requires c.Wrapped? && c.owner == this && ConnOk(c) && StreamOf(c).Valid()
      requires StreamOf(c).CurrentIterations() == []
      modifies StreamOf(c).Repr
      ensures StreamOf(c).Valid()
      ensures Finished(old(StreamOf(c).View()), StreamOf(c).View())
      decreases StreamOf(c).Pending(), 0, Depth(c), 1
    {
      if polled < |sources| {
        ReadQueued(c);
      } else {
        CompleteOn(c.inner);
      }
    }

    /** `readNextSourceFromQueue`: the queue's head becomes current and is read through `c`; the items still to come are unchanged by the switch. */
    method ReadQueued(c: Connection)
      requires c.Wrapped? && c.owner == this && ConnOk(c) && StreamOf(c).Valid()
      requires StreamOf(c).CurrentIterations() == [] && polled < |sources|
      modifies StreamOf(c).Repr
      ensures StreamOf(c).Valid()
      ensures Finished(old(StreamOf(c).View()), StreamOf(c).View())
      decreases StreamOf(c).Pending(), 0, Depth(c), 0
    {
      ghost var s := StreamOf(c);
      ghost var before := s.View();
      FlattenFromStep(sources, polled);
      Recharge();
      assert s.View() == before;
      Read(c);
    }
  }

  /** How a source talks back: the stream itself, or a rechargeable source's wrapper around a connection. */
  datatype Connection = Direct(stream: DirectStream) | Wrapped(owner: RechargeableSource, inner: Connection)

  datatype SourceRef = MockRef(mock: MockSource) | RechargeableRef(rs: RechargeableSource)

  function StreamOf(c: Connection): DirectStream {
    match c
    case Direct(s) => s
    case Wrapped(_, inner) => StreamOf(inner)
  }

  function Depth(c: Connection): nat {
    match c
    case Direct(_) => 0
    case Wrapped(_, inner) => 1 + Depth(inner)
  }

  /** Every wrapper of `c` belongs to the stream's rechargeable source. */
  predicate ConnOk(c: Connection) {
    match c
    case Direct(_) => true
    case Wrapped(owner, inner) => StreamOf(c).source == RechargeableRef(owner) && ConnOk(inner)
  }

  /** `m` is the source that reads for connection `c`. */
  ghost predicate ReaderOf(c: Connection, m: MockSource)
    reads if c.Wrapped? then {c.owner} else {}
  {
    match c
    case Direct(s) => s.source == MockRef(m)
    case Wrapped(owner, _) => owner.current == Some(m)
  }

  /** The iterations of `ms[k..]`, one source after the other. */
  function FlattenFrom(ms: seq<MockSource>, k: nat): seq<SubmitIteration>
    requires k <= |ms|
    reads set i | k <= i < |ms| :: ms[i]
    decreases |ms| - k
  {
    if k == |ms| then [] else ms[k].iterations + FlattenFrom(ms, k + 1)
  }

  lemma FlattenFromStep(ms: seq<MockSource>, k: nat)
    requires k < |ms|
    ensures FlattenFrom(ms, k) == ms[k].iterations + FlattenFrom(ms, k + 1)
  {
  }

  /** Everything an observer of the stream can see, plus the items still to come. */
  datatype Snapshot = Snapshot(history: seq<SubmitIteration>, transferred: int,
                               notifications: seq<Notification>, observers: seq<nat>,
                               remaining: seq<SubmitIteration>, destinationReleased: bool,
                               sourceReleased: Option<bool>)

  /**
   * A run to the end: every remaining item reached the destination in order,
   * was counted and announced to every observer; the destination is released,
   * and a source with a release flag of its own is released.
   */
  predicate Finished(b: Snapshot, a: Snapshot) {
    a.history == b.history + b.remaining &&
    a.transferred == b.transferred + SumSizes(b.remaining) &&
    a.notifications == b.notifications + Notices(b.observers, b.transferred, b.remaining) &&
    a.observers == b.observers && a.remaining == [] && a.destinationReleased &&
    a.sourceReleased == (if b.sourceReleased.Some? then Some(true) else None)
  }

  /** The state right after one item was counted and announced, before it is written. */
  function Counted(b: Snapshot, item: SubmitIteration): Snapshot {
    var t := b.transferred + item.size;
    b.(transferred := t, notifications := b.notifications + Broadcast(b.observers, t))
  }

  /** Finishing after an item was counted, announced and written is finishing with that item first. */
  lemma FinishedAfterSubmit(b: Snapshot, item: SubmitIteration, a: Snapshot)
    requires Finished(Counted(b, item).(history := b.history + [item]), a)
    ensures Finished(b.(remaining := [item] + b.remaining), a)
  {
    var r := [item] + b.remaining;
    assert r[0] == item && r[1..] == b.remaining;
    var t := b.transferred + item.size;
    assert SumSizes(r) == item.size + SumSizes(b.remaining);
    assert Notices(b.observers, b.transferred, r) == Broadcast(b.observers, t) + Notices(b.observers, t, b.remaining);
    assert b.notifications + Broadcast(b.observers, t) + Notices(b.observers, t, b.remaining) ==
           b.notifications + (Broadcast(b.observers, t) + Notices(b.observers, t, b.remaining));
    assert b.history + [item] + b.remaining == b.history + r;
  }

  /** Finishing after the first remaining item was taken and submitted is finishing from before the take. */
  lemma FinishedAfterTake(b: Snapshot, item: SubmitIteration, a: Snapshot)
    requires b.remaining != [] && b.remaining[0] == item
    requires Finished(Counted(b.(remaining := b.remaining[1..]), item).(history := b.history + [item]), a)
    ensures Finished(b, a)
  {
    var mid := b.(remaining := b.remaining[1..]);
    FinishedAfterSubmit(mid, item, a);
    assert [item] + mid.remaining == b.remaining;
    assert mid.(remaining := [item] + mid.remaining) == b;
  }

  /** The transferred counter, read when asked rather than copied. */
  class Stat {
    const stream: DirectStream

    constructor(stream: DirectStream)
      ensures this.stream == stream
    {
      this.stream := stream;
    }

    function Size(): int
      reads stream
    {
      stream.transferred
    }
  }

  class DirectStream {
    const source: SourceRef
    const destination: MockDestination
    var observers: seq<nat>
    var transferred: int
    /** What every observer was shown, in order. */
    var notifications: seq<Notification>
    ghost const Repr: set<object>

    static function SourceObjects(source: SourceRef): (r: set<object>)
      ensures source.MockRef? ==> source.mock in r
      ensures source.RechargeableRef? ==>
                source.rs in r && forall i :: 0 <= i < |source.rs.sources| ==> source.rs.sources[i] in r
    {
      match source
      case MockRef(m) => {m}
      case RechargeableRef(rs) => {rs as object} + set i | 0 <= i < |rs.sources| :: rs.sources[i] as object
    }

    ghost predicate Valid()
      reads this, Repr
    {
      Repr == {this, destination} + SourceObjects(source) &&
      (source.RechargeableRef? ==> source.rs.Valid())
    }

    /** A current source exists to read from. */
    ghost predicate CanRead()
      reads this, Repr
      requires Valid()
    {
      source.RechargeableRef? ==> source.rs.current.Some?
    }

    /** The iterations left in the source that reads now. */
    function CurrentIterations(): seq<SubmitIteration>
      reads SourceObjects(source), if source.RechargeableRef? then {source.rs} else {}
      requires source.RechargeableRef? ==> source.rs.Valid()
    {
      match source
      case MockRef(m) => m.iterations
      case RechargeableRef(rs) => if rs.current.Some? then rs.current.value.iterations else []
    }

    /** The iterations of the sources still queued behind the one that reads now. */
    function RestAfterCurrent(): seq<SubmitIteration>
      reads SourceObjects(source), if source.RechargeableRef? then {source.rs} else {}
      requires source.RechargeableRef? ==> source.rs.Valid()
    {
      match source
      case MockRef(_) => []
      case RechargeableRef(rs) => FlattenFrom(rs.sources, rs.polled)
    }

    /** The items the source will still submit, in order. */
    function Remaining(): seq<SubmitIteration>
      reads SourceObjects(source), if source.RechargeableRef? then {source.rs} else {}
      requires source.RechargeableRef? ==> source.rs.Valid()
    {
      CurrentIterations() + RestAfterCurrent()
    }

    /** A bound on the reads and reloads left: it drops with every item and every recharge. */
    function Pending(): nat
      reads SourceObjects(source), if source.RechargeableRef? then {source.rs} else {}
      requires source.RechargeableRef? ==> source.rs.Valid()
    {
      |Remaining()| + match source case MockRef(_) => 0 case RechargeableRef(rs) => |rs.sources| - rs.polled
    }

    function View(): Snapshot
      reads this, Repr
      requires Valid()
    {
      Snapshot(destination.history, transferred, notifications, observers, Remaining(),
               destination.released,
               match source case MockRef(m) => Some(m.released) case RechargeableRef(_) => None)
    }

    constructor(source: SourceRef, destination: MockDestination)
      requires source.RechargeableRef? ==> source.rs.Valid()
      ensures this.source == source && this.destination == destination && Valid()
      ensures observers == [] && transferred == 0 && notifications == []
    {
      this.source := source;
      this.destination := destination;
      observers := [];
      transferred := 0;
      notifications := [];
      Repr := {this, destination} + SourceObjects(source);
    }

    /** The reading source's iterations come first, then those of the queued sources. */
    lemma ReaderRemaining(c: Connection, m: MockSource)
      requires ConnOk(c) && StreamOf(c) == this && Valid() && ReaderOf(c, m)
      ensures m in Repr && CurrentIterations() == m.iterations
      ensures source.RechargeableRef? ==>
                m !in (set i | source.rs.polled <= i < |source.rs.sources| :: source.rs.sources[i])
    {
      if c.Wrapped? {
        var rs := c.owner;
        assert source == RechargeableRef(rs);
        assert m == rs.sources[rs.polled - 1];
        assert m in rs.sources;
      }
    }

    /** Registers an observer and returns the same stream. */
    method ObserveStatus(observer: nat) returns (r: DirectStream)
      modifies this
      ensures r == this && observers == old(observers) + [observer]
      ensures transferred == old(transferred) && notifications == old(notifications)
    {
      observers := observers + [observer];
      r := this;
    }

    /** Runs the whole transfer, then resolves with a statistic over the counter. */
    method Start() returns (stat: Stat)
      requires Valid() && CanRead()
      modifies Repr
      ensures Valid() && Finished(old(View()), View())
      ensures fresh(stat) && stat.stream == this
      ensures stat.Size() == old(transferred) + SumSizes(old(Remaining()))
    {
      Receive();
      stat := new Stat(this);
    }

    /** Counts the item, notifies the observers, then writes it to the destination. */
    method Submit(data: int, size: int)
      requires Valid() && CanRead()
      modifies Repr
      ensures Valid()
      ensures Finished(Counted(old(View()), SubmitIteration(data, size)).(
                         history := old(View()).history + [SubmitIteration(data, size)]), View())
      decreases Pending(), 5, 0, 0
    {
      ghost var before := View();
      transferred := transferred + size;
      NotifyObservers();
      assert View() == Counted(before, SubmitIteration(data, size));
      destination.Write(this, data, size);
    }

    /** Asks the source to read on this connection. */
    method Receive()
      requires Valid() && CanRead()
      modifies Repr
      ensures Valid() && Finished(old(View()), View())
      decreases Pending(), 3, 0, 0
    {
      match source
      case MockRef(m) => m.Read(Direct(this));
      case RechargeableRef(rs) => rs.Read(Direct(this));
    }

    /** Releases the source, then the destination. */
    method Complete()
      requires Valid()
      modifies Repr
      ensures Valid()
      ensures destination.released && destination.history == old(destination.history)
      ensures observers == old(observers) && transferred == old(transferred) && notifications == old(notifications)
      ensures source.MockRef? ==> source.mock.released && source.mock.iterations == old(source.mock.iterations)
      ensures source.RechargeableRef? ==> forall o :: o in SourceObjects(source) ==> unchanged(o)
    {
      match source {
        case MockRef(m) => m.Release();
        case RechargeableRef(rs) => rs.Release();
      }
      destination.Release();
    }

    method NotifyObservers()
      modifies this
      ensures notifications == old(notifications) + Broadcast(observers, transferred)
      ensures observers == old(observers) && transferred == old(transferred)
    {
      var i := 0;
      while i < |observers|
        invariant 0 <= i <= |observers|
        invariant observers == old(observers) && transferred == old(transferred)
        invariant notifications == old(notifications) + Broadcast(observers[..i], transferred)
      {
        assert Broadcast(observers[..i + 1], transferred) ==
               Broadcast(observers[..i], transferred) + [Notification(observers[i], transferred)];
        notifications := notifications + [Notification(observers[i], transferred)];
        i := i + 1;
      }
      assert observers[..i] == observers;
    }
  }

  /** Submission on a connection: every wrapper passes the item on unchanged. */
  method SubmitOn(c: Connection, data: int, size: int)
    requires ConnOk(c) && StreamOf(c).Valid() && StreamOf(c).CanRead()
    modifies StreamOf(c).Repr
    ensures StreamOf(c).Valid()
    ensures Finished(Counted(old(StreamOf(c).View()), SubmitIteration(data, size)).(
                       history := old(StreamOf(c).View()).history + [SubmitIteration(data, size)]),
                     StreamOf(c).View())
    decreases StreamOf(c).Pending(), 6, Depth(c), 0
  {
    match c
    case Direct(s) => s.Submit(data, size);
    case Wrapped(_, inner) => SubmitOn(inner, data, size);
  }

  /** Completion on a connection: the stream releases both ends; a wrapper may recharge. */
  method CompleteOn(c: Connection)
    requires ConnOk(c) && StreamOf(c).Valid()
    requires StreamOf(c).CurrentIterations() == []
    requires c.Direct? ==> StreamOf(c).Remaining() == []
    modifies StreamOf(c).Repr
    ensures StreamOf(c).Valid()
    ensures Finished(old(StreamOf(c).View()), StreamOf(c).View())
    decreases StreamOf(c).Pending(), 0, Depth(c), 2
  {
    match c
    case Direct(s) => s.Complete();
    case Wrapped(owner, _) => owner.ConnectionComplete(c);
  }

  /** Sizes add up over concatenation, so a chain of sources transfers the sum of their sizes. */
  lemma {:induction false} SumSizesAppend(a: seq<SubmitIteration>, b: seq<SubmitIteration>)
    ensures SumSizes(a + b) == SumSizes(a) + SumSizes(b)
    decreases |a|
  {
    if a != [] {
      assert (a + b)[0] == a[0] && (a + b)[1..] == a[1..] + b;
      SumSizesAppend(a[1..], b);
    } else {
      assert a + b == b;
    }
  }

  /** Every item is announced once to each observer; the last announcement shows the final total. */
  lemma {:induction false} NoticesShape(observers: seq<nat>, total: int, items: seq<SubmitIteration>)
    ensures |Notices(observers, total, items)| == |observers| * |items|
    ensures observers != [] && items != [] ==>
              Notices(observers, total, items)[|observers| * |items| - 1] ==
              Notification(observers[|observers| - 1], total + SumSizes(items))
    decreases |items|
  {
    if items != [] {
      var t := total + items[0].size;
      NoticesShape(observers, t, items[1..]);
      var n := Notices(observers, total, items);
      assert n == Broadcast(observers, t) + Notices(observers, t, items[1..]);
      assert |observers| * |items| == |observers| + |observers| * |items[1..]|;
      if observers != [] && items[1..] == [] {
        assert n[|n| - 1] == Broadcast(observers, t)[|observers| - 1];
        assert SumSizes(items) == items[0].size;
      }
    }
  }

  /** Two chunks of three units each: both reach the destination in order and the total is six. */
  method TransferTwoChunks() returns (size: int, history: seq<SubmitIteration>,
                                      sourceReleased: bool, destinationReleased: bool)
    ensures size == 6 && history == [SubmitIteration(1, 3), SubmitIteration(2, 3)]
    ensures sourceReleased && destinationReleased
  {
    var source := new MockSource();
    source.WithNextIteration(SubmitIteration(1, 3));
    source.WithNextIteration(SubmitIteration(2, 3));
    var destination := new MockDestination();
    var stream := new DirectStream(MockRef(source), destination);
    assert stream.Remaining() == [SubmitIteration(1, 3), SubmitIteration(2, 3)];
    assert SumSizes([SubmitIteration(1, 3), SubmitIteration(2, 3)]) == 6;
    var stat := stream.Start();
    size := stat.Size();
    history := destination.history;
    sourceReleased := source.released;
    destinationReleased := destination.released;
  }

  /** A chain of two fresh sources holding one item each; the first is current. */
  method ChainOfTwo() returns (rs: RechargeableSource)
    ensures fresh(rs) && rs.Valid() && |rs.sources| == 2 && rs.polled == 1
    ensures fresh(rs.sources[0]) && fresh(rs.sources[1]) && rs.current == Some(rs.sources[0])
    ensures rs.sources[0].iterations == [SubmitIteration(1, 1)]
    ensures FlattenFrom(rs.sources, 1) == [SubmitIteration(1, 1)]
  {
    var first := new MockSource();
    first.WithNextIteration(SubmitIteration(1, 1));
    var second := new MockSource();
    second.WithNextIteration(SubmitIteration(1, 1));
    rs := new RechargeableSource([first, second]);
    assert FlattenFrom(rs.sources, 2) == [];
    FlattenFromStep(rs.sources, 1);
  }

  /** A stream from a chain of two sources holding one item each. */
  method ChainedStream() returns (stream: DirectStream)
    ensures fresh(stream.Repr) && stream.Valid() && stream.CanRead()
    ensures stream.Remaining() == [SubmitIteration(1, 1), SubmitIteration(1, 1)]
    ensures stream.transferred == 0 && stream.destination.history == []
  {
    var rs := ChainOfTwo();
    var destination := new MockDestination();
    stream := new DirectStream(RechargeableRef(rs), destination);
    assert stream.CurrentIterations() == [SubmitIteration(1, 1)];
    assert stream.RestAfterCurrent() == [SubmitIteration(1, 1)];
  }

  /** One item from each of two chained sources: both arrive, in queue order, for a total of two. */
  method TransferFromEverySource() returns (size: int, history: seq<SubmitIteration>, destinationReleased: bool)
    ensures size == 2 && history == [SubmitIteration(1, 1), SubmitIteration(1, 1)]
    ensures destinationReleased
  {
    var stream := ChainedStream();
    assert SumSizes([SubmitIteration(1, 1), SubmitIteration(1, 1)]) == 2;
    var stat := stream.Start();
    size := stat.Size();
    history := stream.destination.history;
    destinationReleased := stream.destination.released;
  }
}
