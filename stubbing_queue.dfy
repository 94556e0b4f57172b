// A stubbing queue: a first-in first-out queue of stubbed answers with a
// default answer for when the queue is empty.  The default may be absent
// (a null default).

module StubbingQueues {
  import opened Wrappers

  class StubbingQueue<T> {
    var entries: seq<T>
    /** The answer given once the entries are used up; None stands for a null default. */
    var defaultValue: Option<T>

    /** An empty queue without a default. */
    constructor()
      ensures entries == [] && defaultValue == None
    {
      entries := [];
      defaultValue := None;
    }

    /** An empty queue with the given default. */
    constructor WithDefaultValue(defaultValue: Option<T>)
      ensures entries == [] && this.defaultValue == defaultValue
    {
      entries := [];
      this.defaultValue := defaultValue;
    }

    method Configure() returns (c: Configurer<T>)
      ensures fresh(c) && c.queue == this
    {
      c := new Configurer(this);
    }

    function IsEmpty(): (r: bool)
      reads this
      ensures r <==> |entries| == 0
    {
      entries == []
    }

    /** Takes the head entry, or answers the default and changes nothing when the queue is empty. */
    method Peek() returns (r: Option<T>)
      modifies this
      ensures old(entries) != [] ==> r == Some(old(entries)[0]) && entries == old(entries)[1..]
      ensures old(entries) == [] ==> r == defaultValue && entries == []
      ensures defaultValue == old(defaultValue)
    {
      if entries != [] {
        r := Some(entries[0]);
        entries := entries[1..];
      } else {
        r := defaultValue;
      }
    }
  }

  /** Configures a queue; each step returns the same configurer for chaining. */
  class Configurer<T> {
    const queue: StubbingQueue<T>

    constructor(queue: StubbingQueue<T>)
      ensures this.queue == queue
    {
      this.queue := queue;
    }

    /** Queues an entry at the tail. */
    method WithNextEntry(entry: T) returns (r: Configurer<T>)
      modifies queue
      ensures r == this
      ensures queue.entries == old(queue.entries) + [entry] && queue.defaultValue == old(queue.defaultValue)
    {
      queue.entries := queue.entries + [entry];
      r := this;
    }

    /** Replaces the default; the queued entries stay. */
    method WithDefault(defaultEntry: T) returns (r: Configurer<T>)
      modifies queue
      ensures r == this
      ensures queue.defaultValue == Some(defaultEntry) && queue.entries == old(queue.entries)
    {
      queue.defaultValue := Some(defaultEntry);
      r := this;
    }
  }

  /** Entries come back in the order they were queued, then the default, again and again. */
  method FirstInFirstOut<T>(a: T, b: T, d: T) returns (first: Option<T>, second: Option<T>,
                                                       third: Option<T>, fourth: Option<T>, empty: bool)
    ensures first == Some(a) && second == Some(b) && third == Some(d) && fourth == Some(d)
    ensures empty
  {
    var queue := new StubbingQueue<T>();
    var c := queue.Configure();
    c := c.WithNextEntry(a);
    c := c.WithNextEntry(b);
    c := c.WithDefault(d);
    first := queue.Peek();
    second := queue.Peek();
    third := queue.Peek();
    fourth := queue.Peek();
    empty := queue.IsEmpty();
  }

  /** Without a configured default an empty queue answers null. */
  method NullDefault<T>() returns (r: Option<T>, empty: bool)
    ensures r == None && empty
  {
    var queue := new StubbingQueue<T>();
    r := queue.Peek();
    empty := queue.IsEmpty();
  }
}
