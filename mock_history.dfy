// A mock history: an append-only record of the values a test double was
// given, queried by position.

module MockHistories {

  class MockHistory<T(==)> {
    var history: seq<T>

    constructor()
      ensures history == []
    {
      history := [];
    }

    /** Every entry, in the order it was put. */
    function AllHistoryEntries(): (r: seq<T>)
      reads this
      ensures |r| == GetLength() && forall i :: 0 <= i < |r| ==> r[i] == GetEntry(i)
    {
      history
    }

    function GetLength(): nat
      reads this
    {
      |history|
    }

    /** Whether anything was put since the last clear. */
    function HasEntries(): (r: bool)
      reads this
      ensures r <==> exists i :: 0 <= i < GetLength() && HasEntry(i, history[i])
    {
      if GetLength() != 0 then assert HasEntry(0, history[0]); true else false
    }

    /** The entry at a position; the position must be in range. */
    function GetEntry(position: int): T
      reads this
      requires 0 <= position < |history|
    {
      history[position]
    }

    /** False beyond the end; otherwise whether the entry at the position equals the value. */
    function HasEntry(position: int, value: T): (r: bool)
      reads this
      requires 0 <= position
      ensures r <==> position < GetLength() && GetEntry(position) == value
      ensures position >= GetLength() ==> !r
    {
      if position < GetLength() then value == GetEntry(position) else false
    }

    /** Appends at the end: the new entry is found at the old length. */
    method Put(value: T)
      modifies this
      ensures history == old(history) + [value]
      ensures GetLength() == old(GetLength()) + 1 && HasEntry(old(GetLength()), value) && HasEntries()
    {
      history := history + [value];
    }

    method Clear()
      modifies this
      ensures history == [] && !HasEntries()
    {
      history := [];
    }
  }

  /** Two puts are listed in put order and found at positions 0 and 1; a clear forgets them. */
  method RecordTwo<T(==)>(a: T, b: T) returns (entries: seq<T>, foundFirst: bool, foundSecond: bool,
                                              beyond: bool, afterClear: bool)
    ensures entries == [a, b] && foundFirst && foundSecond && !beyond && !afterClear
  {
    var h := new MockHistory<T>();
    h.Put(a);
    h.Put(b);
    entries := h.AllHistoryEntries();
    foundFirst := h.HasEntry(0, a);
    foundSecond := h.HasEntry(1, b);
    beyond := h.HasEntry(2, a);
    h.Clear();
    afterClear := h.HasEntries();
  }
}
