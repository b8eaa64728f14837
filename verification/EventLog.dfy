/** The numbered runtime event log and the cursors that poll it. */
module EventLogs {

  datatype RuntimeEvent<T> = RuntimeEvent(sequence: nat, kind: T)

  /** The log numbers its events 1, 2, 3, ... */
  ghost predicate Consecutive<T>(events: seq<RuntimeEvent<T>>) {
    forall i :: 0 <= i < |events| ==> events[i].sequence == i + 1
  }

  /** The stretch of the log whose numbers are at least `from` and below `to`. */
  function Between<T>(events: seq<RuntimeEvent<T>>, from: nat, to: nat): (r: seq<RuntimeEvent<T>>) {
    if events == [] then []
    else
      (if from <= events[0].sequence < to then [events[0]] else []) + Between(events[1..], from, to)
  }

  class EventLog<T(==)> {
    var events: seq<RuntimeEvent<T>>
    var nextSequence: nat

    ghost predicate Valid()
      reads this
    {
      Consecutive(events) && nextSequence == |events| + 1
    }

    constructor ()
      ensures Valid() && events == []
    {
      events := [];
      nextSequence := 1;
    }

    method Record(kind: T)
      requires Valid()
      modifies this
      ensures Valid() && events == old(events) + [RuntimeEvent(old(nextSequence), kind)]
    {
      var record := RuntimeEvent(nextSequence, kind);
      nextSequence := nextSequence + 1;
      events := events + [record];
    }
  }

  class EventCursor {
    var nextSequence: nat

    constructor (sequence: nat)
      ensures nextSequence == sequence
    {
      nextSequence := sequence;
    }
  }

  /** Binary search for the first event whose number is not below `bound`. */
  method PartitionPoint<T>(events: seq<RuntimeEvent<T>>, bound: nat) returns (start: nat)
    requires Consecutive(events)
    ensures start <= |events|
    ensures forall i :: 0 <= i < start ==> events[i].sequence < bound
    ensures forall i :: start <= i < |events| ==> bound <= events[i].sequence
  {
    var low, high := 0, |events|;
    while low < high
      invariant 0 <= low <= high <= |events|
      invariant forall i :: 0 <= i < low ==> events[i].sequence < bound
      invariant forall i :: high <= i < |events| ==> bound <= events[i].sequence
    {
      var mid := (low + high) / 2;
      if events[mid].sequence < bound {
        low := mid + 1;
      } else {
        high := mid;
      }
    }
    start := low;
  }

  /** Where a cursor stands after polling a log of `length` events. */
  function Polled(position: nat, length: nat): nat {
    if length > 0 && position <= length then length + 1 else position
  }

  method EventsSince<T>(events: seq<RuntimeEvent<T>>, cursor: EventCursor) returns (pending: seq<RuntimeEvent<T>>)
    requires Consecutive(events)
    modifies cursor
    ensures pending == Between(events, old(cursor.nextSequence), |events| + 1)
    ensures cursor.nextSequence == Polled(old(cursor.nextSequence), |events|)
  {
    hide Between, Polled;
    var start := PartitionPoint(events, cursor.nextSequence);
    PollIsSuffix(events, cursor.nextSequence, start);
    pending := events[start..];
    if pending != [] {
      cursor.nextSequence := pending[|pending| - 1].sequence + 1;
    }
  }

  lemma PollIsSuffix<T>(events: seq<RuntimeEvent<T>>, position: nat, start: nat)
    requires Consecutive(events) && start <= |events|
    requires forall i :: 0 <= i < start ==> events[i].sequence < position
    requires forall i :: start <= i < |events| ==> position <= events[i].sequence
    ensures events[start..] == Between(events, position, |events| + 1)
    ensures start < |events| ==> Polled(position, |events|) == events[|events| - 1].sequence + 1
    ensures start == |events| ==> Polled(position, |events|) == position
  {
    hide Between;
    assert events[0..] == events && events[start..|events|] == events[start..];
    BetweenIsSlice(events, 0, position, |events| + 1, start, |events|);
    if events != [] {
      var last := events[|events| - 1];
      assert last.sequence == |events|;
    }
  }

  /** On a consecutive log a stretch of numbers is a slice. */
  lemma {:induction false} BetweenIsSlice<T>(
      events: seq<RuntimeEvent<T>>, k: nat, from: nat, to: nat, lo: nat, hi: nat)
    requires Consecutive(events) && k <= lo <= hi <= |events|
    requires forall i :: k <= i < lo ==> events[i].sequence < from
    requires forall i :: lo <= i < hi ==> from <= events[i].sequence < to
    requires forall i :: hi <= i < |events| ==> to <= events[i].sequence
    ensures Between(events[k..], from, to) == events[lo..hi]
    decreases |events| - k
  {
    if k < |events| {
      assert events[k..][0] == events[k] && events[k..][1..] == events[k + 1..];
      if k < lo {
        BetweenIsSlice(events, k + 1, from, to, lo, hi);
      } else if k < hi {
        BetweenIsSlice(events, k + 1, from, to, k + 1, hi);
        assert events[k..hi] == [events[k]] + events[k + 1..hi];
      } else {
        BetweenIsSlice(events, k + 1, from, to, k + 1, k + 1);
      }
    }
  }

  // ------------------------------------------------------------------ exactly once

  datatype Action<T> = Append(kind: T) | Poll

  /**
   * Any interleaving of appends and polls delivers, over all polls together, the run of the log
   * that starts at the cursor's first position: nothing twice, nothing skipped, in order.
   */
  method Interleave<T>(log: EventLog<T>, cursor: EventCursor, actions: seq<Action<T>>)
    returns (delivered: seq<RuntimeEvent<T>>)
    requires log.Valid()
    modifies log, cursor
    ensures log.Valid() && old(log.events) <= log.events
    ensures delivered == Between(log.events, old(cursor.nextSequence), cursor.nextSequence)
    ensures old(cursor.nextSequence) <= cursor.nextSequence
    ensures (actions != [] && actions[|actions| - 1].Poll? && 1 <= old(cursor.nextSequence) <= |log.events| + 1)
              ==> cursor.nextSequence == |log.events| + 1
  {
    ghost var first := cursor.nextSequence;
    delivered := [];
    BetweenOutside(log.events, first, first);
    for k := 0 to |actions|
      invariant log.Valid() && old(log.events) <= log.events && first <= cursor.nextSequence
      invariant delivered == Between(log.events, first, cursor.nextSequence)
      invariant first == cursor.nextSequence || cursor.nextSequence <= |log.events| + 1
      invariant (k > 0 && actions[k - 1].Poll? && 1 <= first <= |log.events| + 1)
                  ==> cursor.nextSequence == |log.events| + 1
    {
      ghost var position := cursor.nextSequence;
      match actions[k] {
        case Append(kind) =>
          ghost var before := log.events;
          log.Record(kind);
          BetweenAppend(before, log.events[|before|], first, position);
        case Poll =>
          var pending := EventsSince(log.events, cursor);
          if position <= |log.events| {
            BetweenJoin(log.events, first, position, |log.events| + 1);
          } else {
            BetweenOutside(log.events, position, |log.events| + 1);
          }
          delivered := delivered + pending;
      }
    }
  }

  lemma {:induction false} BetweenOutside<T>(events: seq<RuntimeEvent<T>>, from: nat, to: nat)
    requires to <= from
    ensures Between(events, from, to) == []
  {
    if events != [] { BetweenOutside(events[1..], from, to); }
  }

  /** An event numbered at or past `to`, or below `from`, does not change the stretch. */
  lemma {:induction false} BetweenAppend<T>(
      events: seq<RuntimeEvent<T>>, e: RuntimeEvent<T>, from: nat, to: nat)
    requires !(from <= e.sequence < to)
    ensures Between(events + [e], from, to) == Between(events, from, to)
  {
    if events != [] {
      BetweenAppend(events[1..], e, from, to);
      assert (events + [e])[1..] == events[1..] + [e];
    }
  }

  lemma BetweenJoin<T>(events: seq<RuntimeEvent<T>>, from: nat, mid: nat, to: nat)
    requires Consecutive(events) && from <= mid <= to == |events| + 1
    ensures Between(events, from, mid) + Between(events, mid, to) == Between(events, from, to)
  {
    hide Between;
    var a := if from < 1 then 0 else from - 1;
    var b := if mid < 1 then 0 else mid - 1;
    assert events[0..] == events;
    BetweenIsSlice(events, 0, from, mid, a, b);
    BetweenIsSlice(events, 0, mid, to, b, |events|);
    BetweenIsSlice(events, 0, from, to, a, |events|);
  }

  /** A cursor taken from the runtime stands just past the log and so sees exactly what follows. */
  lemma FreshCursorSeesOnlyLater<T>(after: seq<RuntimeEvent<T>>, length: nat)
    requires Consecutive(after) && length <= |after|
    ensures Between(after, length + 1, |after| + 1) == after[length..]
  {
    BetweenIsSlice(after, 0, length + 1, |after| + 1, length, |after|);
    assert after[0..] == after;
    assert after[length..|after|] == after[length..];
  }
}
