/** The bounded mailbox: sequence numbers, reserve admission and selective receive. */
module Mailboxes {
  import opened Types

  /** The capacity value that means "unbounded". */
  const USIZE_MAX: nat := 0xFFFF_FFFF_FFFF_FFFF

  datatype Queued = Queued(sequence: nat, envelope: Envelope)

  /** The contents of a mailbox, as a value. */
  datatype Box = Box(nextSequence: nat, queue: seq<Queued>, capacity: nat, runtimeReserve: nat) {

    predicate IsFullFor(e: Envelope) {
      capacity != USIZE_MAX
      && if e.UsesRuntimeReserve() then |queue| >= capacity else |queue| >= Monus(capacity, runtimeReserve)
    }

    function Push(e: Envelope): Box {
      this.(nextSequence := nextSequence + 1, queue := queue + [Queued(nextSequence, e)])
    }

    /** The mailbox without its entry at `i`. */
    function RemoveAt(i: nat): Box
      requires i < |queue|
    {
      this.(queue := queue[..i] + queue[i + 1..])
    }
  }

  /** A new mailbox: its capacity is at least one, and its reserve leaves room for other mail. */
  function Limited(capacity: nat, runtimeReserve: nat): Box {
    var bounded := if capacity < 1 then 1 else capacity;
    Box(0, [], bounded, if runtimeReserve < bounded - 1 then runtimeReserve else bounded - 1)
  }

  /** `i` is where the first entry accepted by `p` stands. */
  ghost predicate IsFirstMatch(q: seq<Queued>, p: Queued -> bool, i: nat) {
    i < |q| && p(q[i]) && forall j :: 0 <= j < i ==> !p(q[j])
  }

  ghost predicate NoMatch(q: seq<Queued>, p: Queued -> bool) {
    forall j :: 0 <= j < |q| ==> !p(q[j])
  }

  /** Where the first accepted entry stands, if there is one. */
  function FirstMatch(q: seq<Queued>, p: Queued -> bool): (r: Option<nat>)
    ensures r.Some? ==> IsFirstMatch(q, p, r.value)
    ensures r.None? <==> NoMatch(q, p)
  {
    if q == [] then None
    else if p(q[0]) then Some(0)
    else match FirstMatch(q[1..], p)
      case None => assert forall j :: 0 < j < |q| ==> q[j] == q[1..][j - 1]; None
      case Some(i) => assert forall j :: 0 < j < |q| ==> q[j] == q[1..][j - 1]; Some(i + 1)
  }

  function Receive(b: Box, p: Queued -> bool): (r: (Option<Queued>, Box)) {
    match FirstMatch(b.queue, p)
    case None => (None, b)
    case Some(i) => (Some(b.queue[i]), b.RemoveAt(i))
  }

  predicate AnyEntry(q: Queued) { true }

  // ------------------------------------------------------------------ the mailbox object

  class Mailbox {
    var nextSequence: nat
    var queue: seq<Queued>
    const capacity: nat
    const runtimeReserve: nat

    function Contents(): Box
      reads this
    {
      Box(nextSequence, queue, capacity, runtimeReserve)
    }

    constructor WithLimits(capacity: nat, runtimeReserve: nat)
      requires capacity <= USIZE_MAX
      ensures Contents() == Limited(capacity, runtimeReserve) && nextSequence == 0 && queue == []
      ensures this.capacity >= 1 && (capacity >= 1 ==> this.capacity == capacity)
      ensures this.runtimeReserve < this.capacity
      ensures runtimeReserve < this.capacity ==> this.runtimeReserve == runtimeReserve
    {
      this.nextSequence := 0;
      this.queue := [];
      var bounded := if capacity < 1 then 1 else capacity;
      this.capacity := bounded;
      this.runtimeReserve := if runtimeReserve < bounded - 1 then runtimeReserve else bounded - 1;
    }

    method Push(e: Envelope)
      modifies this
      ensures Contents() == old(Contents()).Push(e)
    {
      var sequence := nextSequence;
      nextSequence := nextSequence + 1;
      queue := queue + [Queued(sequence, e)];
    }

    /** Refuses the envelope exactly when its class has no slot left. */
    method TryPush(e: Envelope) returns (accepted: bool)
      modifies this
      ensures accepted == !old(Contents()).IsFullFor(e)
      ensures Contents() == if accepted then old(Contents()).Push(e) else old(Contents())
    {
      if Contents().IsFullFor(e) {
        return false;
      }
      Push(e);
      return true;
    }

    method RemoveFirstMatching(p: Queued -> bool) returns (taken: Option<Queued>)
      modifies this
      ensures (taken, Contents()) == Receive(old(Contents()), p)
    {
      var i := 0;
      while i < |queue|
        invariant 0 <= i <= |queue|
        invariant forall j :: 0 <= j < i ==> !p(queue[j])
        invariant Contents() == old(Contents())
      {
        if p(queue[i]) {
          taken := Some(queue[i]);
          queue := queue[..i] + queue[i + 1..];
          return;
        }
        i := i + 1;
      }
      taken := None;
    }

    method PopFront() returns (taken: Option<Queued>)
      modifies this
      ensures (taken, Contents()) == Receive(old(Contents()), AnyEntry)
    {
      if queue == [] {
        return None;
      }
      assert IsFirstMatch(queue, AnyEntry, 0);
      assert queue[1..] == queue[..0] + queue[1..];
      taken := Some(queue[0]);
      queue := queue[1..];
    }

    method SelectiveReceiveAfter(watermark: nat, p: Envelope -> bool) returns (taken: Option<Queued>)
      modifies this
      ensures (taken, Contents()) == Receive(old(Contents()), AtOrAfter(watermark, p))
    {
      taken := RemoveFirstMatching(AtOrAfter(watermark, p));
    }
  }

  function AtOrAfter(watermark: nat, p: Envelope -> bool): Queued -> bool {
    (q: Queued) => q.sequence >= watermark && p(q.envelope)
  }

  // ------------------------------------------------------------------ runs

  /** A use of the mailbox; a receive carries whatever predicate the caller passes. */
  datatype Op = TryPush(envelope: Envelope) | Take(p: Queued -> bool)

  function Apply(b: Box, op: Op): Box {
    match op
    case TryPush(e) => if b.IsFullFor(e) then b else b.Push(e)
    case Take(p) => Receive(b, p).1
  }

  function Run(b: Box, ops: seq<Op>): Box
    decreases |ops|
  {
    if ops == [] then b else Run(Apply(b, ops[0]), ops[1..])
  }

  function UserCount(q: seq<Queued>): nat {
    if q == [] then 0 else UserCount(q[..|q| - 1]) + if q[|q| - 1].envelope.UsesRuntimeReserve() then 0 else 1
  }

  ghost predicate Sequenced(b: Box) {
    && (forall i, j :: 0 <= i < j < |b.queue| ==> b.queue[i].sequence < b.queue[j].sequence)
    && (forall i :: 0 <= i < |b.queue| ==> b.queue[i].sequence < b.nextSequence)
  }

  ghost predicate Valid(b: Box) {
    && Sequenced(b)
    && b.runtimeReserve < b.capacity
    && (b.capacity != USIZE_MAX ==>
          |b.queue| <= b.capacity && UserCount(b.queue) <= b.capacity - b.runtimeReserve)
  }

  /** Whatever limits are asked for, a new mailbox is in order and accepts anything. */
  lemma NewMailboxAccepts(capacity: nat, runtimeReserve: nat, e: Envelope)
    ensures Valid(Limited(capacity, runtimeReserve)) && !Limited(capacity, runtimeReserve).IsFullFor(e)
  {
  }

  lemma {:induction false} UserCountSplit(q: seq<Queued>, i: nat)
    requires i < |q|
    ensures UserCount(q) == UserCount(q[..i] + q[i + 1..]) + if q[i].envelope.UsesRuntimeReserve() then 0 else 1
  {
    if i == |q| - 1 {
      assert q[..i] + q[i + 1..] == q[..|q| - 1];
    } else {
      var front := q[..|q| - 1];
      UserCountSplit(front, i);
      var rest := q[..i] + q[i + 1..];
      assert rest[..|rest| - 1] == front[..i] + front[i + 1..];
    }
  }

  lemma {:induction false} UserCountBound(q: seq<Queued>)
    ensures UserCount(q) <= |q|
  {
    if q != [] { UserCountBound(q[..|q| - 1]); }
  }

  lemma PushKeepsValid(b: Box, e: Envelope)
    requires Valid(b) && !b.IsFullFor(e)
    ensures Valid(b.Push(e))
  {
    assert b.Push(e).queue[..|b.queue|] == b.queue;
    UserCountBound(b.queue);
  }

  lemma RemoveKeepsValid(b: Box, i: nat)
    requires Valid(b) && i < |b.queue|
    ensures Valid(b.RemoveAt(i))
  {
    UserCountSplit(b.queue, i);
    var rest := b.RemoveAt(i).queue;
    assert forall k :: 0 <= k < |rest| ==> rest[k] == b.queue[if k < i then k else k + 1];
  }

  /**
   * User mail is accepted as long as the queue is shorter than the capacity less the reserve, anything
   * else as long as it is shorter than the capacity; without a capacity everything is.
   */
  lemma AdmissionByClass(b: Box, e: Envelope)
    requires Valid(b)
    ensures b.capacity == USIZE_MAX ==> !b.IsFullFor(e)
    ensures b.capacity != USIZE_MAX ==>
      match e
      case User(_) => b.IsFullFor(e) <==> |b.queue| + b.runtimeReserve >= b.capacity
      case Request(_, _) => b.IsFullFor(e) <==> |b.queue| + b.runtimeReserve >= b.capacity
      case _ => b.IsFullFor(e) <==> |b.queue| == b.capacity
  {
  }

  /** User mail alone never uses up the reserve: as many more messages of the runtime still go in. */
  lemma {:induction false} ReserveIsKept(b: Box, mail: seq<Envelope>)
    requires Valid(b) && |b.queue| == UserCount(b.queue)
    requires |mail| <= b.runtimeReserve && forall i :: 0 <= i < |mail| ==> mail[i].UsesRuntimeReserve()
    ensures |Run(b, seq(|mail|, i requires 0 <= i < |mail| => TryPush(mail[i]))).queue| == |b.queue| + |mail|
  {
    RuntimeMailFits(b, mail);
  }

  lemma {:induction false} RuntimeMailFits(b: Box, mail: seq<Envelope>)
    requires forall i :: 0 <= i < |mail| ==> mail[i].UsesRuntimeReserve()
    requires b.capacity == USIZE_MAX || |b.queue| + |mail| <= b.capacity
    ensures |Run(b, seq(|mail|, i requires 0 <= i < |mail| => TryPush(mail[i]))).queue| == |b.queue| + |mail|
    decreases |mail|
  {
    if mail != [] {
      var ops := seq(|mail|, i requires 0 <= i < |mail| => TryPush(mail[i]));
      var rest := mail[1..];
      assert ops[1..] == seq(|rest|, i requires 0 <= i < |rest| => TryPush(rest[i]));
      RuntimeMailFits(b.Push(mail[0]), rest);
    }
  }

  /** One use keeps the order, the total bound and the reserve. */
  lemma ApplyKeepsValid(b: Box, op: Op)
    requires Valid(b)
    ensures Valid(Apply(b, op))
  {
    match op
    case TryPush(e) =>
      if !b.IsFullFor(e) { PushKeepsValid(b, e); }
    case Take(p) =>
      var found := FirstMatch(b.queue, p);
      if found.Some? { RemoveKeepsValid(b, found.value); }
  }

  /** Over every run of pushes and receives. */
  lemma {:induction false} RunKeepsValid(b: Box, ops: seq<Op>)
    requires Valid(b)
    ensures Valid(Run(b, ops))
    ensures Run(b, ops).capacity == b.capacity && Run(b, ops).runtimeReserve == b.runtimeReserve
    decreases |ops|
  {
    if ops != [] {
      ApplyKeepsValid(b, ops[0]);
      RunKeepsValid(Apply(b, ops[0]), ops[1..]);
    }
  }

  // ------------------------------------------------------------------ an independent reading

  /** The plain view of a mailbox: everything ever accepted, and which of it was taken. */
  datatype Ledger = Ledger(accepted: seq<Envelope>, taken: set<nat>)

  /** What is still queued, from position `from` of the ledger on. */
  function Outstanding(l: Ledger, from: nat): seq<Queued>
    requires from <= |l.accepted|
    decreases |l.accepted| - from
  {
    if from == |l.accepted| then []
    else (if from in l.taken then [] else [Queued(from, l.accepted[from])]) + Outstanding(l, from + 1)
  }

  ghost predicate Represents(l: Ledger, b: Box) {
    b.nextSequence == |l.accepted| && b.queue == Outstanding(l, 0)
  }

  lemma {:induction false} OutstandingSpan(l: Ledger, from: nat)
    requires from <= |l.accepted|
    ensures forall i :: 0 <= i < |Outstanding(l, from)| ==>
      && from <= Outstanding(l, from)[i].sequence < |l.accepted|
      && Outstanding(l, from)[i].sequence !in l.taken
      && Outstanding(l, from)[i].envelope == l.accepted[Outstanding(l, from)[i].sequence]
    decreases |l.accepted| - from
  {
    if from < |l.accepted| { OutstandingSpan(l, from + 1); }
  }

  lemma {:induction false} OutstandingAppend(l: Ledger, e: Envelope, from: nat)
    requires from <= |l.accepted| && |l.accepted| !in l.taken
    ensures Outstanding(Ledger(l.accepted + [e], l.taken), from) == Outstanding(l, from) + [Queued(|l.accepted|, e)]
    decreases |l.accepted| - from
  {
    var m := Ledger(l.accepted + [e], l.taken);
    if from == |l.accepted| {
      assert Outstanding(m, from + 1) == [];
    } else {
      OutstandingAppend(l, e, from + 1);
    }
  }

  lemma RemoveHead<T>(x: T, rest: seq<T>)
    ensures var q := [x] + rest; q[0] == x && q[..0] + q[1..] == rest
  {
  }

  lemma RemoveBehindHead<T>(x: T, rest: seq<T>, i: nat)
    requires 1 <= i <= |rest|
    ensures var q := [x] + rest;
      q[i] == rest[i - 1] && q[..i] + q[i + 1..] == [x] + (rest[..i - 1] + rest[i..])
  {
  }

  lemma OutstandingHead(l: Ledger, from: nat)
    requires from <= |l.accepted|
    ensures Outstanding(l, from) ==
      if from == |l.accepted| then []
      else if from in l.taken then Outstanding(l, from + 1)
      else [Queued(from, l.accepted[from])] + Outstanding(l, from + 1)
  {
  }

  lemma OutstandingIsLater(l: Ledger, from: nat, i: nat)
    requires from <= |l.accepted| && i < |Outstanding(l, from)|
    ensures from <= Outstanding(l, from)[i].sequence
  {
    OutstandingSpan(l, from);
  }

  /** Taking the entry at position `i` of the queue marks exactly its number. */
  lemma {:induction false} OutstandingTake(l: Ledger, from: nat, i: nat, n: nat)
    requires from <= |l.accepted| && i < |Outstanding(l, from)| && n == Outstanding(l, from)[i].sequence
    ensures Outstanding(Ledger(l.accepted, l.taken + {n}), from)
         == Outstanding(l, from)[..i] + Outstanding(l, from)[i + 1..]
    decreases |l.accepted| - from
  {
    hide Outstanding;
    var m := Ledger(l.accepted, l.taken + {n});
    OutstandingHead(l, from);
    OutstandingHead(m, from);
    if from in l.taken {
      OutstandingTake(l, from + 1, i, n);
    } else {
      var head, rest := Queued(from, l.accepted[from]), Outstanding(l, from + 1);
      if i == 0 {
        OutstandingUnaffected(l, from + 1, from);
        RemoveHead(head, rest);
      } else {
        RemoveBehindHead(head, rest, i);
        OutstandingIsLater(l, from + 1, i - 1);
        OutstandingTake(l, from + 1, i - 1, n);
      }
    }
  }

  lemma {:induction false} OutstandingUnaffected(l: Ledger, from: nat, n: nat)
    requires n < from <= |l.accepted|
    ensures Outstanding(Ledger(l.accepted, l.taken + {n}), from) == Outstanding(l, from)
    decreases |l.accepted| - from
  {
    if from < |l.accepted| { OutstandingUnaffected(l, from + 1, n); }
  }

  /** The ledger after one use: acceptance appends, a receive marks one number as taken. */
  ghost function ApplyLedger(l: Ledger, b: Box, op: Op): Ledger {
    match op
    case TryPush(e) => if b.IsFullFor(e) then l else Ledger(l.accepted + [e], l.taken)
    case Take(p) =>
      match FirstMatch(b.queue, p)
      case None => l
      case Some(i) => Ledger(l.accepted, l.taken + {b.queue[i].sequence})
  }

  ghost function RunLedger(l: Ledger, b: Box, ops: seq<Op>): Ledger
    decreases |ops|
  {
    if ops == [] then l else RunLedger(ApplyLedger(l, b, ops[0]), Apply(b, ops[0]), ops[1..])
  }

  lemma ApplyRefinesLedger(l: Ledger, b: Box, op: Op)
    requires Represents(l, b) && (forall n :: n in l.taken ==> n < |l.accepted|)
    ensures Represents(ApplyLedger(l, b, op), Apply(b, op))
    ensures forall n :: n in ApplyLedger(l, b, op).taken ==> n < |ApplyLedger(l, b, op).accepted|
    ensures l.accepted <= ApplyLedger(l, b, op).accepted && l.taken <= ApplyLedger(l, b, op).taken
  {
    hide Outstanding, FirstMatch, NoMatch;
    match op
    case TryPush(e) =>
      assert |l.accepted| !in l.taken;
      OutstandingAppend(l, e, 0);
    case Take(p) =>
      OutstandingSpan(l, 0);
      var found := FirstMatch(b.queue, p);
      if found.Some? { OutstandingTake(l, 0, found.value, b.queue[found.value].sequence); }
  }

  /**
   * The deque with removals in the middle refines the ledger: over every run nothing accepted is
   * lost, duplicated, renumbered or reordered, and a number once taken never comes back.
   */
  lemma {:induction false} RunRefinesLedger(l: Ledger, b: Box, ops: seq<Op>)
    requires Represents(l, b) && (forall n :: n in l.taken ==> n < |l.accepted|)
    ensures Represents(RunLedger(l, b, ops), Run(b, ops))
    ensures l.accepted <= RunLedger(l, b, ops).accepted && l.taken <= RunLedger(l, b, ops).taken
    decreases |ops|
  {
    if ops != [] {
      ApplyRefinesLedger(l, b, ops[0]);
      RunRefinesLedger(ApplyLedger(l, b, ops[0]), Apply(b, ops[0]), ops[1..]);
    }
  }

  /** Removing one entry of a sequenced mailbox keeps every other one. */
  lemma RemovesOnlyOne(b: Box, i: nat)
    requires Sequenced(b) && i < |b.queue|
    ensures Sequenced(b.RemoveAt(i))
    ensures forall q :: q in b.RemoveAt(i).queue <==> q in b.queue && q != b.queue[i]
  {
    var rest := b.RemoveAt(i).queue;
    assert forall k :: 0 <= k < |rest| ==> rest[k] == b.queue[if k < i then k else k + 1];
    forall q | q in b.queue && q != b.queue[i] ensures q in rest {
      var k :| 0 <= k < |b.queue| && b.queue[k] == q;
      assert q == if k < i then rest[k] else rest[k - 1];
    }
  }

  /** What a receive behind a watermark does to a sequenced mailbox. */
  ghost predicate TakesFirstAfter(b: Box, watermark: nat, p: Envelope -> bool, taken: Option<Queued>, rest: Box) {
    match taken
    case None => rest == b && forall q :: q in b.queue && q.sequence >= watermark ==> !p(q.envelope)
    case Some(t) =>
      && t in b.queue && t.sequence >= watermark && p(t.envelope)
      && (forall q :: q in b.queue && watermark <= q.sequence < t.sequence ==> !p(q.envelope))
      && (forall q :: q in rest.queue <==> q in b.queue && q != t)
      && Sequenced(rest)
  }

  lemma ReceiveTakesFirstAfter(b: Box, watermark: nat, p: Envelope -> bool)
    requires Sequenced(b)
    ensures var (taken, rest) := Receive(b, AtOrAfter(watermark, p));
      TakesFirstAfter(b, watermark, p, taken, rest)
  {
    var accept := AtOrAfter(watermark, p);
    match FirstMatch(b.queue, accept)
    case None => assert forall j :: 0 <= j < |b.queue| ==> !accept(b.queue[j]);
    case Some(i) =>
      RemovesOnlyOne(b, i);
      assert accept(b.queue[i]) && forall j :: 0 <= j < i ==> !accept(b.queue[j]);
  }

  /**
   * A receive behind a watermark captured earlier in the run never returns an envelope that was
   * queued before the capture, returns the first later match, and keeps all else in order.
   */
  lemma ReceiveAfterWatermark(before: Box, ops: seq<Op>, p: Envelope -> bool)
    requires Valid(before)
    ensures var b := Run(before, ops);
      var (taken, rest) := Receive(b, AtOrAfter(before.nextSequence, p));
      && TakesFirstAfter(b, before.nextSequence, p, taken, rest)
      && (taken.Some? ==> taken.value !in before.queue)
  {
    RunKeepsValid(before, ops);
    ReceiveTakesFirstAfter(Run(before, ops), before.nextSequence, p);
  }
}
