/** Which envelope a turn takes, and the order in which an actor sees its mail. */
module Receiving {
  import opened Types
  import opened Mailboxes

  function Of(p: Envelope -> bool): Queued -> bool {
    (q: Queued) => p(q.envelope)
  }

  const SYSTEM_MAIL := Of((e: Envelope) => e.IsSystemMessage())
  const RUNNABLE_MAIL := Of((e: Envelope) => e.CanRunWhileSuspended())
  const BYPASSING_MAIL := Of((e: Envelope) => e.BypassesUserSelectiveReceive())

  /** The default receive: control mail first; only control and exit mail while suspended. */
  function TakeNext(b: Box, suspended: bool): (Option<Queued>, Box) {
    if suspended then Receive(b, RUNNABLE_MAIL)
    else
      var first := Receive(b, SYSTEM_MAIL);
      if first.0.Some? then first else Receive(b, AnyEntry)
  }

  function Ordinary(watermark: nat, p: Envelope -> bool): Queued -> bool {
    (q: Queued) => q.sequence >= watermark && !q.envelope.BypassesUserSelectiveReceive() && p(q.envelope)
  }

  /** A selective receive; a watermark of zero stands for none. */
  function TakeSelective(b: Box, suspended: bool, watermark: nat, p: Envelope -> bool): (Option<Queued>, Box) {
    if suspended then Receive(b, RUNNABLE_MAIL)
    else
      var first := Receive(b, BYPASSING_MAIL);
      if first.0.Some? then first else Receive(b, Ordinary(watermark, p))
  }

  /** One call of a receive helper from a selection hook. */
  datatype Attempt = AnyMail | Picked(watermark: nat, p: Envelope -> bool)

  function TakeBy(b: Box, suspended: bool, attempt: Attempt): (Option<Queued>, Box) {
    match attempt
    case AnyMail => TakeNext(b, suspended)
    case Picked(watermark, p) => TakeSelective(b, suspended, watermark, p)
  }

  /** A hook of the actor's own tries what it likes, or nothing; the first envelope it gets is its only one. */
  function TakeFirst(b: Box, suspended: bool, attempts: seq<Attempt>): (Option<Queued>, Box)
    decreases |attempts|
  {
    if attempts == [] then (None, b)
    else
      var first := TakeBy(b, suspended, attempts[0]);
      if first.0.Some? then first else TakeFirst(b, suspended, attempts[1..])
  }

  lemma TakeByIsReceive(b: Box, suspended: bool, attempt: Attempt)
    ensures exists p :: TakeBy(b, suspended, attempt) == Receive(b, p)
  {
    if suspended {
      assert TakeBy(b, suspended, attempt) == Receive(b, RUNNABLE_MAIL);
    } else if attempt.AnyMail? {
      assert TakeBy(b, suspended, attempt) == Receive(b, if Receive(b, SYSTEM_MAIL).0.Some? then SYSTEM_MAIL else AnyEntry);
    } else {
      var first := Receive(b, BYPASSING_MAIL);
      assert TakeBy(b, suspended, attempt)
          == Receive(b, if first.0.Some? then BYPASSING_MAIL else Ordinary(attempt.watermark, attempt.p));
    }
  }

  /** Whatever a hook tries, it amounts to at most one receive. */
  lemma {:induction false} TakeFirstIsReceive(b: Box, suspended: bool, attempts: seq<Attempt>)
    ensures exists p :: TakeFirst(b, suspended, attempts) == Receive(b, p)
    decreases |attempts|
  {
    if attempts == [] {
      var never := (q: Queued) => false;
      assert Receive(b, never) == (None, b);
    } else {
      hide TakeBy, Receive;
      TakeByIsReceive(b, suspended, attempts[0]);
      TakeFirstIsReceive(b, suspended, attempts[1..]);
    }
  }

  function AfterSystemMessage(suspended: bool, e: Envelope): bool {
    if e == System(Suspend) then true else if e == System(Resume) then false else suspended
  }

  // ------------------------------------------------------------------ order over a whole run

  datatype Lane = ControlLane | SignalLane | UserLane

  function LaneOf(e: Envelope): Lane {
    match e
    case System(_) => ControlLane
    case Exit(_) => SignalLane
    case Down(_, _, _) => SignalLane
    case _ => UserLane
  }

  // --- what is taken, without reference to how it is found

  /** How urgent an entry is for a receive, if it may be taken at all. */
  type Ranking = Queued -> Option<nat>

  /** The default receive: while suspended signals and control mail alike, otherwise control mail before all else. */
  function DefaultRank(suspended: bool): Ranking {
    (q: Queued) =>
      match LaneOf(q.envelope)
      case ControlLane => Some(0)
      case SignalLane => if suspended then Some(0) else Some(1)
      case UserLane => if suspended then None else Some(1)
  }

  /** A selective receive: control mail and signals alike come first, then user mail that is late enough and fits. */
  function SelectiveRank(suspended: bool, watermark: nat, p: Envelope -> bool): Ranking {
    (q: Queued) =>
      match LaneOf(q.envelope)
      case UserLane => if !suspended && q.sequence >= watermark && p(q.envelope) then Some(1) else None
      case _ => Some(0)
  }

  /** The entry at `i` may be taken, and everything that is as urgent or more comes after it. */
  ghost predicate IsMostUrgent(b: Box, rank: Ranking, i: nat) {
    && i < |b.queue| && rank(b.queue[i]).Some?
    && forall j :: 0 <= j < |b.queue| && rank(b.queue[j]).Some? ==>
         rank(b.queue[i]).value <= rank(b.queue[j]).value && (rank(b.queue[i]) == rank(b.queue[j]) ==> i <= j)
  }

  /** Exactly the most urgent entry is taken, the oldest of them; nothing only if nothing may be taken. */
  ghost predicate TakesMostUrgent(b: Box, rank: Ranking, taken: (Option<Queued>, Box)) {
    match taken.0
    case None => taken.1 == b && forall i :: 0 <= i < |b.queue| ==> rank(b.queue[i]).None?
    case Some(q) => exists i: nat :: IsMostUrgent(b, rank, i) && b.queue[i] == q && taken.1 == b.RemoveAt(i)
  }

  /** A receive by a predicate that holds of exactly the most urgent entries there are. */
  lemma ReceiveTakesMostUrgent(b: Box, rank: Ranking, p: Queued -> bool, level: nat)
    requires forall i :: 0 <= i < |b.queue| ==> (p(b.queue[i]) <==> rank(b.queue[i]) == Some(level))
    requires forall i :: 0 <= i < |b.queue| && rank(b.queue[i]).Some? ==> rank(b.queue[i]).value >= level
    ensures Receive(b, p).0.Some? ==> TakesMostUrgent(b, rank, Receive(b, p))
    ensures Receive(b, p).0.None? ==> Receive(b, p).1 == b && forall i :: 0 <= i < |b.queue| ==> rank(b.queue[i]) != Some(level)
  {
    var found := FirstMatch(b.queue, p);
    if found.Some? {
      assert IsFirstMatch(b.queue, p, found.value);
      assert IsMostUrgent(b, rank, found.value);
    } else {
      assert NoMatch(b.queue, p);
    }
  }

  /** The same, with nothing more urgent in the queue. */
  lemma TakesExactly(b: Box, suspended: bool)
    ensures TakesMostUrgent(b, DefaultRank(suspended), TakeNext(b, suspended))
  {
    var rank := DefaultRank(suspended);
    hide TakesMostUrgent;
    if suspended {
      ReceiveTakesMostUrgent(b, rank, RUNNABLE_MAIL, 0);
      if Receive(b, RUNNABLE_MAIL).0.None? { NothingUrgent(b, rank, b); }
    } else {
      ReceiveTakesMostUrgent(b, rank, SYSTEM_MAIL, 0);
      if Receive(b, SYSTEM_MAIL).0.None? {
        ReceiveTakesMostUrgent(b, rank, AnyEntry, 1);
        if Receive(b, AnyEntry).0.None? { NothingUrgent(b, rank, b); }
      }
    }
  }

  lemma NothingUrgent(b: Box, rank: Ranking, rest: Box)
    requires rest == b && forall i :: 0 <= i < |b.queue| ==> rank(b.queue[i]).None?
    ensures TakesMostUrgent(b, rank, (None, rest))
  {
  }

  lemma SelectiveTakesExactly(b: Box, suspended: bool, watermark: nat, p: Envelope -> bool)
    ensures TakesMostUrgent(b, SelectiveRank(suspended, watermark, p), TakeSelective(b, suspended, watermark, p))
  {
    var rank := SelectiveRank(suspended, watermark, p);
    hide TakesMostUrgent;
    forall i | 0 <= i < |b.queue|
      ensures suspended ==> (RUNNABLE_MAIL(b.queue[i]) <==> rank(b.queue[i]) == Some(0)) && rank(b.queue[i]) != Some(1)
      ensures !suspended ==> (BYPASSING_MAIL(b.queue[i]) <==> rank(b.queue[i]) == Some(0))
    {
      var q := b.queue[i];
      assert q.envelope.CanRunWhileSuspended() <==> LaneOf(q.envelope) != UserLane;
      assert q.envelope.BypassesUserSelectiveReceive() <==> LaneOf(q.envelope) != UserLane;
    }
    if suspended {
      ReceiveTakesMostUrgent(b, rank, RUNNABLE_MAIL, 0);
      if Receive(b, RUNNABLE_MAIL).0.None? { NothingUrgent(b, rank, b); }
    } else {
      ReceiveTakesMostUrgent(b, rank, BYPASSING_MAIL, 0);
      if Receive(b, BYPASSING_MAIL).0.None? {
        var ordinary := Ordinary(watermark, p);
        ReceiveTakesMostUrgent(b, rank, ordinary, 1);
        if Receive(b, ordinary).0.None? { NothingUrgent(b, rank, b); }
      }
    }
  }

  /** Of the receives a hook tries, the first that finds anything decides; the others leave no trace. */
  lemma {:induction false} FirstHitDecides(b: Box, suspended: bool, attempts: seq<Attempt>)
    ensures var taken := TakeFirst(b, suspended, attempts);
      match taken.0
      case None => taken.1 == b && forall i :: 0 <= i < |attempts| ==> TakeBy(b, suspended, attempts[i]).0.None?
      case Some(_) => exists i :: 0 <= i < |attempts| && taken == TakeBy(b, suspended, attempts[i])
                                  && forall j :: 0 <= j < i ==> TakeBy(b, suspended, attempts[j]).0.None?
    decreases |attempts|
  {
    if attempts != [] && TakeBy(b, suspended, attempts[0]).0.None? {
      FirstHitDecides(b, suspended, attempts[1..]);
      hide TakeBy;
      if TakeFirst(b, suspended, attempts).0.Some? {
        var i :| 0 <= i < |attempts[1..]| && TakeFirst(b, suspended, attempts[1..]) == TakeBy(b, suspended, attempts[1..][i])
          && forall j :: 0 <= j < i ==> TakeBy(b, suspended, attempts[1..][j]).0.None?;
        assert attempts[i + 1] == attempts[1..][i];
        forall j | 0 <= j < i + 1 ensures TakeBy(b, suspended, attempts[j]).0.None? {
          if j > 0 { assert attempts[j] == attempts[1..][j - 1]; }
        }
      } else {
        forall i | 0 <= i < |attempts| ensures TakeBy(b, suspended, attempts[i]).0.None? {
          if i > 0 { assert attempts[i] == attempts[1..][i - 1]; }
        }
      }
    }
  }

  datatype Receiver = Receiver(box: Box, suspended: bool)

  /** What can happen to one mailbox: mail arrives, the runtime withdraws an entry, or a turn runs. */
  datatype Happening = Arrive(envelope: Envelope) | Withdraw(p: Queued -> bool) | Turn

  datatype Handled = Handled(entry: Queued, whileSuspended: bool)

  function Next(r: Receiver, event: Happening): (Receiver, seq<Handled>) {
    match event
    case Arrive(e) => (if r.box.IsFullFor(e) then r else r.(box := r.box.Push(e)), [])
    case Withdraw(p) => (r.(box := Receive(r.box, p).1), [])
    case Turn =>
      match TakeNext(r.box, r.suspended)
      case (None, _) => (r, [])
      case (Some(q), rest) =>
        (Receiver(rest, AfterSystemMessage(r.suspended, q.envelope)), [Handled(q, r.suspended)])
  }

  function HandledBy(r: Receiver, events: seq<Happening>): seq<Handled>
    decreases |events|
  {
    if events == [] then []
    else Next(r, events[0]).1 + HandledBy(Next(r, events[0]).0, events[1..])
  }

  function AfterAll(r: Receiver, events: seq<Happening>): Receiver
    decreases |events|
  {
    if events == [] then r else AfterAll(Next(r, events[0]).0, events[1..])
  }

  lemma {:induction false} HappeningsConcat(r: Receiver, s: seq<Happening>, t: seq<Happening>)
    ensures AfterAll(r, s + t) == AfterAll(AfterAll(r, s), t)
    ensures HandledBy(r, s + t) == HandledBy(r, s) + HandledBy(AfterAll(r, s), t)
    decreases |s|
  {
    hide Next;
    if s == [] {
      assert s + t == t;
    } else {
      HappeningsConcat(Next(r, s[0]).0, s[1..], t);
      assert (s + t)[1..] == s[1..] + t;
    }
  }

  /** Every queued entry of lane `k` has a number of at least `floor(k)`. */
  ghost predicate Above(r: Receiver, floor: Lane -> nat) {
    && Sequenced(r.box)
    && (forall k: Lane :: floor(k) <= r.box.nextSequence)
    && (forall i :: 0 <= i < |r.box.queue| ==> floor(LaneOf(r.box.queue[i].envelope)) <= r.box.queue[i].sequence)
  }

  ghost predicate InLaneOrder(h: seq<Handled>, floor: Lane -> nat) {
    && (forall i :: 0 <= i < |h| ==> floor(LaneOf(h[i].entry.envelope)) <= h[i].entry.sequence)
    && (forall i, j :: 0 <= i < j < |h| && LaneOf(h[i].entry.envelope) == LaneOf(h[j].entry.envelope)
          ==> h[i].entry.sequence < h[j].entry.sequence)
  }

  function Raise(floor: Lane -> nat, q: Queued): Lane -> nat {
    (k: Lane) => if k == LaneOf(q.envelope) then q.sequence + 1 else floor(k)
  }

  lemma RemovalKeepsAbove(r: Receiver, i: nat, floor: Lane -> nat)
    requires Above(r, floor) && i < |r.box.queue|
    ensures Above(r.(box := r.box.RemoveAt(i)), floor)
  {
    var rest := r.box.RemoveAt(i).queue;
    assert forall k :: 0 <= k < |rest| ==> rest[k] == r.box.queue[if k < i then k else k + 1];
  }

  /** Taking the first entry of a lane leaves only larger numbers of that lane behind. */
  lemma TakingFirstOfLane(r: Receiver, i: nat, floor: Lane -> nat)
    requires Above(r, floor) && i < |r.box.queue|
    requires forall j :: 0 <= j < i ==> LaneOf(r.box.queue[j].envelope) != LaneOf(r.box.queue[i].envelope)
    ensures Above(r.(box := r.box.RemoveAt(i)), Raise(floor, r.box.queue[i]))
    ensures floor(LaneOf(r.box.queue[i].envelope)) <= r.box.queue[i].sequence
  {
    RemovalKeepsAbove(r, i, floor);
    var rest := r.box.RemoveAt(i).queue;
    assert forall k :: 0 <= k < |rest| ==> rest[k] == r.box.queue[if k < i then k else k + 1];
  }

  /** The default receive always takes the oldest entry of its lane. */
  lemma TakesFirstOfLane(b: Box, suspended: bool)
    ensures var taken := TakeNext(b, suspended);
      taken.0.Some? ==> exists i: nat ::
        && i < |b.queue| && b.queue[i] == taken.0.value && b.RemoveAt(i) == taken.1
        && (forall j :: 0 <= j < i ==> LaneOf(b.queue[j].envelope) != LaneOf(b.queue[i].envelope))
        && (suspended ==> LaneOf(b.queue[i].envelope) != UserLane)
  {
    var p := if suspended then RUNNABLE_MAIL else if Receive(b, SYSTEM_MAIL).0.Some? then SYSTEM_MAIL else AnyEntry;
    var found := FirstMatch(b.queue, p);
    assert TakeNext(b, suspended) == Receive(b, p);
    if found.Some? {
      var i := found.value;
      assert IsFirstMatch(b.queue, p, i);
      assert i < |b.queue| && b.queue[i] == Receive(b, p).0.value && b.RemoveAt(i) == Receive(b, p).1;
    }
  }

  lemma TurnKeepsAbove(r: Receiver, floor: Lane -> nat)
    requires Above(r, floor)
    ensures var taken := TakeNext(r.box, r.suspended);
      taken.0.Some? ==>
        && Above(r.(box := taken.1), Raise(floor, taken.0.value))
        && floor(LaneOf(taken.0.value.envelope)) <= taken.0.value.sequence
        && (r.suspended ==> LaneOf(taken.0.value.envelope) != UserLane)
  {
    TakesFirstOfLane(r.box, r.suspended);
    hide TakeNext, Above;
    var taken := TakeNext(r.box, r.suspended);
    if taken.0.Some? {
      var i: nat :| i < |r.box.queue| && r.box.queue[i] == taken.0.value && r.box.RemoveAt(i) == taken.1
        && (forall j :: 0 <= j < i ==> LaneOf(r.box.queue[j].envelope) != LaneOf(r.box.queue[i].envelope))
        && (r.suspended ==> LaneOf(r.box.queue[i].envelope) != UserLane);
      TakingFirstOfLane(r, i, floor);
    }
  }

  lemma NextKeepsAbove(r: Receiver, event: Happening, floor: Lane -> nat)
    requires Above(r, floor)
    ensures var (after, h) := Next(r, event);
      if h == [] then Above(after, floor)
      else
        && |h| == 1 && Above(after, Raise(floor, h[0].entry))
        && floor(LaneOf(h[0].entry.envelope)) <= h[0].entry.sequence
        && (h[0].whileSuspended ==> LaneOf(h[0].entry.envelope) != UserLane)
  {
    match event
    case Arrive(e) =>
    case Withdraw(p) =>
      var found := FirstMatch(r.box.queue, p);
      if found.Some? { RemovalKeepsAbove(r, found.value, floor); }
    case Turn => TurnKeepsAbove(r, floor);
  }

  /**
   * Over any run of arrivals, withdrawals, suspends, resumes and turns, an actor that uses the
   * default receive sees each lane in the order of acceptance, and no user mail while suspended.
   */
  lemma {:induction false} LanesAreFifo(r: Receiver, events: seq<Happening>, floor: Lane -> nat)
    requires Above(r, floor)
    ensures InLaneOrder(HandledBy(r, events), floor)
    ensures forall i :: 0 <= i < |HandledBy(r, events)| && HandledBy(r, events)[i].whileSuspended
              ==> LaneOf(HandledBy(r, events)[i].entry.envelope) != UserLane
    decreases |events|
  {
    hide Next, Above;
    if events != [] {
      var (after, h) := Next(r, events[0]);
      NextKeepsAbove(r, events[0], floor);
      if h == [] {
        LanesAreFifo(after, events[1..], floor);
        assert HandledBy(r, events) == HandledBy(after, events[1..]);
      } else {
        LanesAreFifo(after, events[1..], Raise(floor, h[0].entry));
        assert HandledBy(r, events) == [h[0]] + HandledBy(after, events[1..]);
      }
    }
  }

  predicate Switches(h: Handled) { h.entry.envelope == System(Suspend) || h.entry.envelope == System(Resume) }

  /** Suspended to begin with or by the last switch that was handled. */
  ghost predicate SuspendedBy(suspended: bool, h: seq<Handled>) {
    || (suspended && forall i :: 0 <= i < |h| ==> !Switches(h[i]))
    || (exists i :: 0 <= i < |h| && h[i].entry.envelope == System(Suspend) && forall j :: i < j < |h| ==> !Switches(h[j]))
  }

  /** One more entry at the front. */
  lemma SwitchedFirst(suspended: bool, first: Handled, h: seq<Handled>)
    ensures SuspendedBy(AfterSystemMessage(suspended, first.entry.envelope), h) <==> SuspendedBy(suspended, [first] + h)
  {
    hide SuspendedBy, AfterSystemMessage;
    if SuspendedBy(AfterSystemMessage(suspended, first.entry.envelope), h) { SwitchedBefore(suspended, first, h); }
    if SuspendedBy(suspended, [first] + h) { SwitchedAfter(suspended, first, h); }
  }

  lemma SwitchedBefore(suspended: bool, first: Handled, h: seq<Handled>)
    requires SuspendedBy(AfterSystemMessage(suspended, first.entry.envelope), h)
    ensures SuspendedBy(suspended, [first] + h)
  {
    var all := [first] + h;
    assert all[0] == first && forall i :: 0 < i < |all| ==> all[i] == h[i - 1];
    if i :| 0 <= i < |h| && h[i].entry.envelope == System(Suspend) && forall j :: i < j < |h| ==> !Switches(h[j]) {
      assert all[i + 1] == h[i];
    } else if first.entry.envelope == System(Suspend) {
      assert all[0].entry.envelope == System(Suspend);
    }
  }

  lemma SwitchedAfter(suspended: bool, first: Handled, h: seq<Handled>)
    requires SuspendedBy(suspended, [first] + h)
    ensures SuspendedBy(AfterSystemMessage(suspended, first.entry.envelope), h)
  {
    var all := [first] + h;
    assert all[0] == first && forall j :: 0 <= j < |h| ==> h[j] == all[j + 1];
    if i :| 0 <= i < |all| && all[i].entry.envelope == System(Suspend) && forall j :: i < j < |all| ==> !Switches(all[j]) {
      if i > 0 { assert h[i - 1] == all[i]; }
    }
  }

  /**
   * Over any run an actor is suspended exactly if it was so to begin with, or by the last Suspend or
   * Resume it has handled; and each entry was handled in the state its predecessors left.
   */
  lemma {:induction false} SuspensionFollows(r: Receiver, events: seq<Happening>)
    ensures AfterAll(r, events).suspended <==> SuspendedBy(r.suspended, HandledBy(r, events))
    ensures var h := HandledBy(r, events); forall i :: 0 <= i < |h| ==> (h[i].whileSuspended <==> SuspendedBy(r.suspended, h[..i]))
    decreases |events|
  {
    if events != [] {
      var (after, first) := Next(r, events[0]);
      SuspensionFollows(after, events[1..]);
      var rest, all := HandledBy(after, events[1..]), HandledBy(r, events);
      NextSwitches(r, events[0]);
      hide SuspendedBy, Next, AfterSystemMessage, HandledBy;
      assert all == first + rest by { HandledFirst(r, events); }
      if first == [] {
        assert all == rest;
      } else {
        SwitchedFirst(r.suspended, first[0], rest);
        forall i | 0 <= i < |all| ensures all[i].whileSuspended <==> SuspendedBy(r.suspended, all[..i]) {
          if i == 0 {
            NothingSwitches(r.suspended);
            assert all[..0] == [];
          } else {
            SwitchedFirst(r.suspended, first[0], rest[..i - 1]);
            assert all[..i] == [first[0]] + rest[..i - 1] && all[i] == rest[i - 1];
          }
        }
      }
    } else {
      NothingSwitches(r.suspended);
    }
  }

  lemma HandledFirst(r: Receiver, events: seq<Happening>)
    requires events != []
    ensures HandledBy(r, events) == Next(r, events[0]).1 + HandledBy(Next(r, events[0]).0, events[1..])
  {
  }

  lemma NothingSwitches(suspended: bool)
    ensures SuspendedBy(suspended, []) <==> suspended
  {
  }

  lemma NextSwitches(r: Receiver, event: Happening)
    ensures var (after, h) := Next(r, event);
      if h == [] then after.suspended == r.suspended
      else |h| == 1 && h[0].whileSuspended == r.suspended && after.suspended == AfterSystemMessage(r.suspended, h[0].entry.envelope)
  {
  }

  /** Control mail overtakes: whatever is queued, a pending control message is taken first. */
  lemma ControlMailFirst(b: Box)
    requires exists i :: 0 <= i < |b.queue| && b.queue[i].envelope.System?
    ensures TakeNext(b, false).0.Some? && TakeNext(b, false).0.value.envelope.System?
  {
    var i :| 0 <= i < |b.queue| && b.queue[i].envelope.System?;
    assert SYSTEM_MAIL(b.queue[i]);
  }

  /** The default receive finds nothing exactly when nothing it may take is queued. */
  lemma NothingToTake(b: Box, suspended: bool)
    ensures TakeNext(b, suspended).0.None?
      <==> forall i :: 0 <= i < |b.queue| ==> suspended && !b.queue[i].envelope.CanRunWhileSuspended()
    ensures TakeNext(b, suspended).0.None? ==> TakeNext(b, suspended).1 == b
  {
    if suspended {
      assert FirstMatch(b.queue, RUNNABLE_MAIL).None? <==> NoMatch(b.queue, RUNNABLE_MAIL);
      if NoMatch(b.queue, RUNNABLE_MAIL) {
        assert forall i :: 0 <= i < |b.queue| ==> !RUNNABLE_MAIL(b.queue[i]);
      }
    } else if b.queue != [] {
      assert AnyEntry(b.queue[0]);
    }
  }
}
