/** The worker that runs one actor in the concurrent runtime, and the senders that wake it. */
module Workers {
  import opened Types
  import opened Mailboxes
  import opened Receiving

  /** Where the worker stands between two atomic steps. */
  datatype Stage =
    | Initialise                            // the task begins
    | Initialising                          // the actor's first hook runs
    | CheckForced                           // the top of the loop: has an exit been forced?
    | Select                                // take an envelope
    | SetWaiting                            // nothing to take: say so under the lock
    | AboutToAwait                          // the lock is released, the wait has not begun
    | Parked                                // waiting for a notification
    | Claimed(envelope: Envelope)           // an envelope is in hand, its effects are not applied yet
    | Turn(envelope: Envelope)              // the handler runs
    | AfterTurn(yielded: bool)
    | Ending(reason: ExitReason)            // the actor is to end, and its status does not say so yet
    | Finishing(reason: ExitReason)         // the termination hook runs
    | Finished

  /**
   * One actor's record with its task, the stored permit of its notifier, and the number of senders
   * that have changed the record but not notified yet.
   */
  datatype Cell = Cell(
    stage: Stage,
    box: Box,
    suspended: bool,
    status: Status,
    initialized: bool,
    forced: Option<ExitReason>,
    alive: bool,
    permit: bool,
    notifying: nat,
    budget: nat)

  datatype Outcome = Continue(yielded: bool) | Exit(reason: ExitReason)

  // ------------------------------------------------------------------ steps of other tasks

  /** A send: the envelope goes in under the lock, the notification is still to come. */
  function Push(c: Cell, e: Envelope): Cell {
    if !c.alive || c.box.IsFullFor(e) then c
    else
      c.(box := c.box.Push(e), notifying := c.notifying + 1, status := if c.status == Waiting then Runnable else c.status)
  }

  function ForceExit(c: Cell, reason: ExitReason): Cell {
    if !c.alive then c else c.(forced := Some(reason), status := Exiting, notifying := c.notifying + 1)
  }

  /** A notification wakes a parked task, or else leaves at most one permit. */
  function NotifyOne(c: Cell): Cell {
    if c.notifying == 0 then c
    else if c.stage == Parked then c.(notifying := c.notifying - 1, stage := CheckForced)
    else c.(notifying := c.notifying - 1, permit := true)
  }

  /** A timer or call timeout is withdrawn from the mailbox. */
  function WithdrawFrom(c: Cell, p: Queued -> bool): Cell {
    if !c.alive then c else c.(box := Receive(c.box, p).1)
  }

  // ------------------------------------------------------------------ steps of the worker itself

  function AfterInit(c: Cell, outcome: Outcome, failed: bool): Cell {
    match outcome
    case Exit(reason) =>
      if failed then c.(stage := Ending(reason)) else c.(stage := Ending(reason), initialized := true, status := Exiting)
    case Continue(_) =>
      c.(stage := CheckForced, initialized := true, status := if c.box.queue == [] then Waiting else Runnable)
  }

  function Check(c: Cell): Cell {
    match c.forced
    case Some(reason) => c.(stage := Ending(reason), forced := None, status := Exiting)
    case None => c.(stage := Select)
  }

  function TakeEnvelope(c: Cell): Cell {
    match TakeNext(c.box, c.suspended)
    case (None, _) => c.(stage := SetWaiting)
    case (Some(q), rest) => c.(stage := Claimed(q.envelope), box := rest)
  }

  function Await(c: Cell): Cell {
    if c.permit then c.(stage := CheckForced, permit := false) else c.(stage := Parked)
  }

  function Begin(c: Cell, e: Envelope): Cell {
    c.(stage := Stage.Turn(e), suspended := AfterSystemMessage(c.suspended, e), status := Running)
  }

  function EndTurn(c: Cell, outcome: Outcome): Cell {
    match outcome
    case Exit(reason) => c.(stage := Ending(reason))
    case Continue(yielded) => c.(stage := AfterTurn(yielded))
  }

  function Settle(c: Cell, yielded: bool, limit: nat): Cell {
    c.(stage := CheckForced, status := if c.box.queue == [] then Waiting else Runnable,
       budget := if yielded || c.budget + 1 >= Max(limit, 1) then 0 else c.budget + 1)
  }

  function Max(a: nat, b: nat): nat { if a < b then b else a }

  /** The next step of the worker; what user code does is given. A parked worker has none. */
  function Advance(c: Cell, outcome: Outcome, failed: bool, limit: nat): Cell {
    match c.stage
    case Initialise => c.(stage := Initialising, status := Running)
    case Initialising => AfterInit(c, outcome, failed)
    case CheckForced => Check(c)
    case Select => TakeEnvelope(c)
    case SetWaiting => c.(stage := AboutToAwait, status := Waiting)
    case AboutToAwait => Await(c)
    case Parked => c
    case Claimed(e) => Begin(c, e)
    case Turn(_) => EndTurn(c, outcome)
    case AfterTurn(yielded) => Settle(c, yielded, limit)
    case Ending(reason) => c.(stage := Finishing(reason), status := Exiting)
    case Finishing(_) => c.(stage := Finished, alive := false, status := Dead)
    case Finished => c
  }

  datatype Step =
    | DoPush(envelope: Envelope)
    | DoForceExit(reason: ExitReason)
    | DoNotify
    | DoWithdraw(p: Queued -> bool)
    | DoAdvance(outcome: Outcome, failed: bool)

  function Apply(c: Cell, step: Step, limit: nat): Cell {
    match step
    case DoPush(e) => Push(c, e)
    case DoForceExit(reason) => ForceExit(c, reason)
    case DoNotify => NotifyOne(c)
    case DoWithdraw(p) => WithdrawFrom(c, p)
    case DoAdvance(outcome, failed) => Advance(c, outcome, failed, limit)
  }

  function RunTask(c: Cell, steps: seq<Step>, limit: nat): Cell
    decreases |steps|
  {
    if steps == [] then c else RunTask(Apply(c, steps[0], limit), steps[1..], limit)
  }

  // ------------------------------------------------------------------ no wakeup is lost

  predicate Awake(c: Cell) { c.permit || c.notifying > 0 }

  ghost predicate NothingFor(c: Cell) { c.forced == None && TakeNext(c.box, c.suspended).0 == None }

  /** Whatever the worker has already looked past, a notification is on its way. */
  ghost predicate NoLostWakeup(c: Cell) {
    && (c.stage == Parked ==> !c.permit)
    && (c.stage == Select ==> Awake(c) || c.forced == None)
    && (c.stage == SetWaiting || c.stage == AboutToAwait || c.stage == Parked ==> Awake(c) || NothingFor(c))
  }

  lemma RemovalLeavesNothing(b: Box, suspended: bool, p: Queued -> bool)
    requires TakeNext(b, suspended).0 == None
    ensures TakeNext(Receive(b, p).1, suspended).0 == None
  {
    NothingToTake(b, suspended);
    NothingToTake(Receive(b, p).1, suspended);
    hide TakeNext;
    var found := FirstMatch(b.queue, p);
    if found.Some? {
      var i := found.value;
      assert forall k :: 0 <= k < |b.RemoveAt(i).queue| ==> b.RemoveAt(i).queue[k] == b.queue[if k < i then k else k + 1];
    }
  }

  lemma ApplyKeepsWakeups(c: Cell, step: Step, limit: nat)
    requires NoLostWakeup(c)
    ensures NoLostWakeup(Apply(c, step, limit))
  {
    hide TakeNext, Receive, Advance;
    match step
    case DoAdvance(outcome, failed) => AdvanceKeepsWakeups(c, outcome, failed, limit);
    case DoWithdraw(p) =>
      if TakeNext(c.box, c.suspended).0 == None { RemovalLeavesNothing(c.box, c.suspended, p); }
    case _ =>
  }

  lemma AdvanceKeepsWakeups(c: Cell, outcome: Outcome, failed: bool, limit: nat)
    requires NoLostWakeup(c)
    ensures NoLostWakeup(Advance(c, outcome, failed, limit))
  {
    hide TakeNext, AfterInit, EndTurn, Settle;
    BackToTheTop(c, outcome, failed, if c.stage.AfterTurn? then c.stage.yielded else false, limit);
  }

  lemma BackToTheTop(c: Cell, outcome: Outcome, failed: bool, yielded: bool, limit: nat)
    ensures var d := AfterInit(c, outcome, failed); d.stage.CheckForced? || d.stage.Ending?
    ensures var d := EndTurn(c, outcome); d.stage.AfterTurn? || d.stage.Ending?
    ensures Settle(c, yielded, limit).stage.CheckForced?
  {
  }

  lemma {:induction false} RunKeepsWakeups(c: Cell, steps: seq<Step>, limit: nat)
    requires NoLostWakeup(c)
    ensures NoLostWakeup(RunTask(c, steps, limit))
    decreases |steps|
  {
    hide NoLostWakeup, Apply;
    if steps != [] {
      ApplyKeepsWakeups(c, steps[0], limit);
      RunKeepsWakeups(Apply(c, steps[0], limit), steps[1..], limit);
    }
  }

  /** A worker as it is spawned: its first hook is to run, and the spawner is about to notify it. */
  function Spawned(capacity: nat, runtimeReserve: nat): Cell {
    Cell(Initialise, Limited(capacity, runtimeReserve), false, Starting, false, None, true, false, 1, 0)
  }

  /**
   * In every interleaving: a parked worker with no permit and no notification under way has no exit
   * forced on it, and unless suspended its mailbox is empty.
   */
  lemma ParkedMeansNothingToDo(capacity: nat, runtimeReserve: nat, steps: seq<Step>, limit: nat)
    ensures var c := RunTask(Spawned(capacity, runtimeReserve), steps, limit);
      c.stage == Parked && !c.permit && c.notifying == 0 ==>
        && c.forced == None
        && (!c.suspended ==> c.box.queue == [])
        && (forall i :: 0 <= i < |c.box.queue| ==> !c.box.queue[i].envelope.CanRunWhileSuspended())
  {
    hide TakeNext;
    var c := RunTask(Spawned(capacity, runtimeReserve), steps, limit);
    RunKeepsWakeups(Spawned(capacity, runtimeReserve), steps, limit);
    NothingToTake(c.box, c.suspended);
    assert c.box.queue != [] ==> c.box.queue[0] in c.box.queue;
  }

  // ------------------------------------------------------------------ a forced exit is obeyed within one turn

  /** The exit is forced, or already being carried out. */
  predicate Doomed(c: Cell) { c.forced.Some? || c.stage.Ending? || c.stage.Finishing? || c.stage.Finished? }

  /** How many turns can still begin. */
  function TurnsLeft(c: Cell): nat {
    match c.stage
    case Select => 1
    case Claimed(_) => 1
    case _ => 0
  }

  function TurnsBegun(c: Cell, steps: seq<Step>, limit: nat): nat
    decreases |steps|
  {
    if steps == [] then 0
    else TurnsBegun(Apply(c, steps[0], limit), steps[1..], limit) + if steps[0].DoAdvance? && c.stage.Claimed? then 1 else 0
  }

  lemma DoomedStaysDoomed(c: Cell, step: Step, limit: nat)
    requires Doomed(c)
    ensures Doomed(Apply(c, step, limit))
    ensures TurnsLeft(Apply(c, step, limit)) + (if step.DoAdvance? && c.stage.Claimed? then 1 else 0) <= TurnsLeft(c)
  {
    hide TakeNext, Receive;
  }

  /** However the rest of the run goes, at most one more turn begins once an exit has been forced. */
  lemma {:induction false} ForcedExitIsPrompt(c: Cell, steps: seq<Step>, limit: nat)
    requires Doomed(c)
    ensures TurnsBegun(c, steps, limit) <= TurnsLeft(c) <= 1
    decreases |steps|
  {
    hide Apply, Doomed, TurnsLeft;
    TurnsLeftBound(c);
    if steps != [] {
      DoomedStaysDoomed(c, steps[0], limit);
      ForcedExitIsPrompt(Apply(c, steps[0], limit), steps[1..], limit);
    }
  }

  lemma TurnsLeftBound(c: Cell)
    ensures TurnsLeft(c) <= 1
  {
  }

  // ------------------------------------------------------------------ an actor that is to end does, for that reason

  /** The end for this reason is decided, under way, or done. */
  predicate Ends(c: Cell, reason: ExitReason) { c.stage == Ending(reason) || c.stage == Finishing(reason) || c.stage == Finished }

  function Advances(steps: seq<Step>): nat
    decreases |steps|
  {
    if steps == [] then 0 else Advances(steps[1..]) + if steps[0].DoAdvance? then 1 else 0
  }

  /** How many steps of its own the worker has before it is finished. */
  function StepsLeft(c: Cell): nat {
    match c.stage
    case Ending(_) => 2
    case Finishing(_) => 1
    case _ => 0
  }

  lemma EndingStep(c: Cell, step: Step, limit: nat, reason: ExitReason)
    requires Ends(c, reason)
    ensures Ends(Apply(c, step, limit), reason)
    ensures StepsLeft(Apply(c, step, limit)) == Monus(StepsLeft(c), if step.DoAdvance? then 1 else 0)
    ensures c.stage == Finished || StepsLeft(c) > 0
  {
    hide TakeEnvelope, AfterInit, EndTurn, Check, Await, Settle, Begin, Receive;
  }

  /** Once the end is decided no turn begins, and two more steps of the worker finish it. */
  lemma {:induction false} EndIsFinal(c: Cell, steps: seq<Step>, limit: nat, reason: ExitReason)
    requires Ends(c, reason)
    ensures Ends(RunTask(c, steps, limit), reason) && TurnsBegun(c, steps, limit) == 0
    ensures Advances(steps) >= 2 ==> RunTask(c, steps, limit).stage == Finished
    ensures Advances(steps) >= StepsLeft(c) ==> RunTask(c, steps, limit).stage == Finished
    decreases |steps|
  {
    hide Apply;
    EndingStep(c, if steps == [] then DoNotify else steps[0], limit, reason);
    if steps != [] { EndIsFinal(Apply(c, steps[0], limit), steps[1..], limit, reason); }
  }

  /** A handler or first hook that ends with an exit ends the actor, for that reason and at once. */
  lemma ExitEndsTheActor(c: Cell, reason: ExitReason, failed: bool, steps: seq<Step>, limit: nat)
    requires c.stage.Turn? || c.stage == Initialising
    ensures var d := Apply(c, DoAdvance(Outcome.Exit(reason), failed), limit);
      && d.stage == Ending(reason) && d.box == c.box && (d.initialized <==> c.initialized || (c.stage == Initialising && !failed))
      && Ends(RunTask(d, steps, limit), reason) && TurnsBegun(d, steps, limit) == 0
      && (Advances(steps) >= 2 ==> RunTask(d, steps, limit).stage == Finished)
  {
    var d := Apply(c, DoAdvance(Outcome.Exit(reason), failed), limit);
    assert d.stage == Ending(reason) && d.box == c.box && (d.initialized <==> c.initialized || (c.stage == Initialising && !failed));
    hide Apply, RunTask, TurnsBegun;
    EndIsFinal(d, steps, limit, reason);
  }

  /** Back at the top of the loop after a turn or the first hook, the status says whether mail is left. */
  lemma StatusTellsOfMail(c: Cell, yielded: bool, failed: bool, limit: nat)
    requires c.stage.AfterTurn? || c.stage == Initialising
    ensures var d := Apply(c, DoAdvance(Continue(yielded), failed), limit);
      && d.stage == CheckForced && d.box == c.box && d.status == (if |c.box.queue| > 0 then Runnable else Waiting)
      && (c.stage == Initialising ==> d.initialized && d.budget == c.budget)
      && (c.stage.AfterTurn? ==> d.budget == 0 || (d.budget == c.budget + 1 && !c.stage.yielded))
  {
  }

  /** A handler that goes on does not end the actor. */
  lemma GoingOnGoesOn(c: Cell, yielded: bool, failed: bool, limit: nat)
    requires c.stage.Turn? || c.stage == Initialising
    ensures var d := Apply(c, DoAdvance(Continue(yielded), failed), limit);
      d.box == c.box && d.forced == c.forced && d.alive == c.alive && (d.stage == AfterTurn(yielded) || d.stage == CheckForced)
  {
  }

  lemma ForcedStep(c: Cell, step: Step, limit: nat, reason: ExitReason)
    requires (c.forced == Some(reason) || Ends(c, reason)) && !step.DoForceExit?
    ensures var d := Apply(c, step, limit); d.forced == Some(reason) || Ends(d, reason)
  {
    hide Receive, Advance;
    if Ends(c, reason) {
      EndingStep(c, step, limit, reason);
    } else if step.DoAdvance? {
      ForcedAdvance(c, step.outcome, step.failed, limit, reason);
    }
  }

  /** Only the top of the loop looks at a forced exit. */
  lemma ForcedAdvance(c: Cell, outcome: Outcome, failed: bool, limit: nat, reason: ExitReason)
    requires c.forced == Some(reason)
    ensures var d := Advance(c, outcome, failed, limit); d.forced == Some(reason) || d.stage == Ending(reason)
  {
    hide TakeNext;
  }

  /** The last exit forced on a live actor stands, until it is carried out with that very reason. */
  lemma {:induction false} LastForcedCounts(c: Cell, reason: ExitReason, steps: seq<Step>, limit: nat)
    requires c.forced == Some(reason) || Ends(c, reason)
    requires forall i :: 0 <= i < |steps| ==> !steps[i].DoForceExit?
    ensures var d := RunTask(c, steps, limit); d.forced == Some(reason) || Ends(d, reason)
    decreases |steps|
  {
    hide Apply, Ends;
    if steps != [] {
      ForcedStep(c, steps[0], limit, reason);
      LastForcedCounts(Apply(c, steps[0], limit), reason, steps[1..], limit);
    }
  }

  lemma ForcedReasonIsCarriedOut(c: Cell, reason: ExitReason, steps: seq<Step>, limit: nat)
    requires c.alive && forall i :: 0 <= i < |steps| ==> !steps[i].DoForceExit?
    ensures var d := RunTask(Apply(c, DoForceExit(reason), limit), steps, limit);
      && (d.forced == Some(reason) || Ends(d, reason))
      && (d.stage == CheckForced ==> Apply(d, DoAdvance(Continue(false), false), limit).stage == Ending(reason))
  {
    LastForcedCounts(Apply(c, DoForceExit(reason), limit), reason, steps, limit);
  }

  // ------------------------------------------------------------------ what it handles, and in which state

  /** Turns only begin after a first hook that succeeded, and the budget is renewed in time. */
  ghost predicate InOrder(c: Cell, limit: nat) {
    && (c.initialized || c.stage in {Initialise, Initialising, Finished} || c.stage.Ending? || c.stage.Finishing?)
    && (c.budget == 0 || c.budget < limit)
  }

  lemma StepKeepsOrder(c: Cell, step: Step, limit: nat)
    requires InOrder(c, limit)
    ensures InOrder(Apply(c, step, limit), limit)
  {
    hide TakeNext, Receive;
  }

  lemma {:induction false} RunKeepsOrder(c: Cell, steps: seq<Step>, limit: nat)
    requires InOrder(c, limit)
    ensures InOrder(RunTask(c, steps, limit), limit)
    decreases |steps|
  {
    hide InOrder, Apply;
    if steps != [] {
      StepKeepsOrder(c, steps[0], limit);
      RunKeepsOrder(Apply(c, steps[0], limit), steps[1..], limit);
    }
  }

  /** The actor as a receiver: a claimed envelope counts as handled, its effects included. */
  function AsReceiver(c: Cell): Receiver {
    Receiver(c.box, if c.stage.Claimed? then AfterSystemMessage(c.suspended, c.stage.envelope) else c.suspended)
  }

  /** What a step is to the receiver, if anything. */
  function Happens(c: Cell, step: Step): seq<Happening> {
    match step
    case DoPush(e) => if c.alive then [Arrive(e)] else []
    case DoWithdraw(p) => if c.alive then [Withdraw(p)] else []
    case DoAdvance(_, _) => if c.stage == Select then [Happening.Turn] else []
    case _ => []
  }

  function AllHappens(c: Cell, steps: seq<Step>, limit: nat): seq<Happening>
    decreases |steps|
  {
    if steps == [] then [] else Happens(c, steps[0]) + AllHappens(Apply(c, steps[0], limit), steps[1..], limit)
  }

  /** The envelopes whose turns have begun. */
  function Begun(c: Cell, steps: seq<Step>, limit: nat): seq<Envelope>
    decreases |steps|
  {
    if steps == [] then []
    else (if steps[0].DoAdvance? then InClaim(c) else []) + Begun(Apply(c, steps[0], limit), steps[1..], limit)
  }

  function InClaim(c: Cell): seq<Envelope> { if c.stage.Claimed? then [c.stage.envelope] else [] }

  function Envelopes(h: seq<Handled>): seq<Envelope> {
    if h == [] then [] else Envelopes(h[..|h| - 1]) + [h[|h| - 1].entry.envelope]
  }

  lemma {:induction false} EnvelopesConcat(g: seq<Handled>, h: seq<Handled>)
    ensures Envelopes(g + h) == Envelopes(g) + Envelopes(h)
  {
    if h == [] {
      assert g + h == g;
    } else {
      EnvelopesConcat(g, h[..|h| - 1]);
      assert (g + h)[..|g + h| - 1] == g + h[..|h| - 1];
    }
  }

  /** What `InClaim` gains and loses: a claim is made by a turn of the receiver and given up as a turn begins. */
  ghost predicate Refines(c: Cell, d: Cell, events: seq<Happening>, begun: seq<Envelope>) {
    && AsReceiver(d) == AfterAll(AsReceiver(c), events)
    && InClaim(c) + Envelopes(HandledBy(AsReceiver(c), events)) == begun + InClaim(d)
  }

  lemma SelectRefines(c: Cell)
    requires c.stage == Select
    ensures Refines(c, TakeEnvelope(c), [Happening.Turn], [])
  {
    OneHappening(AsReceiver(c), Happening.Turn);
    hide TakeNext, HandledBy, AfterAll, Envelopes;
    assert InClaim(c) == [];
  }

  lemma SendersRefine(c: Cell, event: Happening, d: Cell)
    requires event.Arrive? || event.Withdraw?
    requires d.stage == c.stage && d.suspended == c.suspended && d.box == Next(AsReceiver(c), event).0.box
    ensures Refines(c, d, [event], [])
  {
    OneHappening(AsReceiver(c), event);
    hide HandledBy, AfterAll, Envelopes;
  }

  lemma QuietRefines(c: Cell, d: Cell)
    requires d.box == c.box && d.suspended == c.suspended && InClaim(d) == InClaim(c) == []
    ensures Refines(c, d, [], [])
  {
    OneHappening(AsReceiver(c), Happening.Turn);
    hide HandledBy, AfterAll, Envelopes;
  }

  lemma BeginRefines(c: Cell)
    requires c.stage.Claimed?
    ensures Refines(c, Begin(c, c.stage.envelope), [], InClaim(c))
  {
    OneHappening(AsReceiver(c), Happening.Turn);
    hide HandledBy, AfterAll, Envelopes;
  }

  lemma AdvanceIsQuiet(c: Cell, outcome: Outcome, failed: bool, limit: nat)
    requires c.stage != Select && !c.stage.Claimed?
    ensures var d := Advance(c, outcome, failed, limit); d.box == c.box && d.suspended == c.suspended && InClaim(d) == []
  {
    hide TakeEnvelope;
  }

  /** One step of the worker or a sender is at most one step of the receiver. */
  lemma StepRefines(c: Cell, step: Step, limit: nat)
    ensures Refines(c, Apply(c, step, limit), Happens(c, step), if step.DoAdvance? then InClaim(c) else [])
  {
    hide Refines, TakeEnvelope, Begin;
    match step
    case DoPush(e) => if c.alive { SendersRefine(c, Arrive(e), Push(c, e)); } else { StayRefines(c, c); }
    case DoWithdraw(p) => if c.alive { SendersRefine(c, Withdraw(p), WithdrawFrom(c, p)); } else { StayRefines(c, c); }
    case DoForceExit(reason) => StayRefines(c, ForceExit(c, reason));
    case DoNotify => StayRefines(c, NotifyOne(c));
    case DoAdvance(outcome, failed) =>
      if c.stage == Select {
        SelectRefines(c);
      } else if c.stage.Claimed? {
        BeginRefines(c);
      } else {
        AdvanceIsQuiet(c, outcome, failed, limit);
        hide Advance;
        QuietRefines(c, Advance(c, outcome, failed, limit));
      }
  }

  lemma StayRefines(c: Cell, d: Cell)
    requires d.box == c.box && d.suspended == c.suspended && InClaim(d) == InClaim(c)
    ensures Refines(c, d, [], [])
  {
    OneHappening(AsReceiver(c), Happening.Turn);
    hide HandledBy, AfterAll, Envelopes;
    assert InClaim(c) + [] == [] + InClaim(c);
  }

  lemma RefinesTransitive(c: Cell, d: Cell, e: Cell, s: seq<Happening>, t: seq<Happening>, m: seq<Envelope>, n: seq<Envelope>)
    requires Refines(c, d, s, m) && Refines(d, e, t, n)
    ensures Refines(c, e, s + t, m + n)
  {
    hide AsReceiver, InClaim, HandledBy, AfterAll, Envelopes;
    HappeningsConcat(AsReceiver(c), s, t);
    var h, k := HandledBy(AsReceiver(c), s), HandledBy(AsReceiver(d), t);
    EnvelopesConcat(h, k);
    assert InClaim(c) + (Envelopes(h) + Envelopes(k)) == (InClaim(c) + Envelopes(h)) + Envelopes(k);
    assert (m + InClaim(d)) + Envelopes(k) == m + (InClaim(d) + Envelopes(k));
    assert m + (n + InClaim(e)) == (m + n) + InClaim(e);
  }

  lemma OneHappening(r: Receiver, event: Happening)
    ensures AfterAll(r, [event]) == Next(r, event).0 && AfterAll(r, []) == r
    ensures HandledBy(r, [event]) == Next(r, event).1 && HandledBy(r, []) == []
    ensures forall h: Handled :: Envelopes([h]) == [h.entry.envelope]
    ensures Envelopes([]) == []
  {
    hide Next;
    assert [event][1..] == [];
    forall h: Handled ensures Envelopes([h]) == [h.entry.envelope] { assert [h][..0] == []; }
  }

  /**
   * Whatever the interleaving, the turns that begin are those of the receiver that sees the same
   * arrivals and withdrawals, in the same order and under the same suspension; a claimed envelope is next.
   */
  lemma {:induction false} RunRefinesReceiver(c: Cell, steps: seq<Step>, limit: nat)
    ensures Refines(c, RunTask(c, steps, limit), AllHappens(c, steps, limit), Begun(c, steps, limit))
    decreases |steps|
  {
    hide Apply, Happens, Refines, InClaim;
    if steps == [] {
      StayRefines(c, c);
    } else {
      var d := Apply(c, steps[0], limit);
      StepRefines(c, steps[0], limit);
      RunRefinesReceiver(d, steps[1..], limit);
      RefinesTransitive(c, d, RunTask(d, steps[1..], limit), Happens(c, steps[0]), AllHappens(d, steps[1..], limit),
        if steps[0].DoAdvance? then InClaim(c) else [], Begun(d, steps[1..], limit));
    }
  }

  // ------------------------------------------------------------------ what the idle test sees

  /** The test other threads use: waiting, with an empty mailbox. */
  predicate LooksIdle(c: Cell) { c.status == Waiting && c.box.queue == [] }

  /** An envelope is in a worker's hands. */
  predicate InHand(c: Cell) { c.stage.Claimed? || c.stage.Turn? }

  /** What the status can be at each stage: an exit may have been forced at any time, and the record goes last. */
  ghost predicate StatusFits(c: Cell) {
    && (c.alive <==> c.stage != Finished)
    && match c.stage
       case Initialise => c.status in {Starting, Exiting}
       case Initialising => c.status in {Running, Exiting}
       case Turn(_) => c.status in {Running, Exiting}
       case AfterTurn(_) => c.status in {Running, Exiting}
       case Ending(_) => c.status in {Running, Exiting}
       case Finishing(_) => c.status == Exiting
       case Finished => c.status == Dead
       case _ => c.status in {Waiting, Runnable, Exiting}
  }

  lemma ApplyKeepsStatus(c: Cell, step: Step, limit: nat)
    requires StatusFits(c)
    ensures StatusFits(Apply(c, step, limit))
  {
    hide TakeNext, Receive, AfterInit, Settle;
    if step.DoAdvance? { AdvanceKeepsStatus(c, step.outcome, step.failed, limit); }
  }

  lemma AdvanceKeepsStatus(c: Cell, outcome: Outcome, failed: bool, limit: nat)
    requires StatusFits(c)
    ensures StatusFits(Advance(c, outcome, failed, limit))
  {
    hide TakeNext;
  }

  lemma {:induction false} RunKeepsStatus(c: Cell, steps: seq<Step>, limit: nat)
    requires StatusFits(c)
    ensures StatusFits(RunTask(c, steps, limit))
    decreases |steps|
  {
    hide StatusFits, Apply;
    if steps != [] {
      ApplyKeepsStatus(c, steps[0], limit);
      RunKeepsStatus(Apply(c, steps[0], limit), steps[1..], limit);
    }
  }

  /** Envelopes that came in with a step, and envelopes that were withdrawn or whose turn ended with it. */
  function Came(c: Cell, step: Step): nat {
    if step.DoPush? && c.alive && !c.box.IsFullFor(step.envelope) then 1 else 0
  }

  function Gone(c: Cell, step: Step): nat {
    match step
    case DoWithdraw(p) => if c.alive && FirstMatch(c.box.queue, p).Some? then 1 else 0
    case DoAdvance(_, _) => if c.stage.Turn? then 1 else 0
    case _ => 0
  }

  function AllCame(c: Cell, steps: seq<Step>, limit: nat): nat
    decreases |steps|
  {
    if steps == [] then 0 else Came(c, steps[0]) + AllCame(Apply(c, steps[0], limit), steps[1..], limit)
  }

  function AllGone(c: Cell, steps: seq<Step>, limit: nat): nat
    decreases |steps|
  {
    if steps == [] then 0 else Gone(c, steps[0]) + AllGone(Apply(c, steps[0], limit), steps[1..], limit)
  }

  /** Envelopes still to be handled: in the mailbox, or in the worker's hands. */
  function Unhandled(c: Cell): nat { |c.box.queue| + if InHand(c) then 1 else 0 }

  lemma StepConserves(c: Cell, step: Step, limit: nat)
    ensures Unhandled(Apply(c, step, limit)) + Gone(c, step) == Unhandled(c) + Came(c, step)
  {
    hide TakeNext, Receive, AfterInit, Settle, EndTurn;
    if step.DoAdvance? { AdvanceConserves(c, step.outcome, step.failed, limit); }
    if step.DoWithdraw? { WithdrawalConserves(c, step.p); }
  }

  lemma WithdrawalConserves(c: Cell, p: Queued -> bool)
    ensures |WithdrawFrom(c, p).box.queue| + (if c.alive && FirstMatch(c.box.queue, p).Some? then 1 else 0) == |c.box.queue|
  {
  }

  /** Nothing is in hand, and the mailbox is as before. */
  predicate EmptyHanded(c: Cell, d: Cell) { d.box == c.box && !InHand(d) }

  lemma LoopKeepsBox(c: Cell, outcome: Outcome, failed: bool, yielded: bool, limit: nat)
    ensures EmptyHanded(c, AfterInit(c, outcome, failed)) && EmptyHanded(c, EndTurn(c, outcome))
    ensures EmptyHanded(c, Check(c)) && EmptyHanded(c, Await(c)) && EmptyHanded(c, Settle(c, yielded, limit))
  {
  }

  lemma TakingConserves(c: Cell)
    requires c.stage.Select?
    ensures Unhandled(TakeEnvelope(c)) == Unhandled(c)
  {
    BoxConserves(c.box, c.suspended);
    hide TakeNext;
  }

  lemma AdvanceConserves(c: Cell, outcome: Outcome, failed: bool, limit: nat)
    ensures Unhandled(Advance(c, outcome, failed, limit)) + (if c.stage.Turn? then 1 else 0) == Unhandled(c)
  {
    hide TakeEnvelope, AfterInit, EndTurn, Check, Await, Settle;
    LoopKeepsBox(c, outcome, failed, if c.stage.AfterTurn? then c.stage.yielded else false, limit);
    if c.stage.Select? { TakingConserves(c); }
  }

  lemma BoxConserves(b: Box, suspended: bool)
    ensures |TakeNext(b, suspended).1.queue| + (if TakeNext(b, suspended).0.Some? then 1 else 0) == |b.queue|
  {
  }

  lemma {:induction false} RunConserves(c: Cell, steps: seq<Step>, limit: nat)
    ensures Unhandled(RunTask(c, steps, limit)) + AllGone(c, steps, limit) == Unhandled(c) + AllCame(c, steps, limit)
    decreases |steps|
  {
    hide Apply, Unhandled, Came, Gone;
    if steps != [] {
      StepConserves(c, steps[0], limit);
      RunConserves(Apply(c, steps[0], limit), steps[1..], limit);
    }
  }

  /** Over every run: an actor that looks idle has handled all it accepted, unless it has claimed an envelope and not begun. */
  lemma LooksIdleExactly(capacity: nat, runtimeReserve: nat, steps: seq<Step>, limit: nat)
    ensures var start := Spawned(capacity, runtimeReserve);
      var c := RunTask(start, steps, limit);
      LooksIdle(c) ==>
        && (InHand(c) <==> c.stage.Claimed?)
        && AllCame(start, steps, limit) == AllGone(start, steps, limit) + if c.stage.Claimed? then 1 else 0
  {
    var start := Spawned(capacity, runtimeReserve);
    RunKeepsStatus(start, steps, limit);
    RunConserves(start, steps, limit);
  }

  /** A step of the worker in which no user code ends the actor. */
  function Going(): Step { DoAdvance(Continue(false), false) }

  /** Nothing to take at first; then an envelope arrives before the worker has said that it waits. */
  function Overtaken(e: Envelope): seq<Step> {
    [Going(), Going(), Going(), Going(), DoPush(e), Going(), DoNotify, Going(), Going(), Going()]
  }

  lemma TakesTheOnly(b: Box, e: Envelope)
    requires b.queue == [Queued(0, e)]
    ensures TakeNext(b, false) == (Some(Queued(0, e)), b.(queue := []))
  {
    var q := b.queue;
    assert q[..0] + q[1..] == [];
    if SYSTEM_MAIL(q[0]) {
      assert FirstMatch(q, SYSTEM_MAIL) == Some(0);
    } else {
      assert NoMatch(q, SYSTEM_MAIL);
      assert FirstMatch(q, AnyEntry) == Some(0);
    }
  }

  lemma TakesNothing(b: Box)
    requires b.queue == []
    ensures TakeNext(b, false) == (None, b)
  {
  }

  lemma RunTenSteps(c: Cell, s: seq<Step>, limit: nat)
    requires |s| == 10
    ensures RunTask(c, s, limit) ==
      var d := Apply(Apply(Apply(Apply(Apply(c, s[0], limit), s[1], limit), s[2], limit), s[3], limit), s[4], limit);
      Apply(Apply(Apply(Apply(Apply(d, s[5], limit), s[6], limit), s[7], limit), s[8], limit), s[9], limit)
  {
    hide Apply;
    RunTwoSteps(c, s, limit);
    var d := Apply(Apply(c, s[0], limit), s[1], limit);
    RunTwoSteps(d, s[2..], limit);
    var e := Apply(Apply(d, s[2], limit), s[3], limit);
    RunTwoSteps(e, s[4..], limit);
    var f := Apply(Apply(e, s[4], limit), s[5], limit);
    RunTwoSteps(f, s[6..], limit);
    RunTwoSteps(Apply(Apply(f, s[6], limit), s[7], limit), s[8..], limit);
  }

  lemma RunTwoSteps(c: Cell, s: seq<Step>, limit: nat)
    requires |s| >= 2
    ensures RunTask(c, s, limit) == RunTask(Apply(Apply(c, s[0], limit), s[1], limit), s[2..], limit)
    ensures s[2..] == [] ==> RunTask(c, s, limit) == Apply(Apply(c, s[0], limit), s[1], limit)
  {
    hide Apply;
    assert s[1..][1..] == s[2..];
  }

  /** And that does happen to a newly spawned actor: it looks idle with the envelope in hand. */
  lemma LooksIdleWithEnvelopeInHand(capacity: nat, runtimeReserve: nat, e: Envelope, limit: nat)
    ensures var c := RunTask(Spawned(capacity, runtimeReserve), Overtaken(e), limit);
      LooksIdle(c) && c.stage == Claimed(e)
  {
    NewMailboxAccepts(capacity, runtimeReserve, e);
    hide TakeNext, RunTask;
    var g := Going();
    var c0 := Spawned(capacity, runtimeReserve);
    var c2 := Apply(Apply(c0, g, limit), g, limit);
    var c3 := Apply(c2, g, limit);
    TakesNothing(c3.box);
    var c4 := Apply(c3, g, limit);
    var c5 := Apply(c4, DoPush(e), limit);
    var c7 := Apply(Apply(c5, g, limit), DoNotify, limit);
    var c9 := Apply(Apply(c7, g, limit), g, limit);
    assert c9.stage == Select && c9.box.queue == [Queued(0, e)] && c9.status == Waiting && !c9.suspended;
    TakesTheOnly(c9.box, e);
    var c10 := Apply(c9, g, limit);
    assert LooksIdle(c10) && c10.stage == Claimed(e);
    RunTenSteps(c0, Overtaken(e), limit);
  }

  // ------------------------------------------------------------------ the record and its task, changed in place

  class ActorTask {
    var stage: Stage
    var box: Box
    var suspended: bool
    var status: Status
    var initialized: bool
    var forced: Option<ExitReason>
    var alive: bool
    var permit: bool
    var notifying: nat
    var budget: nat
    const limit: nat

    function State(): Cell
      reads this
    {
      Cell(stage, box, suspended, status, initialized, forced, alive, permit, notifying, budget)
    }

    constructor (capacity: nat, runtimeReserve: nat, limit: nat)
      ensures State() == Spawned(capacity, runtimeReserve) && NoLostWakeup(State()) && this.limit == limit
    {
      stage, box, suspended, status := Initialise, Limited(capacity, runtimeReserve), false, Starting;
      initialized, forced, alive, permit, notifying, budget := false, None, true, false, 1, 0;
      this.limit := limit;
    }

    method EnqueueEnvelope(e: Envelope) returns (ok: bool)
      modifies this
      ensures State() == Push(old(State()), e) && (ok <==> old(alive) && !old(box).IsFullFor(e))
    {
      if !alive || box.IsFullFor(e) {
        return false;
      }
      box := box.Push(e);
      if status == Waiting {
        status := Runnable;
      }
      notifying := notifying + 1;
      return true;
    }

    method RequestForceExit(reason: ExitReason) returns (ok: bool)
      modifies this
      ensures State() == ForceExit(old(State()), reason) && ok == old(alive)
    {
      if !alive {
        return false;
      }
      forced := Some(reason);
      status := Exiting;
      notifying := notifying + 1;
      return true;
    }

    method Notify()
      requires notifying > 0
      modifies this
      ensures State() == NotifyOne(old(State()))
    {
      notifying := notifying - 1;
      if stage == Parked {
        stage := CheckForced;
      } else {
        permit := true;
      }
    }

    /** The loop's first lock section: a forced exit is taken out and carried out. */
    method TakeForcedExit()
      requires stage == CheckForced
      modifies this
      ensures State() == Check(old(State()))
    {
      if forced.Some? {
        stage := Ending(forced.value);
        forced := None;
        status := Exiting;
      } else {
        stage := Select;
      }
    }

    method SelectEnvelope()
      requires stage == Select
      modifies this
      ensures State() == TakeEnvelope(old(State()))
    {
      var (taken, rest) := TakeNext(box, suspended);
      if taken.Some? {
        stage := Claimed(taken.value.envelope);
        box := rest;
      } else {
        stage := SetWaiting;
      }
    }

    /** The wait itself: a stored permit is used up, otherwise the worker parks. */
    method BeginWait()
      requires stage == AboutToAwait
      modifies this
      ensures State() == Await(old(State()))
    {
      if permit {
        permit := false;
        stage := CheckForced;
      } else {
        stage := Parked;
      }
    }

    method EndIteration(yielded: bool)
      requires stage == AfterTurn(yielded)
      modifies this
      ensures State() == Settle(old(State()), yielded, limit)
    {
      status := if box.queue == [] then Waiting else Runnable;
      budget := budget + 1;
      if yielded || budget >= Max(limit, 1) {
        budget := 0;
      }
      stage := CheckForced;
    }

    /** The next step of the worker, whatever it is. */
    method Proceed(outcome: Outcome, failed: bool)
      modifies this
      ensures State() == Advance(old(State()), outcome, failed, limit)
    {
      hide TakeNext;
      match stage {
        case CheckForced => TakeForcedExit();
        case Select => SelectEnvelope();
        case AboutToAwait => BeginWait();
        case AfterTurn(yielded) => EndIteration(yielded);
        case _ => Become(Advance(State(), outcome, failed, limit));
      }
    }

    method Become(c: Cell)
      modifies this
      ensures State() == c
    {
      stage, box, suspended, status := c.stage, c.box, c.suspended, c.status;
      initialized, forced, alive, permit, notifying, budget := c.initialized, c.forced, c.alive, c.permit, c.notifying, c.budget;
    }

    /** Any interleaving of the worker with its senders. */
    method Interleave(steps: seq<Step>)
      requires NoLostWakeup(State())
      modifies this
      ensures NoLostWakeup(State()) && State() == RunTask(old(State()), steps, limit)
    {
      hide NoLostWakeup, RunTask, Push, ForceExit, NotifyOne, WithdrawFrom, Advance;
      NoMoreSteps(State(), steps, limit);
      for i := 0 to |steps|
        invariant NoLostWakeup(State()) && RunTask(State(), steps[i..], limit) == RunTask(old(State()), steps, limit)
      {
        RunOneMore(State(), steps, i, limit);
        ApplyKeepsWakeups(State(), steps[i], limit);
        match steps[i] {
          case DoPush(e) => var _ := EnqueueEnvelope(e);
          case DoForceExit(reason) => var _ := RequestForceExit(reason);
          case DoNotify => if notifying > 0 { Notify(); } else { NothingToNotify(State()); }
          case DoWithdraw(p) => Become(WithdrawFrom(State(), p));
          case DoAdvance(outcome, failed) => Proceed(outcome, failed);
        }
      }
      NoMoreSteps(State(), steps, limit);
    }
  }

  lemma RunOneMore(c: Cell, steps: seq<Step>, i: nat, limit: nat)
    requires i < |steps|
    ensures RunTask(c, steps[i..], limit) == RunTask(Apply(c, steps[i], limit), steps[i + 1..], limit)
  {
    assert steps[i..][1..] == steps[i + 1..];
  }

  lemma NoMoreSteps(c: Cell, steps: seq<Step>, limit: nat)
    ensures RunTask(c, steps[0..], limit) == RunTask(c, steps, limit) && RunTask(c, steps[|steps|..], limit) == c
  {
    assert steps[0..] == steps;
  }

  lemma NothingToNotify(c: Cell)
    requires c.notifying == 0
    ensures NotifyOne(c) == c
  {
  }
}
