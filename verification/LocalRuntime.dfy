/** The single-threaded runtime: exits, scheduling, call timeouts and managed shutdown. */
module LocalRuntimes {
  import opened Types
  import opened Mailboxes
  import opened ExitSignals
  import opened LocalState
  import opened LocalCascade
  import opened LocalCauses
  import opened LocalBooks
  import opened LocalSteps
  import opened LocalReach
  import opened LocalTurns
  import opened Receiving

  /** Monitors and links worked off, closing the books completes the cascade. */
  lemma ClosingCompletes(w: World, e: Actor, n: World, reason: ExitReason, c: set<ActorId>)
    requires Inv(w) && Fits(w, e) && Inv(n) && Mentions(n, e.id, {}, map[], map[])
    requires Evolves(WithoutTimeouts(w, e.id), n, map[e.id := Verdict(FinalReason(e, reason), LinkReason(w, e, reason))])
    requires PlainAround(WithoutTimeouts(w, e.id), LinkReason(w, e, reason), e.links, c) ==>
      (Spread(WithoutTimeouts(w, e.id), n, LinkReason(w, e, reason), c) && Unharmed(n.actors, LinkReason(w, e, reason), e.links))
    requires CausesFollow(WithoutTimeouts(w, e.id), n, map[e.id := Verdict(FinalReason(e, reason), LinkReason(w, e, reason))], {})
    requires Announced(w.log, n.log, e.id, e.monitorsIn, FinalReason(e, reason))
    ensures var v := BooksClosed(n, e.id, FinalReason(e, reason));
      && Inv(v) && Evolves(Put(w, e), v, map[]) && CausesFollow(Put(w, e), v, map[], {e.id})
      && v.actors == n.actors && e.id in v.completed && v.completed[e.id] == FinalReason(e, reason)
      && (EndsPlainly(w, e, reason, c) ==> SpreadFrom(Put(w, e), v, LinkReason(w, e, reason), c, e.id, FinalReason(e, reason)))
  {
    hide Inv, Mentions, Evolves, CausesFollow, Announced, Plain, Closed, OneReason, Spread, SpreadFrom, Unharmed, PlainAround, Put, FinalReason,
      BooksClosed, WithoutTimeouts;
    TimeoutsDoNotMatter(w, e);
    BooksClosedShape(n, e.id, FinalReason(e, reason));
    var final, link := FinalReason(e, reason), LinkReason(w, e, reason);
    var gone := map[e.id := Verdict(final, link)];
    FinishEvolves(w, e, n, final, gone);
    MentionsOutside(n, e.id, {}, map[], map[]);
    CausesClose(w, e, n, final, gone);
    if EndsPlainly(w, e, reason, c) {
      EndIsPlainAround(w, e, link, c);
      FinishIsPlain(w, e, n, final, link, c, gone);
    }
  }

  lemma SameFinal(x: Actor, y: Actor, reason: ExitReason)
    requires x.id == y.id && x.terminatePanics == y.terminatePanics
    ensures FinalReason(x, reason) == FinalReason(y, reason)
  {
  }

  /** A watcher without room for its notice ends for that. */
  lemma WatcherEnds(w: World, u: World, watcher: ActorId, reference: Ref, actor: ActorId, gone: map<ActorId, Verdict>)
    requires Inv(w) && watcher in w.actors && actor !in w.actors && gone.Keys == {actor}
    requires reference in w.actors[watcher].monitorsOut && w.actors[watcher].monitorsOut[reference] == actor
    requires w.actors[watcher].mailbox.IsFullFor(Down(reference, actor, gone[actor].final))
    requires var v := DropOutgoing(w, watcher, reference);
      Evolves(v, u, map[]) && CausesFollow(v, u, map[], {watcher}) && watcher !in u.actors
    requires watcher in u.completed
    requires u.completed[watcher] == FinalReason(DropOutgoing(w, watcher, reference).actors[watcher], OverflowReason(watcher, "down"))
    ensures Evolves(w, u, gone) && CausesFollow(w, u, gone, {}) && Finished(w, u) == Finished(DropOutgoing(w, watcher, reference), u)
    ensures Announced(w.log, u.log, actor, map[], gone[actor].final)
  {
    hide Inv, Evolves, CausesFollow, Announced, Caused, Touches, FinalReason;
    var v := DropOutgoing(w, watcher, reference);
    DropOutgoingKeepsInv(w, watcher, reference, actor);
    TouchedThenEnded(w, v, u, watcher, actor, gone);
    SameFinal(v.actors[watcher], w.actors[watcher], OverflowReason(watcher, "down"));
    NoRoomForDownIsCause(w, u, gone, watcher, actor, reference);
    TouchedThenCaused(w, v, u, watcher, actor, gone, NoRoomForDown(actor, reference));
    SilentAbout(v, u, {watcher}, actor, gone[actor].final);
  }

  /** A linked actor that the signal ends has that for a cause. */
  lemma LinkedEnds(w: World, u: World, other: ActorId, actor: ActorId, gone: map<ActorId, Verdict>)
    requires Inv(w) && other in w.actors && actor !in w.actors && gone.Keys == {actor} && actor in w.actors[other].links
    requires EndsBy(w.actors[other], ExitSignal(actor, gone[actor].link, true))
    requires var v := DropLink(w, other, actor);
      Evolves(v, u, map[]) && CausesFollow(v, u, map[], {other}) && other !in u.actors
    requires other in u.completed
    requires var v := DropLink(w, other, actor);
      u.completed[other] == FinalReason(v.actors[other], SignalCause(other, v.actors[other], ExitSignal(actor, gone[actor].link, true)))
    ensures Evolves(w, u, gone) && CausesFollow(w, u, gone, {}) && Finished(w, u) == Finished(DropLink(w, other, actor), u)
    ensures Announced(w.log, u.log, actor, map[], gone[actor].final)
  {
    hide Inv, Evolves, CausesFollow, Announced, Caused, Touches, FinalReason;
    var v := DropLink(w, other, actor);
    DropLinkKeepsInv(w, other, actor);
    TouchedThenEnded(w, v, u, other, actor, gone);
    SameFinal(v.actors[other], w.actors[other], SignalCause(other, v.actors[other], ExitSignal(actor, gone[actor].link, true)));
    if Dies(w.actors[other].trapExit, gone[actor].link) {
      LinkIsCause(w, u, gone, other, actor);
      TouchedThenCaused(w, v, u, other, actor, gone, ByLink(actor));
    } else {
      NoRoomForExitIsCause(w, u, gone, other, actor);
      TouchedThenCaused(w, v, u, other, actor, gone, NoRoomForExit(actor));
    }
    SilentAbout(v, u, {other}, actor, gone[actor].final);
  }

  lemma BooksClosedShape(n: World, id: ActorId, final: ExitReason)
    ensures var v := BooksClosed(n, id, final); v.actors == n.actors && id in v.completed && v.completed[id] == final
  {
  }

  /** Whether a link signal ends the receiver, be it only for want of room. */
  predicate EndsBy(a: Actor, signal: ExitSignal) {
    Dies(a.trapExit, signal.reason) || (a.trapExit && a.mailbox.IsFullFor(Exit(signal)))
  }

  /** Why a link signal ends the receiver. */
  function SignalCause(target: ActorId, a: Actor, signal: ExitSignal): ExitReason {
    if Dies(a.trapExit, signal.reason) then signal.reason else OverflowReason(target, "exit")
  }

  /** Runtime mail has arrived at a live actor, which ended if it had no room for it. */
  ghost predicate Informed(w: World, v: World, actor: ActorId, e: Envelope, delivering: string) {
    if actor !in w.actors then v == w
    else if w.actors[actor].mailbox.IsFullFor(e) then EndedBy(w, v, actor, OverflowReason(actor, delivering))
    else v == Deliver(w, actor, e)
  }

  /** Without one timer: it has fired, or has been cancelled. */
  function Stopped(w: World, actor: ActorId, token: Ref): World { w.(timers := w.timers - {(actor, token)}) }

  /** What one event of a timer or a task does, and whether it counts as handled. */
  ghost predicate Ingested(event: DriverEvent, w: World, book: Book, handled: bool, v: World, later: Book) {
    match event
    case TimerFired(target, token) =>
      && later == book
      && if (target, token) !in w.timers then !handled && v == w
         else (handled <==> target in w.actors) && Informed(Stopped(w, target, token), v, target, Timer(token), "timer")
    case TaskCompleted(target, reference) =>
      later == book && (handled <==> target in w.actors) && Informed(w, v, target, Task(reference), "task")
    case CallTimedOut(target, reference) =>
      if (target, reference) !in w.callTimeouts then !handled && v == w && later == book
      else
        && (handled <==> target in w.actors) && Informed(Expire(w, target, reference), v, target, CallTimeout(reference), "call timeout")
        && (target in w.actors ==> book.fired[(target, reference)] == 0 && (target, reference) !in book.answered)
        && later == if target in w.actors && !w.actors[target].mailbox.IsFullFor(CallTimeout(reference))
                    then book.(fired := book.fired + multiset{(target, reference)}) else book
    case ShutdownTimedOut(target) =>
      && later == book && (handled <==> target in w.tasks)
      && if !handled then v == w else EndedBy(Append(w, TimeoutEvent(target, w.tasks[target])), v, target, Kill)
  }

  /** The states between the events that have arrived, and which of them counted. */
  datatype Intake = Intake(worlds: seq<World>, books: seq<Book>, handled: seq<bool>)

  ghost predicate IngestedAll(arrived: seq<DriverEvent>, intake: Intake) {
    && |intake.handled| == |arrived| && |intake.worlds| == |intake.books| == |arrived| + 1
    && forall i :: 0 <= i < |arrived| ==>
         Ingested(arrived[i], intake.worlds[i], intake.books[i], intake.handled[i], intake.worlds[i + 1], intake.books[i + 1])
  }

  lemma IngestedOneMore(arrived: seq<DriverEvent>, i: nat, intake: Intake, handled: bool, v: World, later: Book)
    requires i < |arrived| && IngestedAll(arrived[..i], intake)
    requires Ingested(arrived[i], intake.worlds[i], intake.books[i], handled, v, later)
    ensures IngestedAll(arrived[..i + 1], Intake(intake.worlds + [v], intake.books + [later], intake.handled + [handled]))
  {
    hide Ingested;
  }

  /** Why a turn ends its actor, if it does: a panic, then an exit it asked for, then its own verdict. */
  function EndReason(cur: Actor, exit: Option<ExitReason>, outcome: Outcome): Option<ExitReason> {
    match outcome
    case Panic => Some(PanicReason(cur))
    case Stop(reason) => if exit.Some? then exit else Some(reason)
    case Continue => exit
  }

  /** How a turn leaves the table: the actor is back in it, or has ended. */
  ghost predicate TurnEnds(w: World, cur: Actor, exit: Option<ExitReason>, outcome: Outcome, v: World) {
    match EndReason(cur, exit, outcome)
    case None => v == Return(w, cur)
    case Some(reason) => EndedWith(w, cur, reason, v)
  }

  /** The first hook: a failure counts whatever exit was asked for; success makes the actor initialised. */
  ghost predicate InitEnds(w: World, cur: Actor, exit: Option<ExitReason>, outcome: Outcome, v: World) {
    match outcome
    case Stop(reason) => EndedWith(w, cur, reason, v)
    case Panic => EndedWith(w, cur, PanicReason(cur), v)
    case Continue => TurnEnds(w, cur.(initialized := true), exit, Continue, v)
  }

  /** A whole turn of `cur`, from outside the table to the state `v` after it. */
  ghost predicate Driven(start: Moment, script: Script, trail: seq<Moment>, exits: seq<Option<ExitReason>>, v: World) {
    var cur := start.cur;
    if !cur.initialized then
      && ObeysAll(script.calls, trail, exits) && trail[0] == start.(cur := cur.(status := Running))
      && InitEnds(trail[|script.calls|].world, trail[|script.calls|].cur, LastExit(exits), script.outcome, v)
    else if cur.selective && script.selectPanics then EndedWith(start.world, cur, PanicReason(cur), v)
    else if Selected(cur, script).0.None? then v == Put(start.world, Park(cur))
    else
      && ObeysAll(script.calls, trail, exits) && trail[0] == start.(cur := Received(cur, script))
      && TurnEnds(trail[|script.calls|].world, trail[|script.calls|].cur, LastExit(exits), script.outcome, v)
  }

  /** The first entry of the run queue that is still in the table has been taken out for its turn. */
  ghost predicate TakenOut(w: World, k: nat, v: World, cur: Actor) {
    && k < |w.runQueue| && w.runQueue[k] in w.actors
    && (forall j :: 0 <= j < k ==> w.runQueue[j] !in w.actors)
    && cur == w.actors[w.runQueue[k]].(scheduled := false)
    && v == w.(actors := w.actors - {w.runQueue[k]}, runQueue := w.runQueue[k + 1..])
  }

  /**
   * One step of the driver: what has arrived is ingested, and then the first actor of the run queue that is
   * still there has its turn; without one the queue held nothing but stale entries.
   */
  ghost predicate StepOf(arrived: seq<DriverEvent>, script: Script, w: World, book: Book, v: World, later: Book,
      intake: Intake, start: Option<Moment>, trail: seq<Moment>, exits: seq<Option<ExitReason>>)
  {
    && IngestedAll(arrived, intake) && intake.worlds[0] == w && intake.books[0] == book
    && var drained := intake.worlds[|arrived|];
    match start
    case None =>
      later == intake.books[|arrived|] && v == drained.(runQueue := []) && forall k :: 0 <= k < |drained.runQueue| ==> drained.runQueue[k] !in drained.actors
    case Some(moment) =>
      && (exists k :: TakenOut(drained, k, moment.world, moment.cur)) && moment.book == intake.books[|arrived|]
      && Driven(moment, script, trail, exits, v)
  }

  /** What one command does. */
  ghost predicate Performed(c: Command, system: ActorId, w: World, book: Book, v: World, later: Book) {
    match c
    case SpawnFrom(id, options, admitted) =>
      if id in book.issued then v == w && later == book
      else later == Issue(book, id) && v == if admitted then Insert(w, Newborn(id, options, {})) else w
    case Send(to, e) => v == AfterSend(w, to, e) && later == BookAfterSend(w, to, e, book)
    case ExitNow(actor, reason) => later == book && if actor !in w.actors then v == w else EndedBy(w, v, actor, reason)
    case ShutDown(actor, policy) =>
      later == book
      && if actor !in w.actors then v == w
         else
           var tracked := Track(w, actor, Tracker(system, policy));
           actor in tracked.actors && ShutdownEffect(tracked, v, actor, system, policy)
    case Step(arrived, script) => exists intake, start, trail, exits :: StepOf(arrived, script, w, book, v, later, intake, start, trail, exits)
  }

  datatype Instant = Instant(world: World, book: Book)

  /** The states between the commands: each did what it should. */
  ghost predicate PerformedAll(commands: seq<Command>, system: ActorId, history: seq<Instant>) {
    && |history| == |commands| + 1
    && forall i :: 0 <= i < |commands| ==>
         Performed(commands[i], system, history[i].world, history[i].book, history[i + 1].world, history[i + 1].book)
  }

  lemma PerformedOneMore(commands: seq<Command>, system: ActorId, history: seq<Instant>, i: nat, v: World, later: Book)
    requires i < |commands| && PerformedAll(commands[..i], system, history)
    requires Performed(commands[i], system, history[i].world, history[i].book, v, later)
    ensures PerformedAll(commands[..i + 1], system, history + [Instant(v, later)])
  {
    hide Performed;
  }

  class LocalRuntime {
    var actors: map<ActorId, Actor>
    var completed: map<ActorId, ExitReason>
    var tasks: map<ActorId, Tracker>
    var callTimeouts: set<(ActorId, Ref)>
    var timers: set<(ActorId, Ref)>
    var runQueue: seq<ActorId>
    var log: seq<Event>
    var nextRef: Ref
    var issued: set<ActorId>
    ghost var answered: set<(ActorId, Ref)>
    ghost var fired: multiset<(ActorId, Ref)>

    ghost function W(): World
      reads this
    {
      World(actors, completed, tasks, callTimeouts, timers, runQueue, log)
    }

    ghost function B(): Book
      reads this
    {
      Book(issued, nextRef, answered, fired)
    }

    method RemoveOutgoingMonitors(actor: ActorId, monitoring: map<Ref, ActorId>, ghost gone: map<ActorId, Verdict>,
        ghost links: set<ActorId>, ghost incoming: map<Ref, ActorId>)
      requires Inv(W()) && Mentions(W(), actor, links, incoming, monitoring) && gone.Keys == {actor}
      modifies `actors
      ensures Inv(W()) && Mentions(W(), actor, links, incoming, map[])
      ensures Evolves(old(W()), W(), gone) && Finished(old(W()), W()) == {} && actors.Keys == old(actors.Keys)
      ensures CausesFollow(old(W()), W(), gone, {}) && log == old(log)
      ensures Plain(old(W())) ==> Plain(W())
    {
      hide Inv, Mentions, Evolves, CausesFollow, Plain;
      var rest := monitoring;
      MentionsOutside(W(), actor, links, incoming, monitoring);
      EvolvesReflexive(W(), gone);
      CausesReflexive(W(), gone, {});
      assert Finished(W(), W()) == {};
      while rest != map[]
        invariant Inv(W()) && Mentions(W(), actor, links, incoming, rest)
        invariant Evolves(old(W()), W(), gone) && Finished(old(W()), W()) == {} && actors.Keys == old(actors.Keys)
        invariant CausesFollow(old(W()), W(), gone, {}) && log == old(log)
        invariant Plain(old(W())) ==> Plain(W())
        decreases rest.Keys
      {
        var reference :| reference in rest;
        var target := rest[reference];
        ghost var w := W();
        ghost var before := rest;
        rest := rest - {reference};
        if target != actor && target in actors {
          MentionsOutside(w, actor, links, incoming, before);
          DropIncomingMentions(w, target, reference, actor, links, incoming, before);
          DropIncomingStep(w, target, reference, actor, gone);
          if Plain(w) { DropIncomingKeepsPlain(w, target, reference); }
          DropIncomingSpares(w, target, reference, actor, gone, {});
          EvolvesTransitive(old(W()), w, DropIncoming(w, target, reference), gone);
          CausesTransitive(old(W()), w, DropIncoming(w, target, reference), gone, {});
          actors := actors[target := actors[target].(monitorsIn := actors[target].monitorsIn - {reference})];
        } else {
          SkipOutgoing(w, actor, links, incoming, before, reference);
        }
      }
    }

    /** Tells everyone who watched the ending actor. A watcher whose mailbox is full ends as well. */
    method NotifyIncomingMonitors(actor: ActorId, reason: ExitReason, monitoredBy: map<Ref, ActorId>,
        ghost gone: map<ActorId, Verdict>, ghost links: set<ActorId>)
      requires Inv(W()) && Mentions(W(), actor, links, monitoredBy, map[])
      requires gone.Keys == {actor} && gone[actor].final == reason
      modifies `actors, `completed, `tasks, `callTimeouts, `timers, `runQueue, `log
      ensures Inv(W()) && Mentions(W(), actor, links, map[], map[])
      ensures Evolves(old(W()), W(), gone) && actors.Keys <= old(actors.Keys)
      ensures CausesFollow(old(W()), W(), gone, {}) && Announced(old(log), log, actor, monitoredBy, reason)
      ensures Plain(old(W())) ==> Plain(W()) && Finished(old(W()), W()) == {}
      decreases actors.Keys, 3, 0
    {
      hide Inv, Mentions, Evolves, CausesFollow, Announced, Plain, Deliver, DropOutgoing, Touches;
      var rest := monitoredBy;
      EvolvesReflexive(W(), gone);
      CausesReflexive(W(), gone, {});
      MentionsOutside(W(), actor, links, rest, map[]);
      NothingAnnounced(log, actor, reason);
      assert monitoredBy - rest.Keys == map[];
      while rest != map[]
        invariant Inv(W()) && Mentions(W(), actor, links, rest, map[])
        invariant Evolves(old(W()), W(), gone) && actors.Keys <= old(actors.Keys) && CausesFollow(old(W()), W(), gone, {})
        invariant forall r :: r in rest ==> r in monitoredBy && monitoredBy[r] == rest[r]
        invariant Announced(old(log), log, actor, monitoredBy - rest.Keys, reason)
        invariant Plain(old(W())) ==> Plain(W()) && Finished(old(W()), W()) == {}
        decreases rest.Keys
      {
        var reference :| reference in rest;
        var watcher := rest[reference];
        ghost var w := W();
        ghost var before := rest;
        rest := rest - {reference};
        if watcher == actor {
          SkipIncoming(w, actor, links, before, map[], reference);
          OneMoreAnnounced(old(log), log, log, actor, monitoredBy, before, reference, reason);
          continue;
        }
        NotifyWatcher(actor, reason, watcher, reference, gone, links, before);
        EvolvesTransitive(old(W()), w, W(), gone);
        CausesTransitive(old(W()), w, W(), gone, {});
        OneMoreAnnounced(old(log), w.log, log, actor, monitoredBy, before, reference, reason);
      }
      assert monitoredBy - rest.Keys == monitoredBy;
    }

    method ForgetReference(watcher: ActorId, reference: Ref)
      requires watcher in actors
      modifies `actors
      ensures W() == DropOutgoing(old(W()), watcher, reference) && actors.Keys == old(actors.Keys)
      ensures watcher in actors && actors[watcher].mailbox == old(actors[watcher].mailbox)
    {
      actors := actors[watcher := actors[watcher].(monitorsOut := actors[watcher].monitorsOut - {reference})];
    }

    /** One watcher: its reference is traded for a down message, and the notice is logged either way. */
    method NotifyWatcher(actor: ActorId, reason: ExitReason, watcher: ActorId, reference: Ref,
        ghost gone: map<ActorId, Verdict>, ghost links: set<ActorId>, ghost incoming: map<Ref, ActorId>)
      requires Inv(W()) && Mentions(W(), actor, links, incoming, map[])
      requires gone.Keys == {actor} && gone[actor].final == reason
      requires watcher != actor && reference in incoming && incoming[reference] == watcher
      modifies `actors, `completed, `tasks, `callTimeouts, `timers, `runQueue, `log
      ensures Inv(W()) && Mentions(W(), actor, links, incoming - {reference}, map[])
      ensures Evolves(old(W()), W(), gone) && actors.Keys <= old(actors.Keys)
      ensures CausesFollow(old(W()), W(), gone, {}) && Announced(old(log), log, actor, map[reference := watcher], reason)
      ensures Plain(old(W())) ==> Plain(W()) && Finished(old(W()), W()) == {}
      decreases actors.Keys, 2
    {
      hide Inv, Mentions, Evolves, CausesFollow, Announced, Caused, Plain, Touches, DropOutgoing;
      ghost var w := W();
      ghost var rest := incoming - {reference};
      MentionsOutside(w, actor, links, incoming, map[]);
      var event := DownEvent(watcher, actor, reference, reason);
      var e := Down(reference, actor, reason);
      NothingAnnounced(log, actor, reason);
      if watcher !in actors {
        SkipIncoming(w, actor, links, incoming, map[], reference);
        EvolvesReflexive(w, gone);
        CausesReflexive(w, gone, {});
        assert Finished(w, w) == {};
      } else {
        DropOutgoingMentions(w, watcher, reference, actor, links, incoming, map[]);
        DropOutgoingKeepsInv(w, watcher, reference, actor);
        DownFits(w, watcher, reference, e);
        ForgetReference(watcher, reference);
        match PushEnvelope(actors[watcher], e) {
          case Pushed(awake, enqueue) =>
            DownStep(w, watcher, reference, actor, gone);
            DownSpares(w, watcher, reference, actor, gone, {});
            DeliverMentions(W(), watcher, e, actor, links, rest, map[]);
            actors := actors[watcher := awake];
            runQueue := if enqueue then runQueue + [watcher] else runQueue;
            assert W() == Deliver(DropOutgoing(w, watcher, reference), watcher, e);
          case MailboxFull =>
            var _ := ForceExit(watcher, OverflowReason(watcher, "down"), {});
            WatcherEnds(w, W(), watcher, reference, actor, gone);
            MentionsFollow(DropOutgoing(w, watcher, reference), W(), actor, links, rest, map[]);
        }
      }
      OneAnnounced(old(log), log, actor, watcher, reference, reason);
      AppendKeepsCauses(w, W(), gone, {}, event);
      AppendKeepsEvolves(w, W(), event, gone);
      AppendKeepsInv(W(), event);
      AppendKeepsMentions(W(), event, actor, links, rest, map[]);
      if Plain(W()) { AppendKeepsPlain(W(), event); }
      log := log + [event];
    }

    /** Drops the ending actor from its links, one by one, and passes its exit on to each. */
    method DetachLinksAndPropagate(actor: ActorId, reason: ExitReason, linked: set<ActorId>,
        ghost gone: map<ActorId, Verdict>, ghost c: set<ActorId>)
      requires Inv(W()) && Mentions(W(), actor, linked, map[], map[])
      requires gone.Keys == {actor} && gone[actor].link == reason
      modifies `actors, `completed, `tasks, `callTimeouts, `timers, `runQueue, `log
      ensures Inv(W()) && Mentions(W(), actor, {}, map[], map[])
      ensures Evolves(old(W()), W(), gone) && actors.Keys <= old(actors.Keys)
      ensures CausesFollow(old(W()), W(), gone, {}) && Announced(old(log), log, actor, map[], gone[actor].final)
      ensures old(PlainAround(W(), reason, linked, c)) ==>
        Spread(old(W()), W(), reason, c) && Unharmed(actors, reason, linked)
      decreases actors.Keys, 3, 0
    {
      hide Inv, Mentions, Evolves, CausesFollow, Announced, Plain, Ready, Spread, Unharmed, PlainAround;
      ghost var plain := PlainAround(W(), reason, linked, c);
      var rest := linked;
      EvolvesReflexive(W(), gone);
      CausesReflexive(W(), gone, {});
      NothingAnnounced(log, actor, gone[actor].final);
      MentionsOutside(W(), actor, linked, map[], map[]);
      NothingDoneYet(W(), reason, linked, c);
      while rest != {}
        invariant Inv(W()) && Mentions(W(), actor, rest, map[], map[]) && rest <= linked
        invariant Evolves(old(W()), W(), gone) && actors.Keys <= old(actors.Keys)
        invariant CausesFollow(old(W()), W(), gone, {}) && Announced(old(log), log, actor, map[], gone[actor].final)
        invariant plain ==> PlainAround(W(), reason, rest, c) && Spread(old(W()), W(), reason, c)
        invariant plain ==> Unharmed(actors, reason, linked - rest)
        decreases rest
      {
        var other :| other in rest;
        ghost var w := W();
        ghost var before := rest;
        rest := rest - {other};
        if other == actor {
          SkipLink(w, actor, before, map[], map[], other);
          SelfLink(w, reason, linked, before, c, other);
          continue;
        }
        DetachOne(actor, reason, other, gone, before, c);
        EvolvesTransitive(old(W()), w, W(), gone);
        CausesTransitive(old(W()), w, W(), gone, {});
        NoMoreAnnounced(old(log), w.log, log, actor, map[], gone[actor].final);
        if plain {
          SpreadTransitive(old(W()), w, W(), reason, c, gone);
          AroundFollows(w, W(), reason, linked, before, c, gone, other);
        }
      }
      assert linked - rest == linked;
    }

    /** One link: it is dropped, and then the linked actor ends, is told, or takes no notice. */
    method DetachOne(actor: ActorId, reason: ExitReason, other: ActorId,
        ghost gone: map<ActorId, Verdict>, ghost links: set<ActorId>, ghost c: set<ActorId>)
      requires Inv(W()) && Mentions(W(), actor, links, map[], map[])
      requires gone.Keys == {actor} && gone[actor].link == reason && other in links && other != actor
      modifies `actors, `completed, `tasks, `callTimeouts, `timers, `runQueue, `log
      ensures Inv(W()) && Mentions(W(), actor, links - {other}, map[], map[])
      ensures Evolves(old(W()), W(), gone) && actors.Keys <= old(actors.Keys)
      ensures CausesFollow(old(W()), W(), gone, {}) && Announced(old(log), log, actor, map[], gone[actor].final)
      ensures old(PlainAround(W(), reason, links, c)) ==>
        Spread(old(W()), W(), reason, c) && Unharmed(actors, reason, {other})
      decreases actors.Keys, 2
    {
      hide Inv, Mentions, Evolves, CausesFollow, Announced, Caused, Plain, Ready, Spread, Touches, Unharmed, PlainAround, FinalReason;
      ghost var w := W();
      ghost var rest := links - {other};
      MentionsOutside(w, actor, links, map[], map[]);
      NothingAnnounced(log, actor, gone[actor].final);
      if other !in actors {
        SkipLink(w, actor, links, map[], map[], other);
        EvolvesReflexive(w, gone);
        CausesReflexive(w, gone, {});
        AbsentLink(w, reason, links, c, other);
        return;
      }
      var signal := ExitSignal(actor, reason, true);
      DropLinkMentions(w, other, actor, links, map[], map[]);
      DropLinkKeepsInv(w, other, actor);
      actors := actors[other := actors[other].(links := actors[other].links - {actor})];
      ghost var v := W();
      assert v == DropLink(w, other, actor);
      PropagateLinkExit(other, signal, c);
      if Dies(w.actors[other].trapExit, reason) || (w.actors[other].trapExit && w.actors[other].mailbox.IsFullFor(Exit(signal))) {
        LinkedEnds(w, W(), other, actor, gone);
        MentionsFollow(v, W(), actor, rest, map[], map[]);
        LinkEnds(w, v, W(), other, actor, reason, links, c);
      } else if w.actors[other].trapExit {
        ExitStep(w, other, actor, gone);
        ExitSpares(w, other, actor, gone, {});
        DeliverMentions(v, other, Exit(signal), actor, rest, map[], map[]);
        LinkTold(w, other, actor, signal, links, c);
      } else {
        IgnoredLinkStep(w, other, actor, gone);
        IgnoredLinkSpares(w, other, actor, gone, {});
        LinkIgnored(w, other, actor, reason, links, c);
      }
    }

    /** What a link signal does to a live target, by its trap flag and the reason. */
    method PropagateLinkExit(target: ActorId, signal: ExitSignal, ghost c: set<ActorId>)
      requires Inv(W()) && signal.linked
      modifies `actors, `completed, `tasks, `callTimeouts, `timers, `runQueue, `log
      ensures Inv(W()) && actors.Keys <= old(actors.Keys)
      ensures target !in old(actors) ==> W() == old(W())
      ensures target in old(actors) && EndsBy(old(actors[target]), signal) ==>
        Evolves(old(W()), W(), map[]) && CausesFollow(old(W()), W(), map[], {target}) && target !in actors
      ensures target in old(actors) && !EndsBy(old(actors[target]), signal) ==>
        W() == if old(actors[target]).trapExit then Deliver(old(W()), target, Exit(signal)) else old(W())
      ensures (target in old(actors) && Dies(old(actors[target]).trapExit, signal.reason)
               && old(Ready(W(), signal.reason, c)) && target in c)
        ==> Spread(old(W()), W(), signal.reason, c)
      ensures target in old(actors) && EndsBy(old(actors[target]), signal) ==>
        var cause := SignalCause(target, old(actors[target]), signal);
        var q := ShutdownLinkReason(target in old(tasks), cause);
        && target in completed && completed[target] == FinalReason(old(actors[target]), cause)
        && (Ready(old(W()), q, c) && target in c ==> SpreadFrom(old(W()), W(), q, c, target, cause))
      decreases actors.Keys, 1
    {
      hide Inv, Evolves, CausesFollow, Plain, Ready, Spread, Deliver, SpreadFrom, FinalReason;
      if target !in actors {
        return;
      }
      ghost var w := W();
      match ClassifyExitSignal(actors[target].trapExit, signal) {
        case KillNow =>
          var _ := ForceExit(target, signal.reason, c);
          if Ready(w, signal.reason, c) && target in c {
            ReasonIsKept(w, signal.reason, c, target);
            UniformSpread(w, W(), signal.reason, c, target);
          }
        case Ignore =>
        case Enqueue =>
          var _ := EnqueueRuntimeEnvelope(target, Exit(signal), "exit", c);
      }
    }

    /** Delivers mail that the runtime itself produced; an actor with no room for it ends. */
    method EnqueueRuntimeEnvelope(actor: ActorId, e: Envelope, delivering: string, ghost c: set<ActorId>) returns (ok: bool)
      requires Inv(W()) && !e.Reply?
      modifies `actors, `completed, `tasks, `callTimeouts, `timers, `runQueue, `log
      ensures Inv(W()) && actors.Keys <= old(actors.Keys)
      ensures ok <==> actor in old(actors)
      ensures !ok ==> W() == old(W())
      ensures ok && !old(actors[actor]).mailbox.IsFullFor(e) ==> W() == Deliver(old(W()), actor, e)
      ensures ok && old(actors[actor]).mailbox.IsFullFor(e) ==>
        Evolves(old(W()), W(), map[]) && CausesFollow(old(W()), W(), map[], {actor}) && actor !in actors
      ensures ok && old(actors[actor]).mailbox.IsFullFor(e) ==>
        var cause := OverflowReason(actor, delivering);
        var q := ShutdownLinkReason(actor in old(tasks), cause);
        && actor in completed && completed[actor] == FinalReason(old(actors[actor]), cause)
        && (Ready(old(W()), q, c) && actor in c ==> SpreadFrom(old(W()), W(), q, c, actor, cause))
      decreases actors.Keys, 0, 1
    {
      hide Inv, Evolves, CausesFollow, Plain, Ready, SpreadFrom, FinalReason;
      ghost var w := W();
      var sent := EnqueueActorEnvelope(actor, e);
      match sent {
        case Sent => DeliverKeepsInv(w, actor, e); return true;
        case Backpressure => ok := ForceExit(actor, OverflowReason(actor, delivering), c);
        case NoProcess => return false;
      }
    }

    /** Any send. A reply first withdraws the timeout of the call it answers. */
    method EnqueueActorEnvelope(actor: ActorId, e: Envelope) returns (result: SendResult)
      modifies `actors, `completed, `tasks, `callTimeouts, `timers, `runQueue, `log
      ensures result == SendOutcome(old(W()), actor, e)
      ensures W() == AfterSend(old(W()), actor, e)
    {
      if e.Reply? {
        CancelCallTimeout(actor, e.reference);
      }
      if actor !in actors {
        return NoProcess;
      }
      match PushEnvelope(actors[actor], e) {
        case MailboxFull => return Backpressure;
        case Pushed(target, enqueue) =>
          actors := actors[actor := target];
          runQueue := if enqueue then runQueue + [actor] else runQueue;
          return Sent;
      }
    }

    method CancelCallTimeout(actor: ActorId, reference: Ref)
      modifies `actors, `completed, `tasks, `callTimeouts, `timers, `runQueue, `log
      ensures W() == Disarm(old(W()), actor, reference)
    {
      callTimeouts := callTimeouts - {(actor, reference)};
      if actor in actors {
        var (_, rest) := Receive(actors[actor].mailbox, TimeoutEntry(reference));
        actors := actors[actor := actors[actor].(mailbox := rest)];
      }
    }

    /**
     * Ends one actor that has been taken out of the table. Its end and everything it sets off reads
     * as one cascade; in the plain case exactly the actors that had to end did.
     */
    method FinishActor(e: Actor, reason: ExitReason, ghost c: set<ActorId>)
      requires Inv(W()) && Fits(W(), e)
      modifies `actors, `completed, `tasks, `callTimeouts, `timers, `runQueue, `log
      ensures Inv(W()) && Evolves(Put(old(W()), e), W(), map[]) && actors.Keys <= old(actors.Keys)
      ensures CausesFollow(Put(old(W()), e), W(), map[], {e.id})
      ensures e.id in completed && completed[e.id] == FinalReason(e, reason)
      ensures old(EndsPlainly(W(), e, reason, c)) ==>
        SpreadFrom(Put(old(W()), e), W(), LinkReason(old(W()), e, reason), c, e.id, FinalReason(e, reason))
      decreases actors.Keys, 4
    {
      hide Inv, Fits, Mentions, Evolves, CausesFollow, Announced, Plain, Spread, SpreadFrom, Unharmed, PlainAround, EndsPlainly, Put, FinalReason,
        BooksClosed, WithoutTimeouts;
      ghost var w := W();
      TimeoutsDoNotMatter(w, e);
      var final := FinalReason(e, reason);
      CancelAllTimers(e.id);
      var link := ShutdownLinkReason(e.id in tasks, final);
      WorkOff(e, final, link, map[e.id := Verdict(final, link)], c);
      ClosingCompletes(w, e, W(), reason, c);
      CloseBooks(e.id, final);
    }

    /** The timers of an actor and the timeouts of its calls. */
    method CancelAllTimers(actor: ActorId)
      modifies `callTimeouts, `timers
      ensures W() == WithoutTimeouts(old(W()), actor)
    {
      timers := set p | p in timers && p.0 != actor;
      callTimeouts := set p | p in callTimeouts && p.0 != actor;
    }

    /** Monitors first, outgoing then incoming, and then links: after that nobody mentions the actor. */
    method WorkOff(e: Actor, final: ExitReason, link: ExitReason, ghost gone: map<ActorId, Verdict>, ghost c: set<ActorId>)
      requires Inv(W()) && Mentions(W(), e.id, e.links, e.monitorsIn, e.monitorsOut)
      requires gone == map[e.id := Verdict(final, link)]
      modifies `actors, `completed, `tasks, `callTimeouts, `timers, `runQueue, `log
      ensures Inv(W()) && Mentions(W(), e.id, {}, map[], map[])
      ensures Evolves(old(W()), W(), gone) && actors.Keys <= old(actors.Keys)
      ensures CausesFollow(old(W()), W(), gone, {}) && Announced(old(log), log, e.id, e.monitorsIn, final)
      ensures old(PlainAround(W(), link, e.links, c)) ==> Spread(old(W()), W(), link, c) && Unharmed(actors, link, e.links)
      decreases actors.Keys, 3, 1
    {
      hide Inv, Mentions, Evolves, CausesFollow, Announced, Plain, Ready, Spread, Unharmed, PlainAround;
      ghost var u := W();
      MentionsOutside(u, e.id, e.links, e.monitorsIn, e.monitorsOut);
      RemoveOutgoingMonitors(e.id, e.monitorsOut, gone, e.links, e.monitorsIn);
      ghost var m := W();
      NotifyIncomingMonitors(e.id, final, e.monitorsIn, gone, e.links);
      ghost var d := W();
      EvolvesTransitive(u, m, d, gone);
      CausesTransitive(u, m, d, gone, {});
      DetachIsPlain(u, m, d, link, e.links, c, gone);
      DetachLinksAndPropagate(e.id, link, e.links, gone, c);
      EvolvesTransitive(u, d, W(), gone);
      CausesTransitive(u, d, W(), gone, {});
      NoMoreAnnounced(u.log, d.log, log, e.id, e.monitorsIn, final);
      if PlainAround(u, link, e.links, c) { SpreadTransitive(u, d, W(), link, c, gone); }
    }

    /** The last entries about an actor: its shutdown is completed, its exit logged, its reason kept. */
    method CloseBooks(id: ActorId, final: ExitReason)
      modifies `actors, `completed, `tasks, `callTimeouts, `timers, `runQueue, `log
      ensures W() == BooksClosed(old(W()), id, final)
    {
      if id in tasks {
        log := log + [Closing(tasks[id], id, final)];
        tasks := tasks - {id};
      }
      log := log + [ExitEvent(id, final)];
      if final != Normal && final != Shutdown {
        log := log + [CrashEvent(id, final)];
      }
      completed := completed[id := final];
    }

    /**
     * Ends a live actor. In the plain case, with `c` any closed set around it, only members of `c`
     * end and no survivor linked to one of them should have ended.
     */
    method ForceExit(actor: ActorId, reason: ExitReason, ghost c: set<ActorId>) returns (found: bool)
      requires Inv(W())
      modifies `actors, `completed, `tasks, `callTimeouts, `timers, `runQueue, `log
      ensures Inv(W()) && Evolves(old(W()), W(), map[]) && actors.Keys <= old(actors.Keys)
      ensures CausesFollow(old(W()), W(), map[], {actor})
      ensures found <==> actor in old(actors)
      ensures !found ==> W() == old(W())
      ensures actor !in actors
      ensures found ==> actor in completed && completed[actor] == FinalReason(old(actors[actor]), reason)
      ensures var q := ShutdownLinkReason(actor in old(tasks), reason);
        (found && Ready(old(W()), q, c) && actor in c)
          ==> SpreadFrom(old(W()), W(), q, c, actor, reason)
      decreases actors.Keys, 0, 0
    {
      hide Inv, Fits, Evolves, CausesFollow, Plain, Closed, SpreadFrom;
      ghost var w := W();
      if actor !in actors {
        EvolvesReflexive(w, map[]);
        CausesReflexive(w, map[], {actor});
        return false;
      }
      var e := actors[actor];
      TakeOut(w, actor);
      actors := actors - {actor};
      assert W() == w.(actors := w.actors - {actor});
      FinishActor(e, reason, c);
      return true;
    }

    // ---------------------------------------------------------------- the driver's own operations

    /** Ends an actor at the driver's request; in the plain case the effect is exactly reachability. */
    method ExitActor(actor: ActorId, reason: ExitReason) returns (found: bool)
      requires Sound(W(), B())
      modifies `actors, `completed, `tasks, `callTimeouts, `timers, `runQueue, `log
      ensures Sound(W(), B()) && Evolves(old(W()), W(), map[])
      ensures found <==> actor in old(actors)
      ensures !found ==> W() == old(W())
      ensures found ==> EndedBy(old(W()), W(), actor, reason)
    {
      hide Inv, Kept, Evolves, CausesFollow, Ready, SpreadFrom, Reach, ExactCascade, FinalReason, EndedBy;
      ghost var w := W();
      ghost var q := ShutdownLinkReason(actor in tasks, reason);
      found := ForceExit(actor, reason, Reach(w, q, actor));
      KeptFollows(w, W(), {}, B());
      if found { EndIsExact(w, W(), actor, reason); }
    }

    /** A send from outside: any envelope except a forged call timeout. */
    method SendEnvelope(actor: ActorId, e: Envelope) returns (result: SendResult)
      requires Sound(W(), B()) && !e.CallTimeout?
      modifies `actors, `completed, `tasks, `callTimeouts, `timers, `runQueue, `log, `answered
      ensures Sound(W(), B())
      ensures result == SendOutcome(old(W()), actor, e) && W() == AfterSend(old(W()), actor, e)
      ensures B() == BookAfterSend(old(W()), actor, e, old(B()))
    {
      hide Sound, AfterSend, SendOutcome, BookAfterSend;
      ghost var later := BookAfterSend(W(), actor, e, B());
      SendKeepsSound(W(), actor, e, B());
      OnlyAnswersGrow(W(), actor, e, B());
      result := EnqueueActorEnvelope(actor, e);
      answered := later.answered;
    }

    /**
     * Asks for a managed shutdown: any earlier request is replaced, the new one is logged, and the
     * actor is killed or signalled. If it ends at once, the extent is exact in the plain case.
     */
    method RequestShutdown(requester: ActorId, actor: ActorId, policy: ShutdownPolicy) returns (ok: bool)
      requires Inv(W())
      modifies `actors, `completed, `tasks, `callTimeouts, `timers, `runQueue, `log
      ensures ok <==> actor in old(actors)
      ensures !ok ==> W() == old(W())
      ensures ok ==> ShutdownEffect(old(Track(W(), actor, Tracker(requester, policy))), W(), actor, requester, policy)
    {
      hide Inv, Evolves, CausesFollow, Ready, SpreadFrom, Spread, Reach, ExactCascade, Deliver, EndedBy, FinalReason;
      if actor !in actors {
        return false;
      }
      ghost var w := W();
      tasks := tasks - {actor};
      log := log + [RequestEvent(actor, Tracker(requester, policy))];
      ok := true;
      tasks := tasks[actor := Tracker(requester, policy)];
      ghost var u := W();
      assert u == Track(w, actor, Tracker(requester, policy));
      TrackKeepsInv(w, actor, Tracker(requester, policy));
      match ModeOf(policy) {
        case ForceKill =>
          var _ := ForceExit(actor, Kill, Reach(u, Shutdown, actor));
          EndIsExact(u, W(), actor, Kill);
        case Linked(_) =>
          ghost var cause := SignalCause(actor, u.actors[actor], ShutdownSignal(requester));
          PropagateLinkExit(actor, ShutdownSignal(requester), Reach(u, ShutdownLinkReason(true, cause), actor));
          if EndsBy(u.actors[actor], ShutdownSignal(requester)) { EndIsExact(u, W(), actor, cause); }
      }
    }

    /** The driver's request for a managed shutdown. */
    method ShutdownFromOutside(system: ActorId, actor: ActorId, policy: ShutdownPolicy) returns (ok: bool)
      requires Sound(W(), B())
      modifies `actors, `completed, `tasks, `callTimeouts, `timers, `runQueue, `log
      ensures Sound(W(), B()) && (ok <==> actor in old(actors))
      ensures !ok ==> W() == old(W())
      ensures ok ==> ShutdownEffect(old(Track(W(), actor, Tracker(system, policy))), W(), actor, system, policy)
    {
      hide Inv, Kept, ShutdownEffect, Track;
      ghost var w := W();
      ok := RequestShutdown(system, actor, policy);
      if ok {
        TrackLeavesActors(w, actor, Tracker(system, policy));
        ShutdownKeeps(w, W(), actor, system, policy, {}, B());
      }
    }

    /** A new actor under an id the allocator has just handed out; a refused one only uses the id up. */
    method SpawnActor(id: ActorId, options: Options, admitted: bool)
      requires Sound(W(), B()) && id !in issued
      modifies `actors, `runQueue, `issued
      ensures Sound(W(), B()) && issued == old(issued) + {id}
      ensures W() == if admitted then Insert(old(W()), Newborn(id, options, {})) else old(W())
    {
      hide Inv, Kept;
      ghost var w := W();
      ghost var book := B();
      LaterKeeps(w, {}, book, Issue(book, id));
      issued := issued + {id};
      if admitted {
        InsertKeeps(w, id, options, {}, book);
        actors := actors[id := Newborn(id, options, {})];
        runQueue := runQueue + [id];
      }
    }

    // ---------------------------------------------------------------- events from timers and tasks

    /** Events of timers and tasks may arrive at any time, even when what they refer to is long gone. */
    method IngestEvent(event: DriverEvent) returns (handled: bool)
      requires Sound(W(), B())
      modifies `actors, `completed, `tasks, `callTimeouts, `timers, `runQueue, `log, `fired
      ensures Sound(W(), B()) && Grows(old(B()), B())
      ensures Ingested(event, old(W()), old(B()), handled, W(), B())
    {
      hide Inv, Kept, Evolves, CausesFollow, Informed, EndedBy;
      ghost var w := W();
      match event {
        case TimerFired(target, token) =>
          if (target, token) !in timers {
            return false;
          }
          TimersKeepSound(w, timers - {(target, token)}, B());
          timers := timers - {(target, token)};
          handled := Inform(target, Timer(token), "timer");
        case TaskCompleted(target, reference) =>
          handled := Inform(target, Task(reference), "task");
        case CallTimedOut(target, reference) =>
          if (target, reference) !in callTimeouts {
            return false;
          }
          handled := FireCallTimeout(target, reference);
        case ShutdownTimedOut(target) =>
          if target !in tasks {
            return false;
          }
          handled := FireShutdownTimeout(target);
      }
    }

    /** Mail from a timer or a task; an actor without room for it ends. */
    method Inform(actor: ActorId, e: Envelope, delivering: string) returns (ok: bool)
      requires Sound(W(), B()) && (e.Timer? || e.Task?)
      modifies `actors, `completed, `tasks, `callTimeouts, `timers, `runQueue, `log
      ensures Sound(W(), B()) && (ok <==> actor in old(actors)) && (!ok ==> W() == old(W()))
      ensures Informed(old(W()), W(), actor, e, delivering)
    {
      hide Inv, Kept, Evolves, CausesFollow, Deliver, BookAfterSend, Ready, SpreadFrom, Reach, FinalReason, EndedBy;
      ghost var w := W();
      ghost var cause := OverflowReason(actor, delivering);
      ok := EnqueueRuntimeEnvelope(actor, e, delivering, Reach(w, ShutdownLinkReason(actor in tasks, cause), actor));
      if ok {
        if w.actors[actor].mailbox.IsFullFor(e) {
          KeptFollows(w, W(), {}, B());
          EndIsExact(w, W(), actor, cause);
        } else {
          SendKeepsSound(w, actor, e, B());
          PlainSend(w, actor, e, B());
        }
      }
    }

    method FireCallTimeout(target: ActorId, reference: Ref) returns (ok: bool)
      requires Sound(W(), B()) && (target, reference) in callTimeouts
      modifies `actors, `completed, `tasks, `callTimeouts, `timers, `runQueue, `log, `fired
      ensures Sound(W(), B()) && (ok <==> target in old(actors))
      ensures Informed(Expire(old(W()), target, reference), W(), target, CallTimeout(reference), "call timeout")
      ensures target in old(actors) ==> old(fired)[(target, reference)] == 0 && (target, reference) !in answered
      ensures fired == if target in old(actors) && !old(actors)[target].mailbox.IsFullFor(CallTimeout(reference))
                       then old(fired) + multiset{(target, reference)} else old(fired)
    {
      hide Inv, Kept, Evolves, CausesFollow, Deliver, Ready, SpreadFrom, Reach, FinalReason, EndedBy;
      ghost var w := W();
      ExpireKeepsSound(w, target, reference, B());
      if target in actors { ArmedHasNotFired(w, target, reference, B()); }
      callTimeouts := callTimeouts - {(target, reference)};
      assert W() == Expire(w, target, reference);
      ghost var u := W();
      ghost var cause := OverflowReason(target, "call timeout");
      ok := EnqueueRuntimeEnvelope(target, CallTimeout(reference), "call timeout", Reach(u, ShutdownLinkReason(target in tasks, cause), target));
      if ok {
        if u.actors[target].mailbox.IsFullFor(CallTimeout(reference)) {
          KeptFollows(u, W(), {}, B());
          EndIsExact(u, W(), target, cause);
        } else {
          FireKeepsSound(w, target, reference, B());
          fired := fired + multiset{(target, reference)};
        }
      }
    }

    method FireShutdownTimeout(target: ActorId) returns (ok: bool)
      requires Sound(W(), B()) && target in tasks
      modifies `actors, `completed, `tasks, `callTimeouts, `timers, `runQueue, `log
      ensures Sound(W(), B()) && ok
      ensures EndedBy(Append(old(W()), TimeoutEvent(target, old(tasks)[target])), W(), target, Kill)
    {
      hide Inv, Kept, Evolves, CausesFollow, Ready, SpreadFrom, Reach, FinalReason, EndedBy;
      ghost var w := W();
      TrackedIsLive(w, target, B());
      log := log + [TimeoutEvent(target, tasks[target])];
      AppendKeepsInv(w, TimeoutEvent(target, w.tasks[target]));
      ghost var u := W();
      assert u == Append(w, TimeoutEvent(target, w.tasks[target]));
      ok := ForceExit(target, Kill, Reach(u, Shutdown, target));
      EndIsExact(u, W(), target, Kill);
      TimedOutKeeps(w, W(), target, B());
    }

    // ---------------------------------------------------------------- turns

    method SendTo(cur: Actor, to: ActorId, e: Envelope) returns (result: SendResult, next: Actor)
      requires Driving(W(), cur, B()) && !e.CallTimeout?
      modifies `actors, `completed, `tasks, `callTimeouts, `timers, `runQueue, `log, `answered
      ensures Driving(W(), next, B()) && next.id == cur.id && next.initialized == cur.initialized
      ensures to == cur.id ==> (result, W(), next) == SelfSend(old(W()), cur, e) && B() == old(B())
      ensures to != cur.id ==> next == cur && result == SendOutcome(old(W()), to, e) && W() == AfterSend(old(W()), to, e)
      ensures to != cur.id ==> B() == BookAfterSend(old(W()), to, e, old(B()))
    {
      hide Driving, AfterSend, SendOutcome, BookAfterSend;
      if to == cur.id {
        DrivingEnqueued(W(), cur, B());
        SelfSendShape(W(), cur, e);
        SelfSendKeepsDriving(W(), cur, e, B());
        match PushEnvelope(cur, e) {
          case MailboxFull => return Backpressure, cur;
          case Pushed(awake, enqueue) =>
            runQueue := if enqueue then runQueue + [cur.id] else runQueue;
            return Sent, awake;
        }
      }
      ghost var later := BookAfterSend(W(), to, e, B());
      SendKeepsDriving(W(), cur, to, e, B());
      OnlyAnswersGrow(W(), to, e, B());
      result := EnqueueActorEnvelope(to, e);
      next := cur;
      answered := later.answered;
    }

    /** A call: a request under a fresh reference, with a timeout if one is wanted and it was accepted. */
    method Ask(cur: Actor, callee: ActorId, timed: bool) returns (result: SendResult, reference: Ref, next: Actor)
      requires Driving(W(), cur, B())
      modifies `actors, `completed, `tasks, `callTimeouts, `timers, `runQueue, `log, `answered, `nextRef
      ensures Driving(W(), next, B()) && next.id == cur.id && next.initialized == cur.initialized
      ensures reference == old(nextRef) && B() == NextRef(old(B()))
      ensures (result, W(), next) == CallOut(old(W()), cur, callee, timed, reference)
    {
      hide Driving, SelfSend, SendOutcome, AfterSend;
      FreshReference(W(), cur, B());
      LaterKeepsDriving(W(), cur, B(), NextRef(B()));
      reference := NextReference();
      ghost var w := W();
      var request := Request(reference, cur.id);
      result, next := SendTo(cur, callee, request);
      AfterSendTimeouts(w, callee, request);
      if result == Sent && timed {
        ArmKeepsDriving(W(), next, reference, B());
        callTimeouts := callTimeouts - {(cur.id, reference)} + {(cur.id, reference)};
      }
    }

    /** A timer of the running actor; one that is set already starts anew. */
    method ScheduleAfter(cur: Actor, token: Ref)
      modifies `timers
      ensures timers == old(timers) + {(cur.id, token)}
    {
      var _ := StopTimer(cur, token);
      timers := timers + {(cur.id, token)};
    }

    /** Stops a timer of the running actor. What has fired already stays in its mailbox, as it is out of the table. */
    method StopTimer(cur: Actor, token: Ref) returns (stopped: bool)
      modifies `timers
      ensures timers == old(timers) - {(cur.id, token)} && (stopped <==> (cur.id, token) in old(timers))
    {
      stopped := (cur.id, token) in timers;
      timers := timers - {(cur.id, token)};
    }

    method LinkTo(cur: Actor, other: ActorId) returns (result: LinkResult, next: Actor)
      modifies `actors
      ensures (result, W(), next) == LinkUp(old(W()), cur, other)
      ensures next.id == cur.id && next.initialized == cur.initialized
    {
      if other == cur.id { return Done, cur; }
      if other !in actors { return NoSuchProcess, cur; }
      if other in cur.links { return AlreadyLinked, cur; }
      next := cur.(links := cur.links + {other});
      actors := actors[other := LinkTarget(actors[other], cur.id)];
      return Done, next;
    }

    method UnlinkFrom(cur: Actor, other: ActorId) returns (result: LinkResult, next: Actor)
      modifies `actors
      ensures (result, W(), next) == LinkDown(old(W()), cur, other)
      ensures next.id == cur.id && next.initialized == cur.initialized
    {
      if other == cur.id { return Done, cur; }
      if other !in actors { return NoSuchProcess, cur; }
      if other !in cur.links { return NotLinked, cur; }
      next := cur.(links := cur.links - {other});
      actors := actors[other := actors[other].(links := actors[other].links - {cur.id})];
      return Done, next;
    }

    method NextReference() returns (reference: Ref)
      modifies `nextRef
      ensures reference == old(nextRef) && nextRef == reference + 1
    {
      reference := nextRef;
      nextRef := nextRef + 1;
    }

    method MonitorTarget(cur: Actor, other: ActorId) returns (reference: Ref, next: Actor, exit: Option<ExitReason>)
      modifies `actors, `runQueue, `nextRef
      ensures (exit, W(), next) == Monitor(old(W()), cur, other, reference)
      ensures next.id == cur.id && next.initialized == cur.initialized
      ensures reference == old(nextRef) && nextRef == reference + 1
    {
      hide Monitor;
      reference := NextReference();
      next, exit := Attach(cur, other, reference);
    }

    method Attach(cur: Actor, other: ActorId, reference: Ref) returns (next: Actor, exit: Option<ExitReason>)
      modifies `actors, `runQueue
      ensures (exit, W(), next) == Monitor(old(W()), cur, other, reference)
      ensures next.id == cur.id && next.initialized == cur.initialized
    {
      hide SelfNotice, SelfSend;
      exit := None;
      if other == cur.id {
        next := cur.(monitorsIn := cur.monitorsIn[reference := cur.id], monitorsOut := cur.monitorsOut[reference := cur.id]);
      } else if other in actors {
        next := cur.(monitorsOut := cur.monitorsOut[reference := other]);
        actors := actors[other := actors[other].(monitorsIn := actors[other].monitorsIn[reference := cur.id])];
      } else {
        next, exit := EnqueueSelf(cur, Down(reference, other, NoProc), "down");
      }
    }

    method EnqueueSelf(cur: Actor, e: Envelope, delivering: string) returns (next: Actor, exit: Option<ExitReason>)
      modifies `runQueue
      ensures (exit, W(), next) == SelfNotice(old(W()), cur, e, delivering)
      ensures next.id == cur.id && next.initialized == cur.initialized
    {
      match PushEnvelope(cur, e) {
        case Pushed(awake, enqueue) =>
          runQueue := if enqueue then runQueue + [cur.id] else runQueue;
          return awake, None;
        case MailboxFull =>
          return cur, Some(OverflowReason(cur.id, delivering));
      }
    }

    method DemonitorTarget(cur: Actor, reference: Ref) returns (found: bool, next: Actor)
      modifies `actors
      ensures (found, W(), next) == Demonitor(old(W()), cur, reference)
      ensures next.id == cur.id && next.initialized == cur.initialized
    {
      if reference !in cur.monitorsOut { return false, cur; }
      var target := cur.monitorsOut[reference];
      next := cur.(monitorsOut := cur.monitorsOut - {reference});
      if target == cur.id {
        return true, next.(monitorsIn := next.monitorsIn - {reference});
      }
      if target in actors {
        actors := actors[target := actors[target].(monitorsIn := actors[target].monitorsIn - {reference})];
      }
      return true, next;
    }

    /** A running actor asks for another's shutdown; if a linked one ends at once, it learns of it now. */
    method ShutdownFromTurn(cur: Actor, actor: ActorId, policy: ShutdownPolicy)
      returns (ok: bool, next: Actor, exit: Option<ExitReason>, ghost mid: World)
      requires Driving(W(), cur, B())
      modifies `actors, `completed, `tasks, `callTimeouts, `timers, `runQueue, `log
      ensures Driving(W(), next, B()) && next.id == cur.id && next.initialized == cur.initialized
      ensures ok <==> actor in old(actors)
      ensures if ok then ShutdownObeyed(old(W()), cur, actor, policy, mid, W(), next, exit) else W() == old(W()) && next == cur && exit == None
    {
      hide LinkLost, Driving, ShutdownEffect, Track, Kept, Inv, Fine, AllFine, BookFits, Fits;
      ghost var w := W();
      DrivingParts(w, cur, B());
      ok := RequestShutdown(cur.id, actor, policy);
      mid := W();
      next, exit := cur, None;
      if ok {
        TrackLeavesActors(w, actor, Tracker(cur.id, policy));
        ShutdownKeepsDriving(w, W(), cur, actor, policy, B());
        if actor in cur.links && actor !in actors {
          DrivingOutside(w, cur, B());
          next, exit := LoseLink(cur, actor);
        }
      }
    }

    /** The linked actor that just ended is dropped, and its end is signalled to the running actor. */
    method LoseLink(cur: Actor, actor: ActorId) returns (next: Actor, exit: Option<ExitReason>)
      requires Driving(W(), cur, B()) && actor !in actors && actor != cur.id
      modifies `runQueue
      ensures Driving(W(), next, B()) && next.id == cur.id && next.initialized == cur.initialized
      ensures LinkLost(old(W()), cur, actor, W(), next, exit)
    {
      hide Driving, Signalled;
      ForgetLink(W(), cur, actor, B());
      next := cur.(links := cur.links - {actor});
      next, exit := HandleCurrentExitSignal(next, ExitSignal(actor, Shutdown, true));
    }

    method HandleCurrentExitSignal(cur: Actor, signal: ExitSignal) returns (next: Actor, exit: Option<ExitReason>)
      requires Driving(W(), cur, B())
      modifies `runQueue
      ensures Driving(W(), next, B()) && next.id == cur.id && next.initialized == cur.initialized && next.links == cur.links
      ensures Signalled(old(W()), cur, signal, W(), next, exit)
      ensures ClassifyExitSignal(cur.trapExit, signal).Enqueue? && exit == None ==> next.mailbox == cur.mailbox.Push(Exit(signal))
    {
      hide Driving, SelfSend;
      next, exit := cur, None;
      match ClassifyExitSignal(cur.trapExit, signal) {
        case KillNow => exit := Some(signal.reason);
        case Ignore =>
        case Enqueue =>
          DrivingEnqueued(W(), cur, B());
          SelfSendShape(W(), cur, Exit(signal));
          SelfSendKeepsDriving(W(), cur, Exit(signal), B());
          next, exit := EnqueueSelf(cur, Exit(signal), "exit");
      }
    }

    /** A child spawned from a turn; a refused one leaves nothing but its used-up id. */
    method SpawnFromTurn(cur: Actor, id: ActorId, options: Options, linkToParent: bool, admitted: bool) returns (next: Actor)
      requires Driving(W(), cur, B()) && id !in issued
      modifies `actors, `runQueue, `issued
      ensures Driving(W(), next, B()) && issued == old(issued) + {id} && next.initialized == cur.initialized
      ensures next == if admitted && linkToParent then cur.(links := cur.links + {id}) else cur
      ensures W() == if admitted then Insert(old(W()), Newborn(id, options, if linkToParent then {cur.id} else {})) else old(W())
    {
      hide Driving;
      ghost var w := W();
      ghost var book := B();
      InsertKeepsDriving(w, cur, id, options, book);
      LaterKeepsDriving(w, cur, book, Issue(book, id));
      issued := issued + {id};
      next := cur;
      if admitted {
        ghost var v := Insert(w, Newborn(id, options, {}));
        LinkKeepsDriving(v, cur, id, B());
        var child := Newborn(id, options, if linkToParent then {cur.id} else {});
        actors := actors[id := child];
        runQueue := runQueue + [id];
        if linkToParent {
          next := cur.(links := cur.links + {id});
          ChildIsLinked(w, cur, id, options);
        }
      }
    }

    /** One request about links or monitors. */
    method ObeyRelation(cur: Actor, call: Call) returns (next: Actor, exit: Option<ExitReason>)
      requires Driving(W(), cur, B()) && (call.Link? || call.Unlink? || call.Watch? || call.Unwatch?)
      modifies `actors, `runQueue, `nextRef
      ensures Driving(W(), next, B()) && next.id == cur.id && next.initialized == cur.initialized && old(nextRef) <= nextRef
      ensures Obeys(call, old(W()), cur, old(B()), W(), next, exit) && B() == BookAfter(call, old(W()), cur, old(B()))
    {
      hide Driving, LinkUp, LinkDown, Monitor, Demonitor, AfterSend, BookAfterSend, SelfSend, CallOut, ShutdownObeyed, Insert, Newborn;
      next, exit := cur, None;
      match call {
        case Link(peer) =>
          LinkKeepsDriving(W(), cur, peer, B());
          var _, after := LinkTo(cur, peer);
          next := after;
        case Unlink(peer) =>
          UnlinkKeepsDriving(W(), cur, peer, B());
          var _, after := UnlinkFrom(cur, peer);
          next := after;
        case Watch(target) =>
          MonitorKeepsDriving(W(), cur, target, B());
          var _, after, ends := MonitorTarget(cur, target);
          next, exit := after, ends;
        case Unwatch(reference) =>
          DemonitorKeepsDriving(W(), cur, reference, B());
          var _, after := DemonitorTarget(cur, reference);
          next := after;
      }
    }

    /** One request about the actor's own trap flag or timers. */
    method ObeySetting(cur: Actor, call: Call) returns (next: Actor)
      requires Driving(W(), cur, B()) && (call.SetTrapExit? || call.StartTimer? || call.CancelTimer?)
      modifies `timers
      ensures Driving(W(), next, B()) && next.id == cur.id && next.initialized == cur.initialized
      ensures Obeys(call, old(W()), cur, old(B()), W(), next, None)
    {
      hide Driving, LinkUp, LinkDown, Monitor, Demonitor, AfterSend, SelfSend, CallOut, ShutdownObeyed, Insert, Newborn;
      next := cur;
      match call {
        case SetTrapExit(enabled) =>
          FlagsKeepDriving(W(), cur, cur.(trapExit := enabled), B());
          next := cur.(trapExit := enabled);
        case StartTimer(token) =>
          TimersKeepDriving(W(), cur, timers + {(cur.id, token)}, B());
          ScheduleAfter(cur, token);
        case CancelTimer(token) =>
          TimersKeepDriving(W(), cur, timers - {(cur.id, token)}, B());
          var _ := StopTimer(cur, token);
      }
    }

    /** One request to send something. */
    method ObeySend(cur: Actor, call: Call) returns (next: Actor)
      requires Driving(W(), cur, B()) && (call.SendTo? || call.Ask?) && Honest(call)
      modifies `actors, `completed, `tasks, `callTimeouts, `timers, `runQueue, `log, `answered, `nextRef
      ensures Driving(W(), next, B()) && next.id == cur.id && next.initialized == cur.initialized
      ensures old(answered) <= answered && old(nextRef) <= nextRef
      ensures Obeys(call, old(W()), cur, old(B()), W(), next, None) && B() == BookAfter(call, old(W()), cur, old(B()))
    {
      hide Driving, LinkUp, LinkDown, Monitor, Demonitor, AfterSend, BookAfterSend, SelfSend, SendOutcome, CallOut, ShutdownObeyed, Insert, Newborn;
      match call {
        case SendTo(to, e) =>
          OnlyAnswersGrow(W(), to, e, B());
          var _, after := SendTo(cur, to, e);
          next := after;
        case Ask(callee, timed) =>
          var _, _, after := Ask(cur, callee, timed);
          next := after;
      }
    }

    /** One request of a handler to its context. */
    method Obey(cur: Actor, call: Call) returns (next: Actor, exit: Option<ExitReason>)
      requires Driving(W(), cur, B()) && Honest(call)
      modifies this
      ensures Driving(W(), next, B()) && next.id == cur.id && next.initialized == cur.initialized
      ensures old(answered) <= answered && old(fired) == fired && old(issued) <= issued && old(nextRef) <= nextRef
      ensures Obeys(call, old(W()), cur, old(B()), W(), next, exit) && B() == BookAfter(call, old(W()), cur, old(B()))
    {
      hide Driving, LinkUp, LinkDown, Monitor, Demonitor, AfterSend, BookAfterSend, SelfSend, SendOutcome, CallOut, ShutdownObeyed, Insert, Newborn;
      next, exit := cur, None;
      match call {
        case SendTo(_, _) => next := ObeySend(cur, call);
        case Ask(_, _) => next := ObeySend(cur, call);
        case Link(_) => next, exit := ObeyRelation(cur, call);
        case Unlink(_) => next, exit := ObeyRelation(cur, call);
        case Watch(_) => next, exit := ObeyRelation(cur, call);
        case Unwatch(_) => next, exit := ObeyRelation(cur, call);
        case SetTrapExit(_) => next := ObeySetting(cur, call);
        case StartTimer(_) => next := ObeySetting(cur, call);
        case CancelTimer(_) => next := ObeySetting(cur, call);
        case ExitSelf(reason) =>
          exit := Some(reason);
        case ShutdownActor(actor, policy) =>
          var _, after, ends, _ := ShutdownFromTurn(cur, actor, policy);
          next, exit := after, ends;
        case SpawnActor(id, options, linkToParent, admitted) =>
          if id !in issued {
            next := SpawnFromTurn(cur, id, options, linkToParent, admitted);
          }
      }
    }

    /** All requests of one handler, in order; the last exit asked for counts. */
    method Handle(cur: Actor, calls: seq<Call>)
      returns (next: Actor, exit: Option<ExitReason>, ghost trail: seq<Moment>, ghost exits: seq<Option<ExitReason>>)
      requires Driving(W(), cur, B()) && forall i :: 0 <= i < |calls| ==> Honest(calls[i])
      modifies this
      ensures Driving(W(), next, B()) && next.id == cur.id && next.initialized == cur.initialized
      ensures Grows(old(B()), B()) && fired == old(fired)
      ensures ObeysAll(calls, trail, exits) && trail[0] == Moment(old(W()), cur, old(B()))
      ensures trail[|calls|] == Moment(W(), next, B()) && exit == LastExit(exits)
    {
      hide Driving, Obeys, BookAfter;
      next, exit := cur, None;
      trail, exits := [Moment(W(), cur, B())], [];
      for i := 0 to |calls|
        invariant Driving(W(), next, B()) && next.id == cur.id && next.initialized == cur.initialized
        invariant Grows(old(B()), B()) && fired == old(fired)
        invariant ObeysAll(calls[..i], trail, exits) && trail[0] == Moment(old(W()), cur, old(B()))
        invariant trail[i] == Moment(W(), next, B()) && exit == LastExit(exits)
      {
        var after, ends := Obey(next, calls[i]);
        ObeyedOneMore(calls, i, trail, exits, Moment(W(), after, B()), ends);
        next := after;
        exit := if ends.Some? then ends else exit;
        trail, exits := trail + [Moment(W(), after, B())], exits + [ends];
      }
      assert calls[..|calls|] == calls;
    }

    method Finish(cur: Actor, reason: ExitReason)
      requires Driving(W(), cur, B())
      modifies `actors, `completed, `tasks, `callTimeouts, `timers, `runQueue, `log
      ensures Sound(W(), B()) && EndedWith(old(W()), cur, reason, W())
    {
      hide Driving, Sound, Inv, Evolves, CausesFollow, Fits, FinalReason, LinkReason, EndsPlainly, EndedWith, SpreadFrom, Reach, Put;
      ghost var w := W();
      DrivingParts(w, cur, B());
      FinishActor(cur, reason, Reach(Put(w, cur), LinkReason(w, cur, reason), cur.id));
      FinishKeepsSound(w, cur, W(), B());
      TurnEndIsExact(w, cur, reason, W());
    }

    /** Parked when there is no mail, otherwise scheduled. */
    method ParkOrSchedule(cur: Actor) returns (next: Actor)
      modifies `runQueue
      ensures (next, runQueue) == Rest(cur, old(runQueue)) && next.id == cur.id
    {
      if cur.mailbox.queue == [] {
        return Park(cur);
      }
      var (ready, enqueue) := MarkScheduled(cur.(status := Runnable));
      runQueue := if enqueue then runQueue + [cur.id] else runQueue;
      return ready;
    }

    method ReturnActor(cur: Actor)
      requires Driving(W(), cur, B()) && cur.initialized
      modifies `actors, `runQueue
      ensures Sound(W(), B()) && W() == Return(old(W()), cur)
    {
      hide Driving, Sound, Rest, MarkScheduled;
      ReturnKeepsSound(W(), cur, B());
      var next := ParkOrSchedule(cur);
      actors := actors[cur.id := next];
    }

    /** The end of a turn: the actor ends if its handler panicked, asked for it or stopped, else it returns. */
    method Conclude(cur: Actor, exit: Option<ExitReason>, outcome: Outcome)
      requires Driving(W(), cur, B()) && cur.initialized
      modifies `actors, `completed, `tasks, `callTimeouts, `timers, `runQueue, `log
      ensures Sound(W(), B())
      ensures TurnEnds(old(W()), cur, exit, outcome, W())
    {
      hide Driving, Sound, Return, EndedWith, PanicReason;
      match outcome {
        case Panic => Finish(cur, PanicReason(cur));
        case Stop(reason) => Finish(cur, if exit.Some? then exit.value else reason);
        case Continue =>
          if exit.Some? {
            Finish(cur, exit.value);
          } else {
            ReturnActor(cur);
          }
      }
    }

    /** The first turn of an actor. A failure of its hook ends it, whatever exit it had asked for. */
    method RunInit(cur: Actor, script: Script) returns (ghost trail: seq<Moment>, ghost exits: seq<Option<ExitReason>>)
      requires Driving(W(), cur, B()) && HonestScript(script)
      modifies this
      ensures Sound(W(), B()) && Grows(old(B()), B()) && fired == old(fired)
      ensures ObeysAll(script.calls, trail, exits) && trail[0] == Moment(old(W()), cur.(status := Running), old(B()))
      ensures InitEnds(trail[|script.calls|].world, trail[|script.calls|].cur, LastExit(exits), script.outcome, W())
    {
      hide Driving, Sound, EndedWith, TurnEnds, Obeys, PanicReason;
      FlagsKeepDriving(W(), cur, cur.(status := Running), B());
      var next, exit;
      next, exit, trail, exits := Handle(cur.(status := Running), script.calls);
      match script.outcome {
        case Stop(reason) => Finish(next, reason);
        case Panic => Finish(next, PanicReason(next));
        case Continue =>
          FlagsKeepDriving(W(), next, next.(initialized := true), B());
          Conclude(next.(initialized := true), exit, Continue);
      }
    }

    /**
     * One turn of an actor that is out of the table: what is taken, how the handler's requests are
     * obeyed one after the other, and how the turn ends.
     */
    method DriveActor(cur: Actor, script: Script)
      returns (taken: Option<Mailboxes.Queued>, ghost trail: seq<Moment>, ghost exits: seq<Option<ExitReason>>)
      requires Driving(W(), cur, B()) && HonestScript(script)
      modifies this
      ensures Sound(W(), B()) && Grows(old(B()), B()) && fired == old(fired)
      ensures Driven(Moment(old(W()), cur, old(B())), script, trail, exits, W())
      ensures taken == if cur.initialized && !(cur.selective && script.selectPanics) then Selected(cur, script).0 else None
      ensures forall r: Ref :: (cur.id, r) in old(answered) ==> taken != None ==> taken.value.envelope != CallTimeout(r)
    {
      hide Driving, Sound, Selected, Received, ObeysAll, InitEnds, TurnEnds, EndedWith;
      taken, trail, exits := None, [], [];
      if !cur.initialized {
        trail, exits := RunInit(cur, script);
        return;
      }
      if cur.selective && script.selectPanics {
        Finish(cur, PanicReason(cur));
        return;
      }
      var (envelope, rest) := Selected(cur, script);
      taken := envelope;
      SelectKeepsDriving(W(), cur, script, cur.suspended, B());
      if envelope.None? {
        NothingSelected(cur, script);
        ParkKeepsSound(W(), cur, B());
        actors := actors[cur.id := Park(cur)];
        return;
      }
      trail, exits := TakeTurn(cur, script, envelope.value.envelope, rest);
    }

    /** The handler runs with the envelope taken out of the mailbox and its control effects applied. */
    method TakeTurn(cur: Actor, script: Script, envelope: Envelope, rest: Box)
      returns (ghost trail: seq<Moment>, ghost exits: seq<Option<ExitReason>>)
      requires Driving(W(), cur, B()) && HonestScript(script) && cur.initialized
      requires Selected(cur, script).0.Some? && Selected(cur, script).0.value.envelope == envelope && Selected(cur, script).1 == rest
      modifies this
      ensures Sound(W(), B()) && Grows(old(B()), B()) && fired == old(fired)
      ensures ObeysAll(script.calls, trail, exits) && trail[0] == Moment(old(W()), Received(cur, script), old(B()))
      ensures TurnEnds(trail[|script.calls|].world, trail[|script.calls|].cur, LastExit(exits), script.outcome, W())
    {
      hide Driving, Sound, Selected, AfterSystemMessage, TurnEnds, Obeys;
      var suspended := AfterSystemMessage(cur.suspended, envelope);
      SelectKeepsDriving(W(), cur, script, suspended, B());
      var next, exit;
      next, exit, trail, exits := Handle(cur.(mailbox := rest, suspended := suspended, status := Running), script.calls);
      Conclude(next, exit, script.outcome);
    }

    /**
     * At most one turn, after the events that have arrived: the first actor of the run queue that is
     * still there is driven. If there is none, everything is idle. There was progress iff an actor was
     * driven or an event counted.
     */
    method RunOnce(arrived: seq<DriverEvent>, script: Script)
      returns (progress: bool, ghost intake: Intake, ghost start: Option<Moment>, ghost trail: seq<Moment>, ghost exits: seq<Option<ExitReason>>)
      requires Sound(W(), B()) && HonestScript(script)
      modifies this
      ensures Sound(W(), B()) && Grows(old(B()), B())
      ensures StepOf(arrived, script, old(W()), old(B()), W(), B(), intake, start, trail, exits)
      ensures progress <==> start.Some? || true in intake.handled
      ensures start == None ==> Idle(W())
    {
      hide Sound, Driving, Idle, Driven, IngestedAll, TakenOut, Grows;
      progress, intake := DrainEvents(arrived);
      start, trail, exits := None, [], [];
      ghost var before := B();
      var taken, _ := TakeNextActor();
      if taken.None? {
        return;
      }
      start := Some(Moment(W(), taken.value, B()));
      var envelope;
      envelope, trail, exits := DriveActor(taken.value, script);
      GrowsTransitive(old(B()), before, B());
      progress := true;
    }

    /** Takes the first actor of the run queue that is still there out of the table; the entries before it are stale. */
    method TakeNextActor() returns (taken: Option<Actor>, ghost k: nat)
      requires Sound(W(), B())
      modifies `actors, `runQueue
      ensures taken.Some? ==> TakenOut(old(W()), k, W(), taken.value) && Driving(W(), taken.value, B())
      ensures taken == None ==>
        && Sound(W(), B()) && Idle(W()) && W() == old(W()).(runQueue := [])
        && forall j :: 0 <= j < |old(runQueue)| ==> old(runQueue)[j] !in actors
    {
      hide Inv, Kept, Idle;
      k := 0;
      while runQueue != []
        invariant Sound(W(), B()) && k <= |old(runQueue)| && W() == old(W()).(runQueue := old(runQueue)[k..])
        invariant forall j :: 0 <= j < k ==> old(runQueue)[j] !in old(actors)
        decreases |runQueue|
      {
        ghost var w := W();
        var id := runQueue[0];
        if id !in actors {
          SkipStale(w, B());
          runQueue := runQueue[1..];
          k := k + 1;
          continue;
        }
        TakeForTurn(w, B());
        var cur := actors[id].(scheduled := false);
        runQueue := runQueue[1..];
        actors := actors - {id};
        return Some(cur), k;
      }
      EmptyQueueIsIdle(W());
      return None, k;
    }

    method DrainEvents(arrived: seq<DriverEvent>) returns (any: bool, ghost intake: Intake)
      requires Sound(W(), B())
      modifies `actors, `completed, `tasks, `callTimeouts, `timers, `runQueue, `log, `fired
      ensures Sound(W(), B()) && Grows(old(B()), B())
      ensures IngestedAll(arrived, intake) && intake.worlds[0] == old(W()) && intake.books[0] == old(B())
      ensures intake.worlds[|arrived|] == W() && intake.books[|arrived|] == B()
      ensures any <==> true in intake.handled
    {
      hide Sound, Ingested;
      any := false;
      intake := Intake([W()], [B()], []);
      for i := 0 to |arrived|
        invariant Sound(W(), B()) && Grows(old(B()), B())
        invariant IngestedAll(arrived[..i], intake) && intake.worlds[0] == old(W()) && intake.books[0] == old(B())
        invariant intake.worlds[i] == W() && intake.books[i] == B()
        invariant any <==> true in intake.handled
      {
        var handled := IngestEvent(arrived[i]);
        IngestedOneMore(arrived, i, intake, handled, W(), B());
        intake := Intake(intake.worlds + [W()], intake.books + [B()], intake.handled + [handled]);
        any := any || handled;
      }
      assert arrived[..|arrived|] == arrived;
    }

    /**
     * Any run of the runtime: whatever is sent, killed, shut down, spawned or stepped, in any order
     * and with any handlers, the state stays sound and its history only grows.
     */
    method Run(system: ActorId, commands: seq<Command>) returns (ghost history: seq<Instant>)
      requires Sound(W(), B()) && forall i :: 0 <= i < |commands| ==> HonestCommand(commands[i])
      modifies this
      ensures Sound(W(), B()) && Grows(old(B()), B())
      ensures PerformedAll(commands, system, history) && history[0] == Instant(old(W()), old(B())) && history[|commands|] == Instant(W(), B())
    {
      hide Sound, Performed, Grows;
      history := [Instant(W(), B())];
      GrowsItself(B());
      for i := 0 to |commands|
        invariant Sound(W(), B()) && Grows(old(B()), B())
        invariant PerformedAll(commands[..i], system, history) && history[0] == Instant(old(W()), old(B())) && history[i] == Instant(W(), B())
      {
        ghost var before := B();
        Carry(system, commands[i]);
        GrowsTransitive(old(B()), before, B());
        PerformedOneMore(commands, system, history, i, W(), B());
        history := history + [Instant(W(), B())];
      }
      assert commands[..|commands|] == commands;
    }

    /** One command of the driver. */
    method Carry(system: ActorId, command: Command)
      requires Sound(W(), B()) && HonestCommand(command)
      modifies this
      ensures Sound(W(), B()) && Grows(old(B()), B())
      ensures Performed(command, system, old(W()), old(B()), W(), B())
    {
      hide Sound, Evolves, AfterSend, SendOutcome, BookAfterSend, Plain, ExactCascade, EndedBy, ShutdownEffect, StepOf, Track, Insert, Newborn;
      match command {
        case SpawnFrom(id, options, admitted) => if id !in issued { SpawnActor(id, options, admitted); }
        case Send(to, e) =>
          OnlyAnswersGrow(W(), to, e, B());
          var _ := SendEnvelope(to, e);
        case ExitNow(actor, reason) => var _ := ExitActor(actor, reason);
        case ShutDown(actor, policy) =>
          TrackLeavesActors(W(), actor, Tracker(system, policy));
          var _ := ShutdownFromOutside(system, actor, policy);
        case Step(arrived, script) =>
          ghost var w, book := W(), B();
          var _, intake, start, trail, exits := RunOnce(arrived, script);
          assert StepOf(arrived, script, w, book, W(), B(), intake, start, trail, exits);
      }
    }

    /** A runtime with nobody in it is sound. */
    constructor ()
      ensures Sound(W(), B()) && actors == map[] && issued == {}
    {
      actors, completed, tasks, callTimeouts, timers, runQueue, log := map[], map[], map[], {}, {}, [], [];
      nextRef, issued := 1, {};
      answered, fired := {}, multiset{};
      new;
      NobodyIsSound();
    }
  }
}
