/** The supervisor actor: restarts and shutdowns that span many turns. */
module Supervisors {
  import opened Types
  import opened RestartWindow
  import opened SupervisorState

  datatype StartError = SpawnRejected | AlreadyStarted | UnknownChild | InitFailed(reason: ExitReason)

  datatype StartResult = Started(actor: ActorId) | StartFailed(error: StartError)

  datatype Directive = Ignore | RestartThem(children: seq<ChildId>) | ShutDown(reason: ExitReason)

  function Failure(what: string, child: ChildId): ExitReason { Error(Supervision(what, Some(child))) }

  function StartChildFailure(child: ChildId, error: StartError): ExitReason {
    match error
    case SpawnRejected => Failure("spawn rejected", child)
    case AlreadyStarted => Failure("already running", child)
    case UnknownChild => Failure("unknown child", child)
    case InitFailed(reason) => reason
  }

  predicate AllKnown(specs: seq<ChildSpec>, s: seq<ChildId>) { forall i :: 0 <= i < |s| ==> Spec(specs, s[i]).Some? }

  /** What a supervisor is sent: exit signals, the request to shut down, and code changes with the hook's answer. */
  datatype Command = ExitOf(from: ActorId, reason: ExitReason) | ShutDownYourself | Upgrade(accepted: bool, later: seq<ChildSpec>)

  /** What user code was told of a child's exit, and its answer. */
  datatype Report = Report(spec: ChildSpec, actor: ActorId, reason: ExitReason, directive: Directive)

  class SupervisorActor {
    var specs: seq<ChildSpec>
    var running: map<ChildId, ActorId>
    var byActor: map<ActorId, ChildId>
    var action: Option<Action>

    var issued: set<ActorId>                  // every actor id handed out so far, by whomever
    ghost var asked: seq<ChildId>             // the requests made under the present plan
    ghost var scope: seq<ChildId>             // what the restart under way is to replace
    ghost var base: Standing                  // who was running when it began, and whose exit led to it
    ghost var before: map<ChildId, ActorId>   // who was running when the first replacement was started
    ghost var started: seq<Replacement>
    ghost var refusals: nat                   // shutdown requests, starts and restarts refused so far
    ghost var strays: nat                     // exits, during a shutdown, of children it did not wait for
    ghost var origin: map<ChildId, ActorId>   // who was running when the present plan began
    ghost var since: nat                      // how many requests had been made by then

    // written only by the world outside
    ghost var requests: seq<(ActorId, ShutdownPolicy)>
    ghost var starts: seq<ChildSpec>
    ghost var permits: seq<bool>
    ghost var reports: seq<Report>

    ghost var handled: seq<Command>           // written only by the three callbacks

    ghost predicate Books()
      reads this`specs, this`running, this`byActor, this`issued
    {
      Tidy(specs, running, byActor, issued)
    }

    ghost predicate PlanFits()
      reads this
    {
      match action
      case None => true
      case Some(Restarting(plan)) =>
        && plan.activeShutdown.Some? && RestartFits(specs, plan, asked, scope, base, running)
        && Faithful() && Within(running, origin)
      case Some(Stopping(plan)) =>
        && plan.activeChild.Some? && plan.activeChild.value in running && InOrder(specs, asked, plan.activeChild, plan.shutdownQueue)
        && Faithful() && Within(running, origin)
    }

    /** The requests made under the present plan are those it says, to the actors its children ran as. */
    ghost predicate Faithful()
      reads this`specs, this`origin, this`asked, this`requests, this`since
    {
      since <= |requests| && Matches(specs, origin, asked, requests[since..])
    }

    /** The books are in order, and so is what has been asked so far. */
    ghost predicate Ready()
      reads this`specs, this`running, this`byActor, this`issued, this`origin, this`asked, this`requests, this`since
    {
      Books() && Faithful() && Within(running, origin)
    }

    /** The supervisor has stopped, or is waiting for a shutdown. */
    ghost predicate GoesDown(turn: Turn)
      reads this`action, this`specs, this`running, this`origin, this`asked, this`requests, this`since
    {
      ShuttingDown(turn, action, specs, asked, running) && Faithful() && (turn == Continue ==> Within(running, origin))
    }

    /** Between turns. */
    ghost predicate Valid()
      reads this
    {
      Books() && PlanFits()
    }

    // ---------------------------------------------------------------- the world outside

    /** User code starts a child: it may spawn actors, and returns one of them, another, or none. */
    method UserStart(spec: ChildSpec) returns (returned: Option<ActorId>, spawned: Option<ActorId>)
      modifies `issued, `starts
      ensures old(issued) <= issued && starts == old(starts) + [spec]
      ensures spawned.Some? ==> spawned.value !in old(issued) && spawned.value in issued
    {
      var handedOut: set<ActorId> := *;
      starts := starts + [spec];
      returned := *;
      spawned := *;
      if spawned.Some? {
        if spawned.value in issued {
          spawned := None;
        } else {
          issued := issued + {spawned.value};
        }
      }
      issued := issued + handedOut;
    }

    method RequestFromContext(actor: ActorId, policy: ShutdownPolicy) returns (ok: bool)
      modifies `refusals, `requests
      ensures refusals == old(refusals) + if ok then 0 else 1
      ensures requests == old(requests) + [(actor, policy)]
    {
      requests := requests + [(actor, policy)];
      ok := *;
      if !ok { refusals := refusals + 1; }
    }

    method RecordRestart() returns (allowed: bool)
      modifies `refusals, `permits
      ensures refusals == old(refusals) + if allowed then 0 else 1
      ensures permits == old(permits) + [allowed]
    {
      allowed := *;
      permits := permits + [allowed];
      if !allowed { refusals := refusals + 1; }
    }

    method OnChildExit(spec: ChildSpec, actor: ActorId, reason: ExitReason) returns (directive: Directive)
      modifies `issued, `reports
      ensures old(issued) <= issued && reports == old(reports) + [Report(spec, actor, reason, directive)]
    {
      var handedOut: set<ActorId> := *;
      issued := issued + handedOut;
      directive := *;
      reports := reports + [Report(spec, actor, reason, directive)];
    }

    // ---------------------------------------------------------------- starting children

    /** A child counts as started only if it is declared, not running, and the actor spawned last. */
    method StartChild(child: ChildId) returns (result: StartResult)
      modifies `running, `byActor, `issued, `refusals, `starts
      ensures old(issued) <= issued
      ensures starts == old(starts) + if child !in old(running) && child in Ids(specs) then [SpecOf(specs, child)] else []
      ensures result.StartFailed? ==> running == old(running) && byActor == old(byActor)
      ensures child in old(running) ==> result == StartFailed(AlreadyStarted)
      ensures child !in old(running) && child !in Ids(specs) ==> result == StartFailed(UnknownChild)
      ensures refusals == old(refusals) + if child !in old(running) && child in Ids(specs) && result.StartFailed? then 1 else 0
      ensures result.Started? ==>
        && running == old(running)[child := result.actor] && byActor == old(byActor)[result.actor := child]
        && result.actor !in old(issued) && result.actor in issued
      ensures old(Books()) ==> Books()
    {
      hide Spec, Tidy;
      if child in running {
        return StartFailed(AlreadyStarted);
      }
      var spec := Spec(specs, child);
      if spec.None? {
        return StartFailed(UnknownChild);
      }
      var returned, spawned := UserStart(spec.value);
      if old(Books()) { TidyGrows(specs, running, byActor, old(issued), issued); }
      match returned {
        case None =>
          var reason := *;
          refusals := refusals + 1;
          return StartFailed(InitFailed(reason));
        case Some(actor) =>
          if spawned != Some(actor) {
            refusals := refusals + 1;
            return StartFailed(SpawnRejected);
          }
          if old(Books()) { RememberKeepsTidy(specs, running, byActor, old(issued), issued, child, actor); }
          running := running[child := actor];
          byActor := byActor[actor := child];
          return Started(actor);
      }
    }

    method ForgetChildActor(actor: ActorId) returns (child: Option<ChildId>)
      modifies `running, `byActor
      ensures actor in old(byActor) ==>
        child == Some(old(byActor)[actor]) && running == old(running) - {child.value} && byActor == old(byActor) - {actor}
      ensures actor !in old(byActor) ==> child == None && running == old(running) && byActor == old(byActor)
      ensures old(Books()) ==> Books()
    {
      hide Tidy;
      if actor !in byActor {
        return None;
      }
      if Books() { ForgetKeepsTidy(specs, running, byActor, issued, actor); }
      child := Some(byActor[actor]);
      byActor := byActor - {actor};
      running := running - {child.value};
    }

    // ---------------------------------------------------------------- shutting down

    /** Everyone running is to be shut down, last declared first. */
    method BeginShutdown(reason: ExitReason) returns (turn: Turn)
      modifies `running, `byActor, `action, `asked, `refusals, `requests, `origin, `since
      ensures old(Books()) ==>
        && Books() && GoesDown(turn) && HasReason(turn, action, reason)
        && Controlled(turn, action, running) && Exhausts(turn, action, asked, old(AllRunningReverse(specs, running)))
        && origin == old(running) && since == |old(requests)|
      ensures running.Keys <= old(running.Keys) && old(refusals) <= refusals && old(requests) <= requests
      decreases 0, |specs| + 1, 0
    {
      hide Spec, Tidy, Descending, Backward, Covers, Confined, InOrder, Matches, Within;
      ghost var books := Books();
      BackwardIsDeclared(specs, running.Keys);
      if books {
        BeginsInOrder(specs, running, byActor, issued);
        NextFollows(specs, [], AllRunningReverse(specs, running), running);
      }
      NothingAskedYet(specs, running, requests);
      asked, origin, since := [], running, |requests|;
      var queue := AllRunningReverse(specs, running);
      var plan := ShutdownPlan(Head(queue), Tail(queue), reason);
      if plan.activeChild.Some? {
        DeclaredIsKnown(specs, queue);
        assert [plan.activeChild.value] + plan.shutdownQueue == queue;
        turn := RequestShutdown(plan, plan.activeChild.value);
      } else {
        turn := Stop(plan.finalReason);
      }
    }

    /** A child of the plan is down. The active slot goes to the next in the queue, whoever held it. */
    method AdvanceShutdown(plan: ShutdownPlan, child: ChildId) returns (turn: Turn)
      modifies `running, `byActor, `action, `asked, `refusals, `requests, `origin, `since
      ensures var rest := CompleteChild(plan, child).shutdownQueue;
        old(Ready()) && old(Descending(specs, asked + rest)) ==>
          && Books() && GoesDown(turn) && origin == old(origin) && since == old(since) && HasReason(turn, action, plan.finalReason)
          && Confined(turn, action, old(running), running, rest)
          && (old(Covers(running, None, rest)) ==>
                Controlled(turn, action, running) && Exhausts(turn, action, asked, old(asked) + rest))
      ensures running.Keys <= old(running.Keys) && old(refusals) <= refusals && old(requests) <= requests
      decreases if AllKnown(specs, plan.shutdownQueue) then 0 else 1, |plan.shutdownQueue|, 0
    {
      hide Spec, Tidy, Descending, Without, Covers, InOrder, Matches, Within;
      var completed := CompleteChild(plan, child);
      ghost var rest := completed.shutdownQueue;
      WithoutIsShorter(plan.shutdownQueue, child);
      if Descending(specs, asked + rest) { NextFollows(specs, asked, rest, running); }
      var next := NextChild(completed);
      if next.activeChild.Some? {
        KnownParts(specs, plan.shutdownQueue, rest);
        assert [next.activeChild.value] + next.shutdownQueue == rest;
        turn := RequestShutdown(next, next.activeChild.value);
      } else {
        turn := Stop(next.finalReason);
      }
    }

    /** Asks the actor a child runs as, under the policy of its spec; one that cannot be asked is forgotten. */
    method Ask(child: ChildId, spec: ChildSpec) returns (ok: bool)
      requires child in running && Spec(specs, child) == Some(spec)
      modifies `running, `byActor, `asked, `refusals, `requests
      ensures asked == old(asked) + [child] && refusals == old(refusals) + if ok then 0 else 1
      ensures requests == old(requests) + [(old(running)[child], PolicyOf(specs, child))]
      ensures ok ==> running == old(running) && byActor == old(byActor)
      ensures running.Keys <= old(running.Keys)
      ensures old(Ready()) ==> Ready() && (!ok ==> running == old(running) - {child})
    {
      hide Spec, Tidy, Matches, Within;
      var actor := running[child];
      ghost var ready := Ready();
      if ready { OneMoreAsked(specs, origin, asked, requests, since, running, child); }
      ok := RequestFromContext(actor, spec.shutdown);
      asked := asked + [child];
      if !ok {
        if ready { RunningIsTracked(specs, running, byActor, issued, child); WithinShrinks(running, origin, child); }
        var _ := ForgetChildActor(actor);
      }
    }

    /** Asks the active child to shut down; one that cannot be asked counts as down. */
    method RequestShutdown(plan: ShutdownPlan, child: ChildId) returns (turn: Turn)
      modifies `running, `byActor, `action, `asked, `refusals, `requests, `origin, `since
      ensures old(Ready()) && old(Descending(specs, asked + [child] + plan.shutdownQueue)) && plan.activeChild == Some(child) ==>
        && Books() && GoesDown(turn) && origin == old(origin) && since == old(since) && HasReason(turn, action, plan.finalReason)
        && Confined(turn, action, old(running), running, [child] + plan.shutdownQueue)
        && (old(Covers(running, Some(child), plan.shutdownQueue)) ==>
              Controlled(turn, action, running) && Exhausts(turn, action, asked, old(asked) + [child] + plan.shutdownQueue))
      ensures running.Keys <= old(running.Keys) && old(refusals) <= refusals && old(requests) <= requests
      decreases if AllKnown(specs, [child] + plan.shutdownQueue) then 0 else 1, |plan.shutdownQueue|, 1
    {
      hide Spec, Tidy, Descending, Without, Covers, InOrder, Confined, Matches, Within;
      ghost var queue := plan.shutdownQueue;
      ghost var ready := Ready() && Descending(specs, asked + [child] + queue) && plan.activeChild == Some(child);
      ghost var now := running;
      if ready { AskedOnce(specs, asked, child, queue); }
      if Covers(now, Some(child), queue) && ready { ActiveGone(now, child, queue); }
      KnownParts(specs, [child] + queue, queue);
      if child !in running {
        turn := AdvanceShutdown(plan.(activeChild := None), child);
        if ready { ConfinedWider(turn, action, now, now, running, queue, child); }
        return;
      }
      var spec := Spec(specs, child);
      if spec.None? {
        assert ([child] + queue)[0] == child;
        turn := BeginShutdown(Failure("shutdown target is missing its spec", child));
        return;
      }
      var ok := Ask(child, spec.value);
      if !ok {
        ghost var later := running;
        turn := AdvanceShutdown(plan.(activeChild := None), child);
        if ready { ConfinedWider(turn, action, now, later, running, queue, child); }
        return;
      }
      action := Some(Stopping(plan));
      turn := Continue;
      if ready { WaitingIsConfined(action, now, plan, child); }
    }

    // ---------------------------------------------------------------- restarting

    /** Where a restart stands after a turn: it went through, goes on, or gave way to a shutdown. */
    ghost predicate RestartGoesOn(turn: Turn, done: bool, known: set<ActorId>)
      reads this
    {
      if done then turn == Continue && Restarted(scope, base, before, running, started, known) && Faithful()
      else if turn == Continue && action.Some? && action.value.Restarting? then
        && action.value.restart.activeShutdown.Some?
        && RestartFits(specs, action.value.restart, asked, scope, base, running) && Faithful() && Within(running, origin)
      else GoesDown(turn) && Controlled(turn, action, running)
    }

    /** Unless refused, the restart waits for the child that `next` names, and for nothing else has changed. */
    ghost predicate NextIsAsked(turn: Turn, done: bool, next: RestartPlan, running0: map<ChildId, ActorId>, asked0: seq<ChildId>, refusals0: nat,
        requests0: seq<(ActorId, ShutdownPolicy)>)
      reads this
    {
      next.activeShutdown.Some? && !done && next.activeShutdown.value in running0 &&
      var request := (running0[next.activeShutdown.value], PolicyOf(specs, next.activeShutdown.value));
      requests0 + [request] <= requests &&
      if refusals == refusals0 then
        && turn == Continue && action == Some(Restarting(next))
        && running == running0 && asked == asked0 + [next.activeShutdown.value] && requests == requests0 + [request]
      else
        && GoesDown(turn)
        && HasReason(turn, action, Failure("exited while a restart was in progress", next.activeShutdown.value))
    }

    /** What follows when the plan has become `next`: the next child is asked, or the replacements are started. */
    ghost predicate RestartAdvances(turn: Turn, done: bool, next: RestartPlan, running0: map<ChildId, ActorId>, asked0: seq<ChildId>, refusals0: nat,
        requests0: seq<(ActorId, ShutdownPolicy)>)
      reads this
    {
      if next.activeShutdown.Some? then NextIsAsked(turn, done, next, running0, asked0, refusals0, requests0)
      else
        && (done ==> asked == asked0 && requests == requests0)
        && (done <==> AllDown(scope, running0) && refusals == refusals0)
        && (!done ==> GoesDown(turn))
    }

    /** The restart went through, or has account of everyone in scope who is still running. */
    ghost predicate KeepsAccount(turn: Turn, done: bool)
      reads this`action, this`running, this`scope
    {
      done || (turn == Continue && RestartPending() && RestartCovers(running, scope, action.value.restart))
    }

    /** Starts the replacements in order. A start that fails takes the whole supervisor down. */
    method FinishRestart(plan: RestartPlan) returns (turn: Turn, ghost done: bool)
      modifies `running, `byActor, `action, `asked, `issued, `before, `started, `refusals, `requests, `origin, `since, `starts
      ensures old(issued) <= issued && old(refusals) <= refusals && old(requests) <= requests && (done ==> turn == Continue && action == old(action))
      ensures old(Ready()) && old(RestartFits(specs, plan.(activeShutdown := None), asked, scope, base, running)) ==>
        && Books() && RestartGoesOn(turn, done, old(issued)) && before == old(running)
        && (done <==> AllDown(scope, old(running)) && refusals == old(refusals))
        && (done ==>
              && asked == old(asked) && requests == old(requests) && origin == old(origin) && since == old(since)
              && old(starts) <= starts && StartsMatch(specs, scope, starts[|old(starts)|..]))
        && (!done ==> GoesDown(turn)
                      && exists c :: c in scope && HasReason(turn, action, Failure("failed to restart", c)))
    {
      hide Tidy, RestartFits, Controlled, GoesDown, HasReason, Restarted, AllDown, Matches, Within, StartsMatch;
      before := running;
      var failed := StartAll(plan);
      if failed.Some? {
        done := false;
        turn := BeginShutdown(Failure("failed to restart", failed.value));
        return;
      }
      turn, done := Continue, true;
    }

    /** Starts one replacement, and tells whom it replaces. */
    method Replace(child: ChildId, oldChildren: map<ChildId, Option<ActorId>>) returns (ok: bool)
      modifies `running, `byActor, `issued, `started, `refusals, `starts
      ensures old(issued) <= issued && (old(Books()) ==> Books())
      ensures starts == old(starts) + if child !in old(running) && child in Ids(specs) then [SpecOf(specs, child)] else []
      ensures refusals == old(refusals) + if child !in old(running) && child in Ids(specs) && !ok then 1 else 0
      ensures ok ==> child !in old(running) && child in Ids(specs)
      ensures ok ==>
        && |started| == |old(started)| + 1 && started == old(started) + [started[|old(started)|]]
        && var r := started[|old(started)|];
        && r.child == child && r.previous == (if child in oldChildren then oldChildren[child] else None)
        && running == old(running)[child := r.actor] && r.actor !in old(issued) && r.actor in issued
    {
      hide Tidy, Spec, Ids, SpecOf;
      var result := StartChild(child);
      ok := result.Started?;
      if ok {
        var previous := if child in oldChildren then oldChildren[child] else None;
        started := started + [Replacement(child, previous, result.actor)];
      }
    }

    /** The replacements started so far are those at the front of the scope, and `queue` is the rest of it. */
    ghost predicate Rising(oldChildren: map<ChildId, Option<ActorId>>, known: set<ActorId>, since: nat, queue: seq<ChildId>)
      reads this`specs, this`running, this`byActor, this`issued, this`scope, this`base, this`before, this`started, this`starts
    {
      && Books() && known <= issued && since <= |starts| && |queue| <= |scope| && (forall c :: c in scope ==> c in Ids(specs))
      && InProgress(oldChildren, scope, base, before, running, started, known, issued, queue)
      && StartsMatch(specs, scope[..|scope| - |queue|], starts[since..])
    }

    /** The next replacement; without it, either it was up all along or its start was refused. */
    method StartNext(oldChildren: map<ChildId, Option<ActorId>>, queue: seq<ChildId>, ghost known: set<ActorId>, ghost since: nat) returns (ok: bool)
      requires queue != [] && since <= |starts|
      modifies `running, `byActor, `issued, `started, `refusals, `starts
      ensures old(issued) <= issued && old(starts) <= starts && old(refusals) <= refusals && (ok ==> refusals == old(refusals))
      ensures old(Rising(oldChildren, known, since, queue)) ==>
        && Books() && (ok ==> Rising(oldChildren, known, since, queue[1..]))
        && (!ok ==> queue[0] in scope && (refusals == old(refusals) ==> !AllDown(scope, before)))
    {
      hide Tidy, Spec, RestartFits, Restarted, InProgress, AllDown, StartsMatch, Ids, SpecOf;
      ghost var ready := Rising(oldChildren, known, since, queue);
      ghost var present, handedOut, calls, done := running, issued, starts, started;
      if ready { NotStarted(oldChildren, scope, base, before, running, started, known, issued, queue); }
      ok := Replace(queue[0], oldChildren);
      if ok && ready {
        ghost var r, n := started[|done|], |scope| - |queue|;
        StartedOneMore(oldChildren, scope, base, before, present, running, done, r, known, handedOut, issued, queue);
        OneMoreStart(specs, scope[..n], calls, since, queue[0]);
        assert |scope| - |queue[1..]| == n + 1;
      }
    }

    /** The replacements, one after the other in declared order, up to one that does not start. */
    method StartAll(plan: RestartPlan) returns (failed: Option<ChildId>)
      requires before == running
      modifies `running, `byActor, `issued, `started, `refusals, `starts
      ensures old(issued) <= issued && old(refusals) <= refusals
      ensures old(Books()) && old(RestartFits(specs, plan.(activeShutdown := None), asked, scope, base, running)) ==>
        && Books() && (failed == None <==> AllDown(scope, before) && refusals == old(refusals))
        && (failed.Some? ==> failed.value in scope)
        && (failed == None ==>
              && Restarted(scope, base, before, running, started, old(issued))
              && old(starts) <= starts && StartsMatch(specs, scope, starts[|old(starts)|..]))
    {
      hide Tidy, Spec, RestartFits, Restarted, InProgress, AllDown, StartsMatch, Ids, SpecOf, Rising;
      ghost var ready := Books() && RestartFits(specs, plan.(activeShutdown := None), asked, scope, base, running);
      ghost var known, since := issued, |starts|;
      started := [];
      var queue := plan.restartQueue;
      if ready { RisingFromNothing(plan); }
      while queue != []
        invariant known <= issued && refusals == old(refusals) && old(starts) <= starts
        invariant ready ==> Rising(plan.oldChildren, known, since, queue)
        decreases |queue|
      {
        var child := queue[0];
        var ok := StartNext(plan.oldChildren, queue, known, since);
        if !ok {
          return Some(child);
        }
        queue := queue[1..];
      }
      failed := None;
      if ready { RisenAll(plan.oldChildren, known, since); }
    }

    lemma RisingFromNothing(plan: RestartPlan)
      requires Books() && RestartFits(specs, plan.(activeShutdown := None), asked, scope, base, running)
      requires before == running && started == []
      ensures Rising(plan.oldChildren, issued, |starts|, plan.restartQueue)
    {
      hide Tidy, RestartFits, InProgress, StartsMatch, Ids;
      NothingStarted(specs, plan.(activeShutdown := None), asked, scope, base, running, issued);
      NoStartYet(specs, starts);
      assert scope[..|scope| - |scope|] == [];
    }

    lemma RisenAll(oldChildren: map<ChildId, Option<ActorId>>, known: set<ActorId>, since: nat)
      requires Rising(oldChildren, known, since, [])
      ensures Books() && Restarted(scope, base, before, running, started, known) && AllDown(scope, before)
      ensures since <= |starts| && StartsMatch(specs, scope, starts[since..])
    {
      hide Tidy, Restarted, InProgress, AllDown, StartsMatch, Ids;
      AllStarted(oldChildren, scope, base, before, running, started, known, issued);
      assert scope[..|scope|] == scope;
    }

    /** A child of the plan is down: the next one is asked, or the replacements are started. */
    method AdvanceRestart(plan: RestartPlan, child: ChildId) returns (turn: Turn, ghost done: bool)
      modifies `running, `byActor, `action, `asked, `issued, `before, `started, `refusals, `requests, `origin, `since, `starts
      ensures old(issued) <= issued && old(refusals) <= refusals && old(requests) <= requests && (done ==> turn == Continue && action == old(action))
      ensures var completed := CompleteShutdown(plan, child);
        (old(Ready()) && (completed.Some? ==> old(RestartFits(specs, completed.value.(activeShutdown := None), asked, scope, base, running)))) ==>
          && Books() && RestartGoesOn(turn, done, old(issued))
          && match completed
             case None =>
               !done && GoesDown(turn) && HasReason(turn, action, Failure("exited while a restart was in progress", child))
             case Some(later) =>
               && RestartAdvances(turn, done, NextShutdown(later), old(running), old(asked), old(refusals), old(requests))
               && (KeepsAccount(turn, done) ==> origin == old(origin) && since == old(since))
      decreases |plan.shutdownQueue|, 0
    {
      hide Tidy, Spec, RestartFits, Controlled, GoesDown, HasReason, Restarted, Without, AllDown, Matches, Within, PolicyOf, KeepsAccount,
        NextIsAsked;
      var completed := CompleteShutdown(plan, child);
      if completed.None? {
        done := false;
        turn := BeginShutdown(Failure("exited while a restart was in progress", child));
        return;
      }
      ghost var ready := Ready() && RestartFits(specs, completed.value.(activeShutdown := None), asked, scope, base, running);
      WithoutIsShorter(plan.shutdownQueue, child);
      var next := NextShutdown(completed.value);
      if next.activeShutdown.Some? {
        assert [next.activeShutdown.value] + next.shutdownQueue == completed.value.shutdownQueue;
        assert next.(activeShutdown := None, shutdownQueue := completed.value.shutdownQueue) == completed.value.(activeShutdown := None);
        turn, done := RequestRestartShutdown(next, next.activeShutdown.value);
      } else {
        assert next == completed.value.(activeShutdown := None);
        turn, done := FinishRestart(next);
        if ready && !done { DownKeepsNoAccount(turn, done); }
      }
      if ready { ReachedPlan(turn, done, next, old(running), old(asked), old(refusals), old(requests)); }
    }

    /** Asks the active child to shut down. If it is gone or cannot be asked, the supervisor goes down. */
    method RequestRestartShutdown(plan: RestartPlan, child: ChildId) returns (turn: Turn, ghost done: bool)
      modifies `running, `byActor, `action, `asked, `issued, `before, `started, `refusals, `requests, `origin, `since, `starts
      ensures old(issued) <= issued && old(refusals) <= refusals && old(requests) <= requests && (done ==> turn == Continue && action == old(action))
      ensures (old(Ready()) && plan.activeShutdown == Some(child)
               && old(RestartFits(specs, plan.(activeShutdown := None, shutdownQueue := [child] + plan.shutdownQueue), asked, scope, base, running))) ==>
          Books() && RestartGoesOn(turn, done, old(issued)) && NextIsAsked(turn, done, plan, old(running), old(asked), old(refusals), old(requests))
          && (KeepsAccount(turn, done) ==> origin == old(origin) && since == old(since))
      decreases |plan.shutdownQueue|, 1
    {
      hide Tidy, Spec, RestartFits, Controlled, GoesDown, HasReason, Restarted, Matches, Within, NextIsAsked,
        RestartGoesOn, KeepsAccount;
      ghost var running0, asked0, refusals0, requests0 := running, asked, refusals, requests;
      ghost var upcoming := plan.(activeShutdown := None, shutdownQueue := [child] + plan.shutdownQueue);
      ghost var ready := Ready() && plan.activeShutdown == Some(child) && RestartFits(specs, upcoming, asked, scope, base, running);
      if ready { AskedForRestart(specs, plan, child, asked, scope, base, running); }
      if child !in running {
        turn, done := AdvanceRestart(plan.(activeShutdown := None), child);
        return;
      }
      var spec := Spec(specs, child);
      if spec.None? {
        done := false;
        turn := BeginShutdown(Failure("restart target is missing its spec", child));
        return;
      }
      var ok := Ask(child, spec.value);
      if !ok {
        turn, done := AdvanceRestart(plan.(activeShutdown := None), child);
        if ready {
          DownKeepsNoAccount(turn, done);
          AskRefused(turn, plan, child, running0, asked0, refusals0, requests0);
        }
        return;
      }
      action := Some(Restarting(plan));
      turn, done := Continue, false;
      if ready { AskGranted(plan, child, asked0, refusals0, requests0, old(issued)); }
    }

    lemma AskRefused(turn: Turn, plan: RestartPlan, child: ChildId, running0: map<ChildId, ActorId>, asked0: seq<ChildId>, refusals0: nat,
        requests0: seq<(ActorId, ShutdownPolicy)>)
      requires plan.activeShutdown == Some(child) && child in running0 && refusals != refusals0
      requires requests0 + [(running0[child], PolicyOf(specs, child))] <= requests
      requires GoesDown(turn) && HasReason(turn, action, Failure("exited while a restart was in progress", child))
      ensures NextIsAsked(turn, false, plan, running0, asked0, refusals0, requests0)
    {
    }

    lemma AskGranted(plan: RestartPlan, child: ChildId, asked0: seq<ChildId>, refusals0: nat,
        requests0: seq<(ActorId, ShutdownPolicy)>, known: set<ActorId>)
      requires action == Some(Restarting(plan)) && plan.activeShutdown == Some(child) && child in running && refusals == refusals0
      requires asked == asked0 + [child] && requests == requests0 + [(running[child], PolicyOf(specs, child))]
      requires RestartFits(specs, plan, asked, scope, base, running) && Faithful() && Within(running, origin)
      ensures RestartGoesOn(Continue, false, known) && NextIsAsked(Continue, false, plan, running, asked0, refusals0, requests0)
    {
    }

    /** Begins a restart of the requested children, unless there have been too many restarts. */
    method BeginRestart(requested: seq<ChildId>, failed: Option<(ChildId, ActorId)>) returns (turn: Turn, ghost done: bool)
      modifies `running, `byActor, `action, `asked, `issued, `before, `started, `scope, `base, `refusals, `requests, `origin, `since, `starts,
        `permits
      ensures old(issued) <= issued && old(requests) <= requests && (done ==> turn == Continue && action == old(action))
      ensures OrderedChildIds(specs, requested) == [] ==> !done && turn == Continue && action == old(action)
      ensures OrderedChildIds(specs, requested) == [] ==>
        running == old(running) && byActor == old(byActor) && issued == old(issued) && requests == old(requests) && permits == old(permits)
      ensures OrderedChildIds(specs, requested) != [] ==>
        && scope == OrderedChildIds(specs, requested) && base == Standing(old(running), failed)
        && old(refusals) <= refusals && |permits| == |old(permits)| + 1 && old(permits) <= permits
      ensures old(Books()) && OrderedChildIds(specs, requested) != [] ==>
        && Books() && RestartGoesOn(turn, done, old(issued))
        && (KeepsAccount(turn, done) <==> refusals == old(refusals))
        && (KeepsAccount(turn, done) ==> origin == old(running) && since == |old(requests)|)
        && (refusals == old(refusals) ==>
              RestartAdvances(turn, done, NextShutdown(FirstPlan(specs, old(running), scope, failed)), old(running), [], old(refusals), old(requests)))
        && (!permits[|old(permits)|] ==>
              !done && GoesDown(turn) && HasReason(turn, action, Error(Supervision("restart intensity exceeded", None))))
    {
      hide Tidy, Spec, RestartFits, RestartCovers, Controlled, GoesDown, HasReason, Restarted, OrderedChildIds, FirstPlan, KeepsAccount,
        RestartAdvances, RestartGoesOn, NextIsAsked, AllDown, Matches, Within;
      var ids := OrderedChildIds(specs, requested);
      done := false;
      if ids == [] {
        return Continue, false;
      }
      NothingAskedYet(specs, running, requests);
      scope, base, asked, origin, since := ids, Standing(running, failed), [], running, |requests|;
      var allowed := RecordRestart();
      if !allowed {
        turn := GiveUp();
        return;
      }
      turn, done := BeginPlan(requested, failed);
    }

    /** Too many restarts: the supervisor goes down instead. */
    method GiveUp() returns (turn: Turn)
      modifies `running, `byActor, `action, `asked, `refusals, `requests, `origin, `since
      ensures old(refusals) <= refusals && old(requests) <= requests
      ensures old(Books()) ==>
        && Books() && !KeepsAccount(turn, false) && (forall known :: RestartGoesOn(turn, false, known))
        && GoesDown(turn) && HasReason(turn, action, Error(Supervision("restart intensity exceeded", None)))
    {
      hide Tidy, Controlled, GoesDown, HasReason, KeepsAccount, RestartGoesOn;
      ghost var books := Books();
      turn := BeginShutdown(Error(Supervision("restart intensity exceeded", None)));
      if books {
        DownKeepsNoAccount(turn, false);
        forall known ensures RestartGoesOn(turn, false, known) { DownGoesOn(turn, known); }
      }
    }

    /** A restart that was permitted: the first child is asked, or with nobody in scope up the replacements are started. */
    method BeginPlan(requested: seq<ChildId>, failed: Option<(ChildId, ActorId)>) returns (turn: Turn, ghost done: bool)
      requires scope == OrderedChildIds(specs, requested) && base == Standing(running, failed) && asked == []
      modifies `running, `byActor, `action, `asked, `issued, `before, `started, `refusals, `requests, `origin, `since, `starts
      ensures old(issued) <= issued && old(refusals) <= refusals && old(requests) <= requests && (done ==> turn == Continue && action == old(action))
      ensures old(Ready()) ==>
        && Books() && RestartGoesOn(turn, done, old(issued))
        && (KeepsAccount(turn, done) <==> refusals == old(refusals))
        && (KeepsAccount(turn, done) ==> origin == old(origin) && since == old(since))
        && RestartAdvances(turn, done, NextShutdown(FirstPlan(specs, old(running), scope, failed)), old(running), [], old(refusals), old(requests))
    {
      hide Tidy, Spec, RestartFits, RestartCovers, Controlled, GoesDown, HasReason, Restarted, OrderedChildIds, FirstPlan, KeepsAccount,
        RestartAdvances, RestartGoesOn, NextIsAsked, AllDown, Matches, Within;
      ghost var ready, refusals0, running0 := Ready(), refusals, running;
      var whole := FirstPlan(specs, running, OrderedChildIds(specs, requested), failed);
      if ready { RestartBegins(specs, running, byActor, issued, requested, failed); }
      var plan := NextShutdown(whole);
      PlanStart(specs, running, OrderedChildIds(specs, requested), failed);
      if plan.activeShutdown.Some? {
        assert plan.(activeShutdown := None, shutdownQueue := [plan.activeShutdown.value] + plan.shutdownQueue) == whole;
        turn, done := RequestRestartShutdown(plan, plan.activeShutdown.value);
      } else {
        assert plan == whole;
        turn, done := FinishRestart(plan);
        if ready && !done { DownKeepsNoAccount(turn, done); }
      }
      if ready {
        ReachedPlan(turn, done, plan, running0, [], refusals0, old(requests));
        AccountKept(turn, done, whole, running0, [], refusals0, old(requests));
      }
    }

    /** What asking, or starting the replacements, does is how the restart advances. */
    lemma ReachedPlan(turn: Turn, done: bool, plan: RestartPlan, running0: map<ChildId, ActorId>, asked0: seq<ChildId>, refusals0: nat,
        requests0: seq<(ActorId, ShutdownPolicy)>)
      requires plan.activeShutdown.Some? ==> NextIsAsked(turn, done, plan, running0, asked0, refusals0, requests0)
      requires plan.activeShutdown == None ==>
        && (done <==> AllDown(scope, running0) && refusals == refusals0) && (!done ==> GoesDown(turn))
        && (done ==> asked == asked0 && requests == requests0)
      ensures RestartAdvances(turn, done, plan, running0, asked0, refusals0, requests0)
    {
    }

    lemma DownGoesOn(turn: Turn, known: set<ActorId>)
      requires GoesDown(turn) && Controlled(turn, action, running)
      ensures RestartGoesOn(turn, false, known)
    {
    }

    lemma DownKeepsNoAccount(turn: Turn, done: bool)
      requires GoesDown(turn) && !done
      ensures !KeepsAccount(turn, done)
    {
    }

    /** A restart that advances without a refusal keeps the account it had. */
    lemma AccountKept(turn: Turn, done: bool, later: RestartPlan, running0: map<ChildId, ActorId>, asked0: seq<ChildId>, refusals0: nat,
        requests0: seq<(ActorId, ShutdownPolicy)>)
      requires later.activeShutdown == None
      requires RestartAdvances(turn, done, NextShutdown(later), running0, asked0, refusals0, requests0)
      ensures KeepsAccount(turn, done) <==> refusals == refusals0 && RestartCovers(running0, scope, later)
    {
      NextCovers(running0, scope, later);
      if !done && !(turn == Continue && RestartPending()) { DownKeepsNoAccount(turn, done); }
    }

    // ---------------------------------------------------------------- turns

    /** An exit signal: a child's exit moves the plan on, any other takes the supervisor down. */
    method HandleExit(from: ActorId, reason: ExitReason) returns (turn: Turn, ghost done: bool)
      requires Valid()
      modifies `running, `byActor, `action, `asked, `issued, `before, `started, `scope, `base, `refusals, `requests, `origin, `since, `starts,
        `permits, `reports, `strays, `handled
      ensures handled == old(handled) + [ExitOf(from, reason)]
      ensures Books() && old(issued) <= issued && old(requests) <= requests && (turn == Continue ==> Valid())
      ensures done ==> turn == Continue && action == None && Restarted(scope, base, before, running, started, old(issued))
      ensures old(RestartPending()) ==> scope == old(scope) && base == old(base) && old(refusals) <= refusals
      ensures old(RestartPending()) && turn == Continue && action == None ==> done
      ensures old(RestartPending()) && KeepsAccount(turn, done) ==> origin == old(origin) && since == old(since) && (done ==> Faithful())
      ensures old(ShutdownPending()) ==> origin == old(origin) && since == old(since)
      ensures old(ShutdownPending()) && from in old(byActor) ==> ShutdownMoves(old(specs), old(asked), old(action), old(running), old(byActor[from]), turn)
      ensures old(ShutdownPending()) && from !in old(byActor) ==>
        turn == Continue && action == old(action) && running == old(running) && asked == old(asked) && requests == old(requests)
      ensures old(action == None) && from in old(byActor) ==>
        Decided(old(specs), old(running), old(byActor)[from], from, reason, old(refusals), old(reports), old(requests), turn, done)
      ensures old(RestartPending()) && from in old(byActor) ==>
        RestartMoves(old(action), old(running), old(asked), old(refusals), old(requests), old(byActor[from]), turn, done)
      ensures old(RestartPending()) && from !in old(byActor) ==> !done && !KeepsAccount(turn, done)
      ensures strays == old(StraysAfter(from))
      ensures !old(ShutdownPending()) && from !in old(byActor) ==>
        && GoesDown(turn) && HasReason(turn, action, reason) && Controlled(turn, action, running)
    {
      hide Tidy, RestartFits, InOrder, GoesDown, Controlled, HasReason, Restarted, Exhausts, Confined, Covers, CompleteChild, RestartMoves,
        Matches, Within, KeepsAccount, Decided, Loses;
      handled := handled + [ExitOf(from, reason)];
      if from in byActor {
        turn, done := HandleChildExit(from, reason);
        return;
      }
      done := false;
      if action.Some? && action.value.Stopping? {
        return Continue, false;
      }
      action := None;
      turn := BeginShutdown(reason);
      SettledPlanFits(turn);
      DownKeepsNoAccount(turn, done);
    }

    /** One more if a shutdown is pending and the exit is of a child, but not of the one it waits for. */
    ghost function StraysAfter(from: ActorId): nat
      reads this
    {
      if ShutdownPending() && from in byActor && action.value.shutdown.activeChild != Some(byActor[from]) then strays + 1 else strays
    }

    ghost predicate RestartPending()
      reads this`action
    {
      action.Some? && action.value.Restarting?
    }

    ghost predicate ShutdownPending()
      reads this`action
    {
      action.Some? && action.value.Stopping?
    }

    /** A shutdown plan keeps its reason and its order; it keeps track of everyone iff the active child exited. */
    ghost predicate ShutdownMoves(specs: seq<ChildSpec>, asked0: seq<ChildId>, action0: Option<Action>,
        running0: map<ChildId, ActorId>, child: ChildId, turn: Turn)
      reads this
    {
      action0.Some? && action0.value.Stopping? &&
      var plan := action0.value.shutdown;
      && GoesDown(turn) && HasReason(turn, action, plan.finalReason)
      && child in running0 && running.Keys <= running0.Keys - {child}
      && (plan.activeChild != Some(child) || Loses(Continue, action0, running0) ==> Loses(turn, action, running))
      && (Covers(running0, plan.activeChild, plan.shutdownQueue) ==>
            && (Controlled(turn, action, running) <==> plan.activeChild == Some(child))
            && (plan.activeChild == Some(child) ==> Exhausts(turn, action, asked, asked0 + plan.shutdownQueue)))
    }

    /**
     * The exit of `child` while a restart is pending. A child the plan does not know brings the supervisor
     * down; otherwise the next one is asked, or the replacements are started. The restart keeps account of
     * its scope iff it did so before, the child is the one it waits for, and nothing was refused.
     */
    ghost predicate RestartMoves(action0: Option<Action>, running0: map<ChildId, ActorId>, asked0: seq<ChildId>, refusals0: nat,
        requests0: seq<(ActorId, ShutdownPolicy)>, child: ChildId, turn: Turn, done: bool)
      reads this
    {
      action0.Some? && action0.value.Restarting? &&
      var plan := action0.value.restart;
      && (match CompleteShutdown(plan, child)
          case None =>
            !done && GoesDown(turn) && HasReason(turn, action, Failure("exited while a restart was in progress", child))
          case Some(later) => RestartAdvances(turn, done, NextShutdown(later), running0 - {child}, asked0, refusals0, requests0))
      && (KeepsAccount(turn, done) <==>
            RestartCovers(running0, scope, plan) && plan.activeShutdown == Some(child) && refusals == refusals0)
    }

    lemma ExitMovesRestart(action0: Option<Action>, running0: map<ChildId, ActorId>, asked0: seq<ChildId>, refusals0: nat,
        requests0: seq<(ActorId, ShutdownPolicy)>, child: ChildId, turn: Turn, done: bool, base0: Standing)
      requires action0.Some? && action0.value.Restarting? && action0.value.restart.activeShutdown.Some?
      requires RestartFits(specs, action0.value.restart, asked0, scope, base0, running0)
      requires match CompleteShutdown(action0.value.restart, child)
        case None =>
          !done && GoesDown(turn) && HasReason(turn, action, Failure("exited while a restart was in progress", child))
        case Some(later) => RestartAdvances(turn, done, NextShutdown(later), running0 - {child}, asked0, refusals0, requests0)
      ensures RestartMoves(action0, running0, asked0, refusals0, requests0, child, turn, done)
      ensures CompleteShutdown(action0.value.restart, child).None? ==> !KeepsAccount(turn, done)
    {
      hide RestartFits, RestartCovers, GoesDown, HasReason, RestartAdvances, KeepsAccount;
      var plan := action0.value.restart;
      if CompleteShutdown(plan, child).Some? {
        var later := CompleteShutdown(plan, child).value;
        ExitDuringRestart(specs, asked0, plan, scope, base0, running0, child);
        var idle := later.(activeShutdown := None);
        assert NextShutdown(idle) == NextShutdown(later);
        AccountKept(turn, done, idle, running0 - {child}, asked0, refusals0, requests0);
      } else {
        DownKeepsNoAccount(turn, done);
      }
    }

    /** Whoever was in no plan before the active child's exit is in none after it. */
    lemma StillLost(turn: Turn, action: Option<Action>, running0: map<ChildId, ActorId>, later: map<ChildId, ActorId>,
        running: map<ChildId, ActorId>, plan: ShutdownPlan, child: ChildId, pending: Option<Action>)
      requires pending == Some(Stopping(plan)) && plan.activeChild == Some(child) && later == running0 - {child}
      requires Confined(turn, action, later, running, plan.shutdownQueue)
      ensures Loses(Continue, pending, running0) ==> Loses(turn, action, running)
    {
      if c :| c in running0 && plan.activeChild != Some(c) && c !in plan.shutdownQueue {
        LostChild(turn, action, later, running, plan.shutdownQueue, c);
      }
    }

    lemma SettledPlanFits(turn: Turn)
      ensures turn == Continue && GoesDown(turn) ==> PlanFits() && ShutdownPending()
    {
    }

    lemma GoneOnPlanFits(turn: Turn, done: bool, known: set<ActorId>)
      requires RestartGoesOn(turn, done, known) && turn == Continue
      ensures !done ==> PlanFits() && action.Some?
    {
    }

    method HandleChildExit(actor: ActorId, reason: ExitReason) returns (turn: Turn, ghost done: bool)
      requires Valid() && actor in byActor
      modifies `running, `byActor, `action, `asked, `issued, `before, `started, `scope, `base, `refusals, `requests, `origin, `since, `starts,
        `permits, `reports, `strays
      ensures Books() && old(issued) <= issued && old(requests) <= requests && (turn == Continue ==> Valid())
      ensures done ==> turn == Continue && action == None && Restarted(scope, base, before, running, started, old(issued))
      ensures old(RestartPending()) ==> scope == old(scope) && base == old(base) && old(refusals) <= refusals
      ensures old(RestartPending()) && turn == Continue && action == None ==> done
      ensures old(RestartPending()) && KeepsAccount(turn, done) ==> origin == old(origin) && since == old(since) && (done ==> Faithful())
      ensures old(ShutdownPending()) ==> origin == old(origin) && since == old(since)
      ensures old(ShutdownPending()) ==> ShutdownMoves(old(specs), old(asked), old(action), old(running), old(byActor[actor]), turn)
      ensures strays == old(StraysAfter(actor))
      ensures old(action == None) ==>
        Decided(old(specs), old(running), old(byActor)[actor], actor, reason, old(refusals), old(reports), old(requests), turn, done)
      ensures old(RestartPending()) ==>
        RestartMoves(old(action), old(running), old(asked), old(refusals), old(requests), old(byActor[actor]), turn, done)
    {
      hide Tidy, RestartFits, InOrder, GoesDown, Controlled, HasReason, Restarted, Matches, Within, KeepsAccount, Decided, ShutdownMoves, RestartMoves;
      RunningIsTrackedBy(specs, running, byActor, issued, actor);
      ghost var present := running;
      if action.Some? { WithinShrinks(running, origin, byActor[actor]); }
      var forgotten := ForgetChildActor(actor);
      var child := forgotten.value;
      var pending := action;
      action := None;
      match pending {
        case Some(Stopping(plan)) =>
          done := false;
          turn := GoOnShuttingDown(plan, child, present);
        case Some(Restarting(plan)) =>
          turn, done := GoOnRestarting(plan, child, present);
        case None =>
          turn, done := DecideOnExit(child, actor, reason, present);
      }
    }

    /** A child has exited while the supervisor goes down. */
    method GoOnShuttingDown(plan: ShutdownPlan, child: ChildId, ghost running0: map<ChildId, ActorId>) returns (turn: Turn)
      requires Ready() && action == None && child in running0 && running == running0 - {child}
      requires plan.activeChild.Some? && plan.activeChild.value in running0 && InOrder(specs, asked, plan.activeChild, plan.shutdownQueue)
      modifies `running, `byActor, `action, `asked, `refusals, `requests, `origin, `since, `strays
      ensures Books() && old(requests) <= requests && (turn == Continue ==> Valid())
      ensures origin == old(origin) && since == old(since)
      ensures ShutdownMoves(specs, old(asked), Some(Stopping(plan)), running0, child, turn)
      ensures strays == old(strays) + if plan.activeChild == Some(child) then 0 else 1
    {
      hide Tidy, InOrder, GoesDown, Controlled, HasReason, Exhausts, Confined, Covers, CompleteChild, Descending, Matches, Within, Loses;
      ghost var later := running;
      ghost var rest := CompleteChild(plan, child).shutdownQueue;
      ExitDuringShutdown(specs, asked, plan, running0, child);
      if plan.activeChild == Some(child) { CompletedActive(plan, child); }
      turn := AdvanceShutdown(plan, child);
      SettledPlanFits(turn);
      if plan.activeChild == Some(child) {
        StillLost(turn, action, running0, later, running, plan, child, Some(Stopping(plan)));
      } else {
        strays := strays + 1;
        LostChild(turn, action, later, running, rest, plan.activeChild.value);
      }
    }

    /** A child has exited while a restart is pending. */
    method GoOnRestarting(plan: RestartPlan, child: ChildId, ghost running0: map<ChildId, ActorId>) returns (turn: Turn, ghost done: bool)
      requires Ready() && action == None && child in running0 && running == running0 - {child}
      requires plan.activeShutdown.Some? && RestartFits(specs, plan, asked, scope, base, running0)
      modifies `running, `byActor, `action, `asked, `issued, `before, `started, `refusals, `requests, `origin, `since, `starts
      ensures Books() && old(issued) <= issued && old(requests) <= requests && old(refusals) <= refusals && (turn == Continue ==> Valid())
      ensures done ==> turn == Continue && action == None && Restarted(scope, base, before, running, started, old(issued))
      ensures turn == Continue && action == None ==> done
      ensures KeepsAccount(turn, done) ==> origin == old(origin) && since == old(since) && (done ==> Faithful())
      ensures RestartMoves(Some(Restarting(plan)), running0, old(asked), old(refusals), old(requests), child, turn, done)
    {
      hide Tidy, RestartFits, GoesDown, Controlled, HasReason, Restarted, RestartAdvances, RestartMoves, Matches, Within, KeepsAccount;
      ghost var at, before0, refusals0 := asked, requests, refusals;
      if CompleteShutdown(plan, child).Some? { ExitDuringRestart(specs, at, plan, scope, base, running0, child); }
      turn, done := AdvanceRestart(plan, child);
      if turn == Continue { GoneOnPlanFits(turn, done, old(issued)); }
      ExitMovesRestart(Some(Restarting(plan)), running0, at, refusals0, before0, child, turn, done, base);
    }

    /**
     * With no plan under way, user code decides what the exit of a child means: it is told of exactly
     * this exit, and what it answers is done. An undeclared child takes the supervisor down.
     */
    ghost predicate Decided(specs0: seq<ChildSpec>, running0: map<ChildId, ActorId>, child: ChildId, actor: ActorId, reason: ExitReason,
        refusals0: nat, reports0: seq<Report>, requests0: seq<(ActorId, ShutdownPolicy)>, turn: Turn, done: bool)
      reads this
    {
      var now := running0 - {child};
      if child !in Ids(specs0) then
        && !done && reports == reports0 && GoesDown(turn) && Controlled(turn, action, running)
        && HasReason(turn, action, Failure("tracked child is missing its spec", child))
      else
        && |reports| == |reports0| + 1 && reports0 <= reports
        && Spec(specs0, child) == Some(reports[|reports0|].spec) && reports[|reports0|].actor == actor && reports[|reports0|].reason == reason
        && match reports[|reports0|].directive
           case Ignore => !done && turn == Continue && action == None && running == now && requests == requests0
           case RestartThem(children) =>
             if OrderedChildIds(specs0, children) == [] then
               !done && turn == Continue && action == None && running == now && requests == requests0
             else
               && scope == OrderedChildIds(specs0, children) && base == Standing(now, Some((child, actor)))
               && (KeepsAccount(turn, done) <==> refusals == refusals0)
               && (refusals == refusals0 ==>
                     RestartAdvances(turn, done, NextShutdown(FirstPlan(specs0, now, scope, Some((child, actor)))), now, [], refusals0, requests0))
           case ShutDown(because) => !done && GoesDown(turn) && HasReason(turn, action, because) && Controlled(turn, action, running)
    }

    method DecideOnExit(child: ChildId, actor: ActorId, reason: ExitReason, ghost running0: map<ChildId, ActorId>) returns (turn: Turn, ghost done: bool)
      requires Books() && action == None && running == running0 - {child}
      modifies `running, `byActor, `action, `asked, `issued, `before, `started, `scope, `base, `refusals, `requests, `origin, `since, `starts,
        `permits, `reports
      ensures Books() && old(issued) <= issued && old(requests) <= requests && (turn == Continue ==> Valid())
      ensures done ==> turn == Continue && action == None && Restarted(scope, base, before, running, started, old(issued))
      ensures Decided(specs, running0, child, actor, reason, old(refusals), old(reports), old(requests), turn, done)
    {
      hide Tidy, RestartFits, InOrder, GoesDown, Controlled, HasReason, Restarted, Exhausts, OrderedChildIds, AllRunningReverse,
        RestartAdvances, KeepsAccount, FirstPlan, NextShutdown;
      done := false;
      var spec := Spec(specs, child);
      if spec.None? {
        turn := BeginShutdown(Failure("tracked child is missing its spec", child));
        SettledPlanFits(turn);
        return;
      }
      var directive := OnChildExit(spec.value, actor, reason);
      TidyGrows(specs, running, byActor, old(issued), issued);
      match directive {
        case Ignore =>
          turn := Continue;
        case RestartThem(children) =>
          ghost var known := issued;
          turn, done := BeginRestart(children, Some((child, actor)));
          if OrderedChildIds(specs, children) != [] {
            if turn == Continue { GoneOnPlanFits(turn, done, known); }
            if done { RestartedEarlier(scope, base, before, running, started, old(issued), known); }
          }
        case ShutDown(because) =>
          turn := BeginShutdown(because);
          SettledPlanFits(turn);
      }
    }

    // ---------------------------------------------------------------- the other callbacks

    constructor (specs: seq<ChildSpec>, issued: set<ActorId>)
      ensures this.specs == specs && running == map[] && byActor == map[] && action == None && this.issued == issued
    {
      this.specs, this.issued := specs, issued;
      running, byActor, action := map[], map[], None;
      asked, scope, base, before, started, refusals, strays := [], [], Standing(map[], None), map[], [], 0, 0;
      origin, since, requests, starts, permits, reports, handled := map[], 0, [], [], [], [], [];
    }

    /** Starts all declared children in order. It succeeds only if their ids are distinct. */
    method Init() returns (failure: Option<ExitReason>)
      requires running == map[] && byActor == map[] && action == None
      modifies `running, `byActor, `issued, `asked, `refusals, `requests, `starts
      ensures failure == None ==> Valid() && running.Keys == Ids(specs) && requests == old(requests)
      ensures failure == None ==> old(starts) <= starts && StartsMatch(specs, AllIds(specs), starts[|old(starts)|..])
      ensures failure.Some? ==> asked == AllRunningReverse(specs, running) && KillsAsked(old(requests))
    {
      hide AllStartedSoFar, StartsMatch, SpecOf, Spec, Tidy, KillsAsked, AllRunningReverse;
      ghost var up: seq<ChildId> := [];
      NothingRuns(specs[..0], running, byActor, issued);
      NoStartYet(specs, starts);
      for i := 0 to |specs|
        invariant action == None && AllStartedSoFar(specs[..i], running, byActor, issued) && requests == old(requests)
        invariant |up| == i && forall j :: 0 <= j < i ==> up[j] == specs[j].id
        invariant old(starts) <= starts && StartsMatch(specs, up, starts[|old(starts)|..])
      {
        var child := specs[i].id;
        assert child in Ids(specs);
        ghost var present, tracked, handedOut, calls := running, byActor, issued, starts;
        var result := StartChild(child);
        if result.StartFailed? {
          AbortStartup();
          return Some(StartChildFailure(child, result.error));
        }
        assert specs[..i + 1] == specs[..i] + [specs[i]];
        OneMoreStarted(specs[..i], specs[i], present, tracked, handedOut, issued, result.actor);
        OneMoreStart(specs, up, calls, |old(starts)|, child);
        up := up + [child];
      }
      assert specs[..|specs|] == specs && up == AllIds(specs);
      EveryoneRuns(specs, running, byActor, issued);
      return None;
    }

    /** Every one of `asked` has been asked to end at once. */
    ghost predicate KillsAsked(requests0: seq<(ActorId, ShutdownPolicy)>)
      reads this
    {
      && |requests| == |requests0| + |asked| && requests0 <= requests
      && forall i :: 0 <= i < |asked| ==> asked[i] in running && requests[|requests0| + i] == (running[asked[i]], BrutalKill)
    }

    method AbortStartup()
      modifies `asked, `refusals, `requests
      ensures asked == AllRunningReverse(specs, running) && KillsAsked(old(requests))
    {
      AllAreRunning(specs, running);
      var rest := AllRunningReverse(specs, running);
      ghost var all := rest;
      asked := [];
      while rest != []
        invariant asked + rest == all && KillsAsked(old(requests))
        decreases |rest|
      {
        if rest[0] in running {
          var _ := RequestFromContext(running[rest[0]], BrutalKill);
        }
        asked := asked + [rest[0]];
        rest := rest[1..];
      }
    }

    /** The control message that asks the supervisor itself to shut down, whatever it was doing. */
    method ShutdownCallback() returns (turn: Turn)
      requires Valid()
      modifies `running, `byActor, `action, `asked, `refusals, `requests, `origin, `since, `handled
      ensures handled == old(handled) + [ShutDownYourself]
      ensures Books() && (turn == Continue ==> Valid())
      ensures GoesDown(turn) && HasReason(turn, action, ExitReason.Shutdown) && Controlled(turn, action, running)
    {
      hide Tidy, RestartFits, InOrder, GoesDown, Controlled, HasReason, Exhausts;
      handled := handled + [ShutDownYourself];
      turn := BeginShutdown(ExitReason.Shutdown);
      SettledPlanFits(turn);
    }

    /** New specs are taken over only between plans, and only if the child ids and their order stay. */
    method CodeChange(accepted: bool, later: seq<ChildSpec>) returns (ok: bool)
      requires Valid()
      modifies `specs, `handled
      ensures handled == old(handled) + [Upgrade(accepted, later)]
      ensures Valid()
      ensures ok <==> action == None && accepted && AllIds(later) == AllIds(old(specs))
      ensures specs == if ok then later else old(specs)
    {
      hide Tidy, RestartFits, InOrder;
      handled := handled + [Upgrade(accepted, later)];
      if action.Some? || !accepted {
        return false;
      }
      if AllIds(later) != AllIds(specs) {
        return false;
      }
      SameIdsKeepTidy(specs, later, running, byActor, issued);
      specs := later;
      return true;
    }

    // ---------------------------------------------------------------- over many turns

    /** Whatever comes in, in any order, is served without the books or the plan going wrong. */
    method Serve(inbox: seq<Command>) returns (turn: Turn)
      requires Valid()
      modifies `specs, `running, `byActor, `action, `asked, `issued, `before, `started, `scope, `base, `refusals, `requests, `origin, `since, `starts,
        `permits, `reports, `strays, `handled
      ensures Books() && (turn == Continue ==> Valid())
      ensures AllIds(specs) == AllIds(old(specs))
      ensures exists n :: 0 <= n <= |inbox| && handled == old(handled) + inbox[..n] && (turn == Continue ==> n == |inbox|)
    {
      hide Valid, Books, Restarted, ShutdownMoves, RestartMoves, GoesDown, HasReason, Controlled, AllIds;
      turn := Continue;
      ValidHasBooks();
      for i := 0 to |inbox|
        invariant turn == Continue && Valid() && Books() && AllIds(specs) == AllIds(old(specs))
        invariant handled == old(handled) + inbox[..i]
      {
        match inbox[i] {
          case ExitOf(from, reason) =>
            ghost var done;
            turn, done := HandleExit(from, reason);
          case ShutDownYourself =>
            turn := ShutdownCallback();
          case Upgrade(accepted, later) =>
            var _ := CodeChange(accepted, later);
            ValidHasBooks();
        }
        assert inbox[..i] + [inbox[i]] == inbox[..i + 1];
        if turn != Continue {
          return;
        }
      }
      assert inbox[..|inbox|] == inbox;
    }

    lemma ValidHasBooks()
      requires Valid()
      ensures Books()
    {
    }

    /**
     * A shutdown in which the exits arrive in the order of the requests: every child is asked, in exactly
     * reverse declared order, and the supervisor stops with the given reason and nobody running.
     */
    method ShutDownInOrder(reason: ExitReason) returns (turn: Turn)
      requires Valid()
      modifies `running, `byActor, `action, `asked, `issued, `before, `started, `scope, `base, `refusals, `requests, `origin, `since, `starts,
        `permits, `reports, `strays, `handled
      ensures turn == Stop(reason) && running == map[]
      ensures asked == AllRunningReverse(specs, old(running))
      ensures old(requests) <= requests && Matches(specs, old(running), asked, requests[|old(requests)|..])
    {
      hide Valid, Tidy, RestartFits, InOrder, ShuttingDown, Restarted, AllRunningReverse, Matches, Within, Decided;
      ValidHasBooks();
      ghost var all := AllRunningReverse(specs, running);
      turn := BeginShutdown(reason);
      SettledIsValid(turn);
      while turn == Continue
        invariant Books() && GoesDown(turn) && HasReason(turn, action, reason)
        invariant turn == Continue ==> Valid()
        invariant Controlled(turn, action, running) && Exhausts(turn, action, asked, all)
        invariant origin == old(running) && since == |old(requests)| && old(requests) <= requests
        decreases running.Keys, turn == Continue
      {
        ActiveIsRunning(turn, action, specs, asked, running);
        var child := action.value.shutdown.activeChild.value;
        RunningIsTracked(specs, running, byActor, issued, child);
        ghost var done;
        var exit := *;
        turn, done := HandleExit(running[child], exit);
        SettledIsValid(turn);
      }
    }

    /**
     * A shutdown and whatever exits follow it, in any order, until it is over. It keeps its reason and
     * its order; it has account of everyone, and so stops with nobody running, iff each exit of a child
     * was that of the child it was waiting for.
     */
    method ShutDownToTheEnd(reason: ExitReason, signals: seq<(ActorId, ExitReason)>) returns (turn: Turn)
      requires Valid()
      modifies `running, `byActor, `action, `asked, `issued, `before, `started, `scope, `base, `refusals, `requests, `origin, `since, `starts,
        `permits, `reports, `strays, `handled
      ensures Books() && GoesDown(turn) && HasReason(turn, action, reason)
      ensures old(strays) <= strays
      ensures old(requests) <= requests && Matches(specs, old(running), asked, requests[|old(requests)|..])
      ensures Controlled(turn, action, running) <==> strays == old(strays)
      ensures strays == old(strays) ==> Exhausts(turn, action, asked, old(AllRunningReverse(specs, running)))
    {
      hide Valid, Tidy, RestartFits, InOrder, ShuttingDown, Restarted, AllRunningReverse, Controlled, Exhausts, Loses, ShutdownMoves, HasReason,
        Matches, Within, Decided;
      ValidHasBooks();
      ghost var all := AllRunningReverse(specs, running);
      turn := BeginShutdown(reason);
      SettledIsValid(turn);
      for i := 0 to |signals|
        invariant Books() && GoesDown(turn) && HasReason(turn, action, reason)
        invariant turn == Continue ==> Valid() && ShutdownPending()
        invariant origin == old(running) && since == |old(requests)| && old(requests) <= requests
        invariant old(strays) <= strays
        invariant strays == old(strays) ==> Controlled(turn, action, running) && Exhausts(turn, action, asked, all)
        invariant strays > old(strays) ==> Loses(turn, action, running)
      {
        if turn != Continue {
          break;
        }
        var from := signals[i].0;
        ghost var action0, running0, asked0, strays0 := action, running, asked, strays;
        ghost var child := if from in byActor then Some(byActor[from]) else None;
        ghost var done;
        turn, done := HandleExit(from, signals[i].1);
        SettledIsValid(turn);
        if child.Some? { ShutdownMoved(action0, running0, asked0, child.value, turn, reason, all); }
      }
      LosesIsUncontrolled(turn, action, running);
    }

    /** What one exit does to a shutdown that has account of everyone, and to one that has not. */
    lemma ShutdownMoved(action0: Option<Action>, running0: map<ChildId, ActorId>, asked0: seq<ChildId>, child: ChildId, turn: Turn,
        reason: ExitReason, all: seq<ChildId>)
      requires ShutdownMoves(specs, asked0, action0, running0, child, turn) && HasReason(Continue, action0, reason)
      ensures GoesDown(turn) && HasReason(turn, action, reason)
      ensures action0.Some? && action0.value.Stopping?
      ensures action0.value.shutdown.activeChild == Some(child) && Controlled(Continue, action0, running0) ==>
        Controlled(turn, action, running) && (Exhausts(Continue, action0, asked0, all) ==> Exhausts(turn, action, asked, all))
      ensures action0.value.shutdown.activeChild != Some(child) || Loses(Continue, action0, running0) ==> Loses(turn, action, running)
    {
      hide Loses, GoesDown, Covers;
    }

    lemma SettledIsValid(turn: Turn)
      requires Books()
      ensures turn == Continue && GoesDown(turn) ==> Valid() && ShutdownPending()
    {
      SettledPlanFits(turn);
    }

    /**
     * A restart and whatever exits follow it, in any order, until it is over. It goes through iff nothing
     * is refused and the first exits are those of the children to be replaced, in the order in which they
     * are asked; then everyone else kept their id throughout and the replacements are fresh. It is still
     * under way, with account of everyone in scope, iff the exits so far came in that order. Otherwise
     * it is a shutdown, or waits with someone lost.
     */
    method RestartToTheEnd(requested: seq<ChildId>, signals: seq<(ActorId, ExitReason)>) returns (turn: Turn, ghost done: bool)
      requires Valid() && action == None && OrderedChildIds(specs, requested) != []
      modifies `running, `byActor, `action, `asked, `issued, `before, `started, `scope, `base, `refusals, `requests, `origin, `since, `starts,
        `permits, `reports, `strays, `handled
      ensures Books() && old(refusals) <= refusals && scope == OrderedChildIds(specs, requested)
      ensures turn == Continue && action == None ==> done
      ensures done ==> turn == Continue && action == None && Restarted(OrderedChildIds(specs, requested), Standing(old(running), None), before, running, started, old(issued))
      ensures done ==>
        var queue := RunningChildrenReverse(specs, old(running), OrderedChildIds(specs, requested));
        old(requests) <= requests && Matches(specs, old(running), queue, requests[|old(requests)|..])
      ensures Settled(signals, RunningChildrenReverse(specs, old(running), OrderedChildIds(specs, requested)), old(running),
          done, !done && KeepsAccount(turn, done), refusals == old(refusals))
      ensures done || (turn == Continue && RestartPending()) || GoesDown(turn)
    {
      hide Valid, Tidy, RestartFits, RestartCovers, InOrder, GoesDown, Controlled, Restarted, ShutdownMoves, RestartMoves, OrderedChildIds,
        RunningChildrenReverse, HasReason, RestartAdvances, KeepsAccount, ArriveInOrder, FirstPlan, NextShutdown, Settled, OnTrack;
      ValidHasBooks();
      ghost var queue := RunningChildrenReverse(specs, running, OrderedChildIds(specs, requested));
      turn, done := BeginRestart(requested, None);
      if turn == Continue { GoneOnIsValid(turn, done, old(issued)); }
      FirstOnTrack(turn, done, old(refusals), old(requests), signals);
      if turn != Continue || !(action.Some? && action.value.Restarting?) {
        return;
      }
      for i := 0 to |signals|
        invariant !done && turn == Continue && Books() && Valid() && old(issued) <= issued && old(refusals) <= refusals
        invariant RestartPending() && scope == OrderedChildIds(specs, requested) && base == Standing(old(running), None)
        invariant OnTrack(signals, queue, base.running, i, action.value.restart, KeepsAccount(turn, done), refusals == old(refusals))
        invariant KeepsAccount(turn, done) ==>
          origin == old(running) && since == |old(requests)| && i < |queue| && asked == queue[..i + 1] && old(requests) <= requests
      {
        ghost var known := issued;
        ghost var now := Pending(action.value.restart, running, byActor, asked, refusals, requests, KeepsAccount(turn, done));
        PendingParts();
        turn, done := HandleExit(signals[i].0, signals[i].1);
        if done { RestartedEarlier(scope, base, before, running, started, old(issued), known); }
        ExitTracked(now, turn, done, old(refusals), signals, queue, i);
        if turn != Continue || !(action.Some? && action.value.Restarting?) {
          return;
        }
      }
      SignalsUsedUp(signals, queue, base.running, action.value.restart, KeepsAccount(turn, done), refusals == old(refusals));
    }

    /** Where the beginning of a restart leaves it. */
    lemma FirstOnTrack(turn: Turn, done: bool, refusals0: nat, requests0: seq<(ActorId, ShutdownPolicy)>, signals: seq<(ActorId, ExitReason)>)
      requires KeepsAccount(turn, done) <==> refusals == refusals0
      requires refusals == refusals0 ==> RestartAdvances(turn, done, NextShutdown(FirstPlan(specs, base.running, scope, None)), base.running, [], refusals0, requests0)
      ensures var queue := RunningChildrenReverse(specs, base.running, scope);
        if !done && turn == Continue && RestartPending()
        then
          && OnTrack(signals, queue, base.running, 0, action.value.restart, KeepsAccount(turn, done), refusals == refusals0)
          && (KeepsAccount(turn, done) ==> 0 < |queue| && asked == queue[..1])
        else
          && Settled(signals, queue, base.running, done, !done && KeepsAccount(turn, done), refusals == refusals0)
          && (done ==> asked == queue && KeepsAccount(turn, done))
    {
      hide RestartCovers, HasReason, FirstPlan, RunningChildrenReverse;
      PlanStart(specs, base.running, scope, None);
    }

    /** What a pending restart is known to satisfy before the next exit. */
    ghost predicate PendingNow(now: Pending)
      reads this
    {
      && now.plan.activeShutdown.Some? && Inverse(now.running, now.byActor)
      && StillUp(now.plan, now.running) && (forall c :: c in now.running ==> c in base.running && now.running[c] == base.running[c])
      && now.kept == RestartCovers(now.running, scope, now.plan)
    }

    lemma PendingParts()
      requires Valid() && RestartPending()
      ensures var plan := action.value.restart;
        PendingNow(Pending(plan, running, byActor, asked, refusals, requests, KeepsAccount(Continue, false)))
    {
      hide Distinct, Ids, InOrder, Ascending, Remembers, RestartCovers;
    }

    /** One exit later. */
    lemma ExitTracked(now: Pending, turn: Turn, done: bool, start: nat, signals: seq<(ActorId, ExitReason)>, queue: seq<ChildId>, i: nat)
      requires PendingNow(now) && start <= now.refusals <= refusals && i < |signals|
      requires OnTrack(signals, queue, base.running, i, now.plan, now.kept, now.refusals == start)
      requires now.kept ==> i < |queue| && now.asked == queue[..i + 1]
      requires if signals[i].0 in now.byActor
        then RestartMoves(Some(Restarting(now.plan)), now.running, now.asked, now.refusals, now.requests, now.byActor[signals[i].0], turn, done)
        else !done && !KeepsAccount(turn, done) && GoesDown(turn)
      ensures KeepsAccount(turn, done) ==> now.kept
      ensures if !done && turn == Continue && RestartPending()
        then
          && OnTrack(signals, queue, base.running, i + 1, action.value.restart, KeepsAccount(turn, done), refusals == start)
          && (KeepsAccount(turn, done) ==> i + 1 < |queue| && asked == queue[..i + 2])
        else
          && Settled(signals, queue, base.running, done, !done && KeepsAccount(turn, done), refusals == start)
          && (done || GoesDown(turn)) && (done ==> asked == queue && KeepsAccount(turn, done))
    {
      hide RestartCovers, HasReason;
      var from := signals[i].0;
      var hit := from in now.byActor && now.plan.activeShutdown == Some(now.byActor[from]);
      NextSignal(signals, queue, base.running, i, now.plan, now.kept, now.refusals == start, hit, KeepsAccount(turn, done), refusals == start);
    }

    lemma GoneOnIsValid(turn: Turn, done: bool, known: set<ActorId>)
      requires Books() && RestartGoesOn(turn, done, known) && turn == Continue
      ensures !done ==> Valid() && action.Some?
    {
    }
  }

  // ------------------------------------------------------------------ whether a restart goes through

  /** A restart before the next exit is handled. */
  datatype Pending = Pending(plan: RestartPlan, running: map<ChildId, ActorId>, byActor: map<ActorId, ChildId>,
      asked: seq<ChildId>, refusals: nat, requests: seq<(ActorId, ShutdownPolicy)>, kept: bool)

  function Lesser(a: nat, b: nat): nat { if a <= b then a else b }

  /** After `i` exits: account is kept iff all was `clean` and in order, and then the plan is what is left of `queue`. */
  ghost predicate OnTrack(signals: seq<(ActorId, ExitReason)>, queue: seq<ChildId>, base: map<ChildId, ActorId>, i: nat,
      plan: RestartPlan, kept: bool, clean: bool)
  {
    && (kept <==> clean && ArriveInOrder(signals, queue, base, Lesser(i, |queue|)))
    && (kept ==> i < |queue| && plan.activeShutdown == Some(queue[i]) && plan.shutdownQueue == queue[i + 1..])
  }

  /** It went through iff all was clean and everyone's exit came in order; it waits iff so far they did. */
  ghost predicate Settled(signals: seq<(ActorId, ExitReason)>, queue: seq<ChildId>, base: map<ChildId, ActorId>,
      done: bool, waiting: bool, clean: bool)
  {
    && (done <==> clean && ArriveInOrder(signals, queue, base, |queue|))
    && (waiting <==> clean && |signals| < |queue| && ArriveInOrder(signals, queue, base, |signals|))
  }

  lemma NextSignal(signals: seq<(ActorId, ExitReason)>, queue: seq<ChildId>, base: map<ChildId, ActorId>, i: nat, plan: RestartPlan,
      kept0: bool, clean0: bool, hit: bool, kept: bool, clean: bool)
    requires OnTrack(signals, queue, base, i, plan, kept0, clean0) && i < |signals|
    requires kept0 ==> (hit <==> queue[i] in base && signals[i].0 == base[queue[i]])
    requires (clean ==> clean0) && (kept <==> kept0 && hit && clean)
    ensures kept <==> clean && ArriveInOrder(signals, queue, base, Lesser(i + 1, |queue|))
  {
  }

  lemma SignalsUsedUp(signals: seq<(ActorId, ExitReason)>, queue: seq<ChildId>, base: map<ChildId, ActorId>, plan: RestartPlan,
      kept: bool, clean: bool)
    requires OnTrack(signals, queue, base, |signals|, plan, kept, clean)
    ensures Settled(signals, queue, base, false, kept, clean)
  {
  }

  lemma {:induction false} AllAreRunning(specs: seq<ChildSpec>, running: map<ChildId, ActorId>)
    ensures forall c :: c in AllRunningReverse(specs, running) ==> c in running
    decreases |specs|
  {
    if specs != [] { AllAreRunning(specs[..|specs| - 1], running); }
  }

  lemma DeclaredIsKnown(specs: seq<ChildSpec>, s: seq<ChildId>)
    requires forall c :: c in s ==> c in Ids(specs)
    ensures AllKnown(specs, s)
  {
  }

  lemma KnownParts(specs: seq<ChildSpec>, s: seq<ChildId>, t: seq<ChildId>)
    requires forall c :: c in t ==> c in s
    ensures AllKnown(specs, s) ==> AllKnown(specs, t)
  {
    if AllKnown(specs, s) {
      hide Spec;
      forall i | 0 <= i < |t| ensures Spec(specs, t[i]).Some? {
        assert t[i] in s;
      }
    }
  }

  lemma RunningIsTracked(specs: seq<ChildSpec>, running: map<ChildId, ActorId>, byActor: map<ActorId, ChildId>, issued: set<ActorId>, c: ChildId)
    requires Tidy(specs, running, byActor, issued) && c in running
    ensures running[c] in byActor && byActor[running[c]] == c
  {
  }

  lemma WaitingIsConfined(action: Option<Action>, running: map<ChildId, ActorId>, plan: ShutdownPlan, child: ChildId)
    requires action == Some(Stopping(plan)) && plan.activeChild == Some(child)
    ensures Confined(Continue, action, running, running, [child] + plan.shutdownQueue)
  {
  }

  // ------------------------------------------------------------------ the parts of a restart

  /** Part of the replacements are up; `queue` is what is left. */
  ghost predicate InProgress(previous: map<ChildId, Option<ActorId>>, scope: seq<ChildId>, base: Standing, before: map<ChildId, ActorId>,
      running: map<ChildId, ActorId>, started: seq<Replacement>, known: set<ActorId>, issued: set<ActorId>, queue: seq<ChildId>)
  {
    && |started| <= |scope| && queue == scope[|started|..] && Remembers(previous, scope, base)
    && Untouched(base, before, scope) && (forall i, j :: 0 <= i < j < |scope| ==> scope[i] != scope[j])
    && (forall i :: 0 <= i < |started| ==> scope[i] !in before && Replaces(started[i], scope[i], base, running, known))
    && (forall i :: 0 <= i < |started| ==> started[i].actor in issued)
    && (forall i, j :: 0 <= i < j < |started| ==> started[i].actor != started[j].actor)
    && (forall c :: c in before ==> c in running && running[c] == before[c])
    && (forall c :: c in running && c !in before ==> c in scope[..|started|])
  }

  lemma NoStartYet(specs: seq<ChildSpec>, starts: seq<ChildSpec>)
    ensures StartsMatch(specs, [], starts[|starts|..])
  {
  }

  lemma NothingStarted(specs: seq<ChildSpec>, plan: RestartPlan, asked: seq<ChildId>, scope: seq<ChildId>,
      base: Standing, running: map<ChildId, ActorId>, issued: set<ActorId>)
    requires RestartFits(specs, plan, asked, scope, base, running)
    ensures InProgress(plan.oldChildren, scope, base, running, running, [], issued, issued, plan.restartQueue) && plan.restartQueue == scope
    ensures forall c :: c in scope ==> c in Ids(specs)
  {
  }

  lemma StartedOneMore(previous: map<ChildId, Option<ActorId>>, scope: seq<ChildId>, base: Standing, before: map<ChildId, ActorId>,
      present: map<ChildId, ActorId>, running: map<ChildId, ActorId>, started: seq<Replacement>, r: Replacement,
      known: set<ActorId>, handedOut: set<ActorId>, issued: set<ActorId>, queue: seq<ChildId>)
    requires InProgress(previous, scope, base, before, present, started, known, handedOut, queue) && queue != []
    requires r.child == queue[0] && r.child !in present && running == present[r.child := r.actor]
    requires known <= handedOut <= issued && r.actor !in handedOut && r.actor in issued
    requires r.previous == if r.child in previous then previous[r.child] else None
    ensures InProgress(previous, scope, base, before, running, started + [r], known, issued, queue[1..])
  {
    var n := |started|;
    assert scope[n] == r.child && r.child in scope;
    assert scope[n + 1..] == queue[1..];
    assert r.child !in before;
    forall i | 0 <= i < n + 1
      ensures scope[i] !in before && Replaces((started + [r])[i], scope[i], base, running, known)
    {
      assert i < n ==> scope[i] != scope[n] && Replaces(started[i], scope[i], base, present, known);
    }
  }

  /** A child of the scope that is up when its turn comes was up when the first replacement was started. */
  lemma NotStarted(previous: map<ChildId, Option<ActorId>>, scope: seq<ChildId>, base: Standing, before: map<ChildId, ActorId>,
      running: map<ChildId, ActorId>, started: seq<Replacement>, known: set<ActorId>, issued: set<ActorId>, queue: seq<ChildId>)
    requires InProgress(previous, scope, base, before, running, started, known, issued, queue) && queue != []
    ensures queue[0] in scope && (queue[0] in running ==> !AllDown(scope, before))
    ensures var n := |scope| - |queue|; 0 <= n < |scope| && scope[..n] + [queue[0]] == scope[..n + 1]
  {
    assert scope[|started|] == queue[0];
  }

  lemma AllStarted(previous: map<ChildId, Option<ActorId>>, scope: seq<ChildId>, base: Standing, before: map<ChildId, ActorId>,
      running: map<ChildId, ActorId>, started: seq<Replacement>, known: set<ActorId>, issued: set<ActorId>)
    requires InProgress(previous, scope, base, before, running, started, known, issued, [])
    ensures Restarted(scope, base, before, running, started, known) && AllDown(scope, before)
  {
  }

  /** What asking the next child of a restart means for the plan. */
  lemma AskedForRestart(specs: seq<ChildSpec>, plan: RestartPlan, child: ChildId, asked: seq<ChildId>, scope: seq<ChildId>,
      base: Standing, running: map<ChildId, ActorId>)
    requires plan.activeShutdown == Some(child)
    requires RestartFits(specs, plan.(activeShutdown := None, shutdownQueue := [child] + plan.shutdownQueue), asked, scope, base, running)
    ensures RestartFits(specs, plan, asked + [child], scope, base, running)
    ensures CompleteShutdown(plan.(activeShutdown := None), child) == None
    ensures child in running && child in Ids(specs)
  {
    assert asked + [child] + plan.shutdownQueue == asked + ([child] + plan.shutdownQueue);
    AskedOnce(specs, asked, child, plan.shutdownQueue);
  }

  /** The plan of a restart of `ids` before anyone has been asked. */
  function FirstPlan(specs: seq<ChildSpec>, running: map<ChildId, ActorId>, ids: seq<ChildId>, failed: Option<(ChildId, ActorId)>): RestartPlan {
    var previous := map c | c in Elements(ids) :: if c in running then Some(running[c])
                                                  else if failed.Some? && failed.value.0 == c then Some(failed.value.1) else None;
    RestartPlan(None, RunningChildrenReverse(specs, running, ids), ids, previous)
  }

  lemma PlanStart(specs: seq<ChildSpec>, running: map<ChildId, ActorId>, ids: seq<ChildId>, failed: Option<(ChildId, ActorId)>)
    ensures var plan := FirstPlan(specs, running, ids, failed);
      plan.activeShutdown == None && plan.restartQueue == ids && plan.shutdownQueue == RunningChildrenReverse(specs, running, ids)
  {
  }

  /** Everyone in scope who is running is to be asked, in reverse declared order. */
  lemma RestartBegins(specs: seq<ChildSpec>, running: map<ChildId, ActorId>, byActor: map<ActorId, ChildId>, issued: set<ActorId>,
      requested: seq<ChildId>, failed: Option<(ChildId, ActorId)>)
    requires Tidy(specs, running, byActor, issued)
    ensures var ids := OrderedChildIds(specs, requested);
      var plan := FirstPlan(specs, running, ids, failed);
      RestartFits(specs, plan, [], ids, Standing(running, failed), running) && RestartCovers(running, ids, plan)
  {
    hide Descending, Ascending, Declared, Backward, Inverse, Ids;
    var ids := OrderedChildIds(specs, requested);
    var plan := FirstPlan(specs, running, ids, failed);
    DeclaredAscends(specs, Elements(requested));
    BackwardDescends(specs, Elements(ids) * running.Keys);
    assert [] + plan.shutdownQueue == plan.shutdownQueue;
    assert forall c :: c in ids <==> c in Elements(ids);
    forall i | 0 <= i < |plan.shutdownQueue| ensures plan.shutdownQueue[i] in ids {
      assert plan.shutdownQueue[i] in plan.shutdownQueue;
    }
  }

  /** Whether the account is kept does not depend on whether the next child has been asked yet. */
  lemma NextCovers(running: map<ChildId, ActorId>, scope: seq<ChildId>, plan: RestartPlan)
    requires plan.activeShutdown == None
    ensures RestartCovers(running, scope, NextShutdown(plan)) <==> RestartCovers(running, scope, plan)
    ensures plan.shutdownQueue == [] ==> (RestartCovers(running, scope, plan) <==> AllDown(scope, running))
  {
    var next, queue := NextShutdown(plan), plan.shutdownQueue;
    assert queue != [] ==> queue == [queue[0]] + queue[1..];
    assert forall c :: c in queue <==> next.activeShutdown == Some(c) || c in next.shutdownQueue;
  }

  lemma RunningIsTrackedBy(specs: seq<ChildSpec>, running: map<ChildId, ActorId>, byActor: map<ActorId, ChildId>, issued: set<ActorId>, a: ActorId)
    requires Tidy(specs, running, byActor, issued) && a in byActor
    ensures byActor[a] in running && running[byActor[a]] == a
  {
  }

  lemma CompletedActive(plan: ShutdownPlan, child: ChildId)
    requires plan.activeChild == Some(child)
    ensures CompleteChild(plan, child).shutdownQueue == plan.shutdownQueue
  {
  }

  /** Exactly the declared children are running, each under its own id. */
  ghost predicate AllStartedSoFar(specs: seq<ChildSpec>, running: map<ChildId, ActorId>, byActor: map<ActorId, ChildId>, issued: set<ActorId>) {
    Tidy(specs, running, byActor, issued) && running.Keys == Ids(specs)
  }

  lemma NothingRuns(specs: seq<ChildSpec>, running: map<ChildId, ActorId>, byActor: map<ActorId, ChildId>, issued: set<ActorId>)
    requires specs == [] && running == map[] && byActor == map[]
    ensures AllStartedSoFar(specs, running, byActor, issued)
  {
  }

  lemma EveryoneRuns(specs: seq<ChildSpec>, running: map<ChildId, ActorId>, byActor: map<ActorId, ChildId>, issued: set<ActorId>)
    requires AllStartedSoFar(specs, running, byActor, issued)
    ensures Tidy(specs, running, byActor, issued) && running.Keys == Ids(specs)
  {
  }

  lemma OneMoreStarted(specs: seq<ChildSpec>, spec: ChildSpec, running: map<ChildId, ActorId>, byActor: map<ActorId, ChildId>,
      issued: set<ActorId>, later: set<ActorId>, actor: ActorId)
    requires AllStartedSoFar(specs, running, byActor, issued) && spec.id !in running
    requires issued + {actor} <= later && actor !in issued
    ensures AllStartedSoFar(specs + [spec], running[spec.id := actor], byActor[actor := spec.id], later)
  {
    var more := specs + [spec];
    assert forall i :: 0 <= i < |specs| ==> more[i] == specs[i];
    assert more[|specs|] == spec;
    assert Ids(more) == Ids(specs) + {spec.id};
    assert forall i :: 0 <= i < |specs| ==> specs[i].id in Ids(specs);
    assert Distinct(more);
  }

  lemma ActiveIsRunning(turn: Turn, action: Option<Action>, specs: seq<ChildSpec>, asked: seq<ChildId>, running: map<ChildId, ActorId>)
    requires turn == Continue && ShuttingDown(turn, action, specs, asked, running) && Controlled(turn, action, running)
    ensures action.value.shutdown.activeChild.Some? && action.value.shutdown.activeChild.value in running
  {
  }
}
