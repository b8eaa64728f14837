/** The concurrent runtime's shared state: one method per lock section, and the finalizer that runs among them. */
module ConcurrentRuntimes {
  import opened Types
  import opened ExitSignals
  import opened ConcurrentRelations
  import opened ConcurrentNotices

  datatype LinkResult = Done | NoProcess(actor: ActorId) | AlreadyLinked | NotLinked

  /** A section of some task other than the finalizer of `a`. */
  predicate ByAnother(step: Section, a: ActorId) {
    match step
    case DoTakeBack(x, _) => x != a
    case DoForgetWatcher(x, _) => x != a
    case DoSendDown(x, _) => x != a
    case DoForceOverflow(x) => x != a
    case DoDropLink(x, _) => x != a
    case DoReadTrap(x) => x != a
    case DoAct(x, _) => x != a
    case DoEndTask(x) => x != a
    case _ => true
  }

  /** The removed record's watchers and links are being dealt with. */
  ghost predicate Captures(s: Shared, a: ActorId, e: Record) {
    && Sound(s) && a !in s.records && a in s.completed
    && (forall r: Ref :: r in e.monitorsIn && e.monitorsIn[r] != a ==> Due(s, r, a, e.monitorsIn[r], s.completed[a].reason))
    && (forall p :: p in e.links && p != a ==> (a, p) in s.history.owed)
  }

  ghost predicate Midway(s: Shared, a: ActorId, e: Record, f: Finalizer) {
    Captures(s, a, e) && a in s.finalizers && s.finalizers[a] == f
  }

  lemma ApplyKeepsCaptures(s: Shared, step: Section, a: ActorId, e: Record)
    requires Captures(s, a, e) && a in s.issued
    ensures Captures(Apply(s, step), a, e) && a in Apply(s, step).issued
  {
    ApplyNeverRevives(s, step, a);
    hide RefFits, Pairs, Downs, Signals, Ends, Due, Apply, Base;
    ApplyKeepsSound(s, step);
    ApplyKeepsOwed(s, step);
    ApplyKeepsCompleted(s, step, a);
    forall r: Ref | r in e.monitorsIn && e.monitorsIn[r] != a ensures Due(Apply(s, step), r, a, e.monitorsIn[r], s.completed[a].reason) {
      assert RefFits(s, r);
      ApplyKeepsDue(s, step, r, a, e.monitorsIn[r], s.completed[a].reason);
    }
  }

  lemma ApplyNeverRevives(s: Shared, step: Section, a: ActorId)
    requires a in s.issued && a !in s.records
    ensures a in Apply(s, step).issued && a !in Apply(s, step).records
  {
    if !step.DoSpawn? && !step.DoRemove? {
      hide Apply;
      ApplyKeepsTable(s, step);
    }
  }

  lemma AnotherLeavesFinalizer(s: Shared, step: Section, a: ActorId)
    requires a in s.finalizers && a !in s.records && ByAnother(step, a)
    ensures a in Apply(s, step).finalizers && Apply(s, step).finalizers[a] == s.finalizers[a]
  {
    hide TakeBack, ForgetWatcher, SendDown, ForceOverflow, DropLink, ReadTrap, Act, EndTask;
    match step
    case DoTakeBack(x, r) => TellingLeavesFinalizer(s, x, r, true, a);
    case DoForgetWatcher(x, r) => TellingLeavesFinalizer(s, x, r, true, a);
    case DoSendDown(x, room) => TellingLeavesFinalizer(s, x, 0, room, a);
    case DoForceOverflow(x) => TellingLeavesFinalizer(s, x, 0, true, a);
    case DoDropLink(x, p) => SignallingLeavesFinalizer(s, x, p, true, a);
    case DoReadTrap(x) => SignallingLeavesFinalizer(s, x, x, true, a);
    case DoAct(x, room) => SignallingLeavesFinalizer(s, x, x, room, a);
    case DoEndTask(x) => SignallingLeavesFinalizer(s, x, x, true, a);
    case _ =>
  }

  ghost predicate SameFinalizer(s: Shared, v: Shared, a: ActorId) {
    a in s.finalizers && a in v.finalizers && v.finalizers[a] == s.finalizers[a]
  }

  lemma TellingLeavesFinalizer(s: Shared, x: ActorId, r: Ref, room: bool, a: ActorId)
    requires a in s.finalizers && x != a
    ensures SameFinalizer(s, TakeBack(s, x, r), a) && SameFinalizer(s, ForgetWatcher(s, x, r), a)
    ensures SameFinalizer(s, SendDown(s, x, room), a) && SameFinalizer(s, ForceOverflow(s, x), a)
  {
  }

  lemma SignallingLeavesFinalizer(s: Shared, x: ActorId, p: ActorId, room: bool, a: ActorId)
    requires a in s.finalizers && x != a
    ensures SameFinalizer(s, DropLink(s, x, p), a) && SameFinalizer(s, ReadTrap(s, x), a)
    ensures SameFinalizer(s, Act(s, x, room), a) && SameFinalizer(s, EndTask(s, x), a)
  {
  }

  lemma {:induction false} OthersLeaveMidway(s: Shared, steps: seq<Section>, a: ActorId, e: Record, f: Finalizer)
    requires Midway(s, a, e, f) && forall i :: 0 <= i < |steps| ==> ByAnother(steps[i], a)
    ensures Midway(Run(s, steps), a, e, f)
    decreases |steps|
  {
    hide Sound, Apply, Due;
    if steps != [] {
      FinalizerIsIssued(s, a);
      ApplyKeepsCaptures(s, steps[0], a, e);
      AnotherLeavesFinalizer(s, steps[0], a);
      OthersLeaveMidway(Apply(s, steps[0]), steps[1..], a, e, f);
    }
  }

  lemma FinalizerIsIssued(s: Shared, a: ActorId)
    requires Sound(s) && a in s.finalizers
    ensures a in s.issued && a !in s.records
  {
  }

  /** The finalizer's own section. */
  lemma OwnSection(s: Shared, step: Section, a: ActorId, e: Record, f: Finalizer, g: Finalizer)
    requires Midway(s, a, e, f) && a in Apply(s, step).finalizers && Apply(s, step).finalizers[a] == g
    ensures Midway(Apply(s, step), a, e, g)
  {
    hide Sound, Apply, Due;
    FinalizerIsIssued(s, a);
    ApplyKeepsCaptures(s, step, a, e);
  }

  /** Everyone `a` knew at the removal of its record `e` has been dealt with. */
  ghost predicate AllDealtWith(s: Shared, a: ActorId, e: Record, end: End) {
    && (forall r: Ref :: r in e.monitorsIn && e.monitorsIn[r] != a ==>
          OneDownAtMost(s, r, e.monitorsIn[r], Down(r, a, end.reason)) && Notified(s, e.monitorsIn[r], Down(r, a, end.reason), "down"))
    && (forall p :: p in e.links && p != a ==> OneExitAtMost(s, a, p, LinkReason(end)) && SignalSettled(s, a, p, LinkReason(end)))
  }

  /** With its finalizer gone, every captured reference and link has been dealt with once. */
  lemma CapturesAreSettled(s: Shared, a: ActorId, e: Record)
    requires Captures(s, a, e) && a !in s.finalizers
    ensures AllDealtWith(s, a, e, s.completed[a])
  {
    hide Sound, Due, OneDownAtMost, Notified, OneExitAtMost, SignalSettled;
    forall r: Ref | r in e.monitorsIn && e.monitorsIn[r] != a
      ensures OneDownAtMost(s, r, e.monitorsIn[r], Down(r, a, s.completed[a].reason))
      ensures Notified(s, e.monitorsIn[r], Down(r, a, s.completed[a].reason), "down")
    {
      DueIsTold(s, r, a, e.monitorsIn[r], s.completed[a].reason);
    }
    forall p | p in e.links && p != a
      ensures OneExitAtMost(s, a, p, LinkReason(s.completed[a])) && SignalSettled(s, a, p, LinkReason(s.completed[a]))
    {
      OwedIsSignalled(s, a, p);
    }
  }

  /** How a watcher was found when it was to be told: the state then, and whether there was room. */
  datatype Telling = Telling(reference: Ref, found: Shared, room: bool)

  /** The watcher got the message exactly if it was there and had room. */
  ghost predicate ToldAsFound(s: Shared, a: ActorId, reason: ExitReason, watchers: map<Ref, ActorId>, t: Telling) {
    t.reference in watchers && t.reference in s.history.watches
    && var w := watchers[t.reference];
    s.history.watches[t.reference]
      == Watch(a, w, Answered(reason, if w !in t.found.records then Absent else if t.room then Received else Overflowed))
  }

  /** Each of the references has been told once, as its watcher was found. */
  ghost predicate ToldAll(s: Shared, a: ActorId, reason: ExitReason, watchers: map<Ref, ActorId>, told: seq<Telling>) {
    && (forall i :: 0 <= i < |told| ==> ToldAsFound(s, a, reason, watchers, told[i]))
    && (forall i, j :: 0 <= i < j < |told| ==> told[i].reference != told[j].reference)
  }

  /** How a linked actor was found: the state in which its trap flag was read, and the one in which that was acted on. */
  datatype Propagation = Propagation(peer: ActorId, found: Shared, mid: Shared, room: bool)

  function OutcomeFor(a: ActorId, reason: ExitReason, g: Propagation): Outcome {
    if g.peer !in g.found.records then Absent
    else
      match ClassifyExitSignal(g.found.records[g.peer].trapExit, ExitSignal(a, reason, true))
      case Ignore => Ignored
      case KillNow => if g.peer in g.mid.records then Killed else Absent
      case Enqueue => if g.peer !in g.mid.records then Absent else if g.room then Received else Overflowed
  }

  ghost predicate SignalledAsFound(s: Shared, a: ActorId, reason: ExitReason, g: Propagation) {
    (a, g.peer) in s.history.signals && s.history.signals[(a, g.peer)] == OutcomeFor(a, reason, g)
  }

  ghost predicate SignalledAll(s: Shared, a: ActorId, reason: ExitReason, signalled: seq<Propagation>) {
    forall i :: 0 <= i < |signalled| ==> SignalledAsFound(s, a, reason, signalled[i])
  }

  lemma ToldPersists(s: Shared, v: Shared, a: ActorId, reason: ExitReason, watchers: map<Ref, ActorId>, told: seq<Telling>)
    requires ToldAll(s, a, reason, watchers, told) && Persists(s, v)
    ensures ToldAll(v, a, reason, watchers, told)
  {
    forall i | 0 <= i < |told| ensures ToldAsFound(v, a, reason, watchers, told[i]) {
      assert ToldAsFound(s, a, reason, watchers, told[i]);
      assert HasAnswer(s, told[i].reference);
      assert StillAnswered(s, v, told[i].reference);
    }
  }

  lemma SignalledPersists(s: Shared, v: Shared, a: ActorId, reason: ExitReason, signalled: seq<Propagation>)
    requires SignalledAll(s, a, reason, signalled) && Persists(s, v)
    ensures SignalledAll(v, a, reason, signalled)
  {
    hide OutcomeFor;
    forall i | 0 <= i < |signalled| ensures SignalledAsFound(v, a, reason, signalled[i]) {
      assert SignalledAsFound(s, a, reason, signalled[i]);
      assert StillSignalled(s, v, a, signalled[i].peer);
    }
  }

  class RuntimeShared {
    var records: map<ActorId, Record>
    var finalizers: map<ActorId, Finalizer>
    var completed: map<ActorId, End>
    var issued: set<ActorId>
    var nextRef: Ref
    var history: History

    function W(): Shared
      reads this
    {
      Shared(records, finalizers, completed, issued, nextRef, history)
    }

    constructor ()
      ensures W() == NOBODY && Sound(W())
    {
      records, finalizers, completed, issued, nextRef := map[], map[], map[], {}, 1;
      history := History(map[], multiset{}, {}, {}, map[], {});
      new;
      NobodyWasTold();
    }

    // ---------------------------------------------------------------- a running actor

    method LinkInner(me: ActorId, other: ActorId) returns (result: LinkResult)
      modifies `records, `history
      ensures W() == Link(old(W()), me, other)
      ensures result == Done && me != other ==>
        && me in records && other in records[me].links && other !in old(records)[me].links
        && other in records && me in records[other].links
      ensures result != Done ==> W() == old(W())
    {
      if other == me { return Done; }
      if me !in records { return NoProcess(me); }
      if other !in records { return NoProcess(other); }
      if other in records[me].links { return AlreadyLinked; }
      records := records[me := records[me].(links := records[me].links + {other})];
      records := records[other := records[other].(links := records[other].links + {me})];
      history := history.(orphans := history.orphans - {(other, me)});
      return Done;
    }

    method UnlinkInner(me: ActorId, other: ActorId) returns (result: LinkResult)
      modifies `records, `history
      ensures W() == Unlink(old(W()), me, other)
      ensures result == Done && me != other ==>
        && me in records && other !in records[me].links && other in old(records)[me].links
        && other in records && me !in records[other].links
      ensures result != Done ==> W() == old(W())
    {
      if other == me { return Done; }
      if me !in records { return NoProcess(me); }
      if other !in records { return NoProcess(other); }
      if other !in records[me].links { return NotLinked; }
      records := records[me := records[me].(links := records[me].links - {other})];
      records := records[other := records[other].(links := records[other].links - {me})];
      history := history.(orphans := history.orphans - {(me, other)});
      return Done;
    }

    /** Monitoring an actor that is gone is answered at once, if there is `room` for that; nothing is recorded then. */
    method MonitorInner(me: ActorId, other: ActorId, room: bool) returns (reference: Ref)
      modifies `records, `nextRef, `history
      ensures reference == old(nextRef) && W() == Monitor(old(W()), me, other, room)
      ensures me in old(records) && other in old(records) ==>
        && reference in records[me].monitorsOut && records[me].monitorsOut[reference] == other
        && reference in records[other].monitorsIn && records[other].monitorsIn[reference] == me
      ensures me in old(records) && other !in old(records) ==>
        && records == old(records)
        && history.delivered == old(history.delivered) + (if room then multiset{(me, Down(reference, other, NoProc))} else multiset{})
    {
      reference := nextRef;
      nextRef := nextRef + 1;
      if me !in records {
        history := history.(watches := history.watches[reference := Watch(other, me, Dropped)]);
        return;
      }
      if other !in records {
        if room {
          history := history.(delivered := history.delivered + multiset{(me, Down(reference, other, NoProc))});
        } else {
          history := history.(doomed := history.doomed + {(me, Error(MailboxOverflow(me, "down")))});
        }
        history := history.(watches := history.watches[reference := Watch(other, me, Answered(NoProc, if room then Received else Overflowed))]);
        return;
      }
      records := records[me := records[me].(monitorsOut := records[me].monitorsOut[reference := other])];
      records := records[other := records[other].(monitorsIn := records[other].monitorsIn[reference := me])];
      history := history.(watches := history.watches[reference := Watch(other, me, Active)]);
    }

    method DemonitorInner(me: ActorId, reference: Ref) returns (found: bool)
      modifies `records, `history
      ensures W() == Demonitor(old(W()), me, reference)
      ensures found <==> me in old(records) && reference in old(records)[me].monitorsOut
      ensures me in records ==> reference !in records[me].monitorsOut
      ensures found ==> var target := old(records)[me].monitorsOut[reference]; target in records ==> reference !in records[target].monitorsIn
    {
      if me !in records || reference !in records[me].monitorsOut {
        return false;
      }
      var target := records[me].monitorsOut[reference];
      records := records[me := records[me].(monitorsOut := records[me].monitorsOut - {reference})];
      if target in records && reference in records[target].monitorsIn {
        var watcher := records[target].monitorsIn[reference];
        records := records[target := records[target].(monitorsIn := records[target].monitorsIn - {reference})];
        history := history.(watches := history.watches[reference := Watch(target, watcher, Dropped)]);
      }
      return true;
    }

    method TrapExits(me: ActorId, enabled: bool)
      modifies `records
      ensures W() == SetTrapExit(old(W()), me, enabled)
      ensures me in old(records) ==> me in records && records[me] == old(records)[me].(trapExit := enabled)
      ensures forall p :: p in old(records) && p != me ==> p in records && records[p] == old(records)[p]
    {
      if me in records {
        records := records[me := records[me].(trapExit := enabled)];
      }
    }

    /**
     * A record under an id handed out in the same lock section. One that is not admitted, for capacity
     * or for its name, leaves nothing but the used-up id.
     */
    method InsertActorRecord(id: ActorId, parent: Option<ActorId>, linkToParent: bool, trapExit: bool, admitted: bool)
      requires id !in issued
      modifies `records, `issued, `history
      ensures W() == if admitted then Spawn(old(W()), id, parent, linkToParent, trapExit) else Refuse(old(W()), id)
    {
      issued := issued + {id};
      if !admitted {
        return;
      }
      if !linkToParent || parent == None {
        records := records[id := Record({}, map[], map[], trapExit, None)];
        return;
      }
      var p := parent.value;
      records := records[id := Record({p}, map[], map[], trapExit, None)];
      if p !in records {
        history := history.(orphans := history.orphans + {(id, p)});
      } else if p != id {
        records := records[p := records[p].(links := records[p].links + {id})];
        history := history.(orphans := history.orphans - {(p, id)});
      }
    }

    // ---------------------------------------------------------------- a finalizer among other tasks

    method Become(s: Shared)
      modifies this
      ensures W() == s
    {
      records, finalizers, completed, issued, nextRef, history := s.records, s.finalizers, s.completed, s.issued, s.nextRef, s.history;
    }

    /** Between two of the finalizer's lock sections any sections of other tasks may run, in any order. */
    method Interfere(a: ActorId, ghost e: Record, ghost f: Finalizer)
      requires Midway(W(), a, e, f)
      modifies this
      ensures Midway(W(), a, e, f) && Persists(old(W()), W())
    {
      hide Midway, Run, Persists;
      var steps: seq<Section> := *;
      PersistsItself(W());
      if forall i :: 0 <= i < |steps| ==> ByAnother(steps[i], a) {
        OthersLeaveMidway(W(), steps, a, e, f);
        MidwayIsSound(W(), a, e, f);
        RunPersists(W(), steps);
        Become(Run(W(), steps));
      }
    }

    /** One section of the finalizer itself. */
    method Perform(step: Section, a: ActorId, ghost e: Record, ghost f: Finalizer, ghost g: Finalizer)
      requires Midway(W(), a, e, f)
      requires a in Apply(W(), step).finalizers && Apply(W(), step).finalizers[a] == g
      modifies this
      ensures W() == Apply(old(W()), step) && Midway(W(), a, e, g) && Persists(old(W()), W())
    {
      hide Midway, Apply, Persists;
      MidwayIsSound(W(), a, e, f);
      ApplyPersists(W(), step);
      OwnSection(W(), step, a, e, f, g);
      Become(Apply(W(), step));
    }

    /**
     * Removes the record under one lock and then deals with its monitors, watchers and links one by
     * one, a lock section at a time, while everyone else goes on. In the end each watcher's reference
     * and each link that was held at the removal has been dealt with exactly once, as it was found.
     */
    method FinalizeActor(a: ActorId, reason: ExitReason, requested: bool) returns (ghost told: seq<Telling>, ghost signalled: seq<Propagation>)
      requires Sound(W())
      modifies this
      ensures Sound(W())
      ensures a !in old(records) ==> W() == old(W())
      ensures a in old(records) ==>
        && a !in records && a !in finalizers && a in completed && completed[a] == End(reason, requested)
        && AllDealtWith(W(), a, old(records[a]), End(reason, requested))
      ensures a in old(records) ==>
        var watchers, links := Others(old(records[a]).monitorsIn, a), old(records[a]).links - {a};
        && ToldAll(W(), a, reason, watchers, told) && (forall r :: r in watchers ==> exists i :: 0 <= i < |told| && told[i].reference == r)
        && SignalledAll(W(), a, ShutdownLinkReason(requested, reason), signalled)
        && (forall p :: p in links ==> exists i :: 0 <= i < |signalled| && signalled[i].peer == p)
    {
      hide Midway, Captures, Sound, Apply, Persists, ToldAll, SignalledAll, AllDealtWith;
      told, signalled := [], [];
      if a !in records {
        return;
      }
      var e := records[a];
      var monitoring, monitoredBy, linked := Others(e.monitorsOut, a), Others(e.monitorsIn, a), e.links - {a};
      ghost var f := Finalizer(monitoring, monitoredBy, None, linked, None, reason, ShutdownLinkReason(requested, reason), None);
      RemovalIsMidway(W(), a, reason, requested, f);
      Become(Remove(W(), a, reason, requested));
      ghost var removed := W();
      Interfere(a, e, f);
      ghost var w1 := W();
      TakeBackMonitors(a, e, f, monitoring);
      ghost var w2 := W();
      f := f.(outgoing := map[]);
      told := TellWatchers(a, e, f, monitoredBy);
      ghost var w3 := W();
      f := f.(incoming := map[]);
      signalled := SignalLinks(a, e, f, linked);
      ghost var w4 := W();
      f := f.(links := {});
      EndIsSettled(W(), a, e, f);
      Become(EndTask(W(), a));
      PersistsTransitive(removed, w1, w2);
      PersistsTransitive(removed, w2, w3);
      PersistsTransitive(removed, w3, w4);
      PersistsTransitive(removed, w4, W());
      CompletedPersists(removed, W(), a);
      PersistsTransitive(w3, w4, W());
      ToldPersists(w3, W(), a, reason, monitoredBy, told);
      SignalledPersists(w4, W(), a, ShutdownLinkReason(requested, reason), signalled);
    }

    method TakeBackMonitors(a: ActorId, ghost e: Record, ghost f: Finalizer, monitoring: map<Ref, ActorId>)
      requires Midway(W(), a, e, f) && f.outgoing == monitoring
      modifies this
      ensures Midway(W(), a, e, f.(outgoing := map[])) && Persists(old(W()), W())
    {
      hide Midway, TakeBack, Persists;
      var rest := monitoring;
      PersistsItself(W());
      while rest != map[]
        invariant Midway(W(), a, e, f.(outgoing := rest)) && Persists(old(W()), W())
        decreases rest.Keys
      {
        var r :| r in rest;
        ghost var now, w0 := f.(outgoing := rest), W();
        rest := rest - {r};
        TakenBack(W(), a, e, now, r);
        Perform(DoTakeBack(a, r), a, e, now, f.(outgoing := rest));
        ghost var w1 := W();
        Interfere(a, e, f.(outgoing := rest));
        PersistsTransitive(w0, w1, W());
        PersistsTransitive(old(W()), w0, W());
      }
      assert f.(outgoing := rest) == f.(outgoing := map[]);
    }

    /** Every watcher forgets its reference and is told, one after the other. */
    method TellWatchers(a: ActorId, ghost e: Record, ghost f: Finalizer, monitoredBy: map<Ref, ActorId>) returns (ghost told: seq<Telling>)
      requires Midway(W(), a, e, f) && f.outgoing == map[] && f.incoming == monitoredBy && f.down == None && f.overflow == None
      modifies this
      ensures Midway(W(), a, e, f.(incoming := map[])) && Persists(old(W()), W())
      ensures ToldAll(W(), a, f.reason, monitoredBy, told)
      ensures forall r :: r in monitoredBy ==> exists i :: 0 <= i < |told| && told[i].reference == r
    {
      hide Midway, Persists, ToldAll;
      var rest := monitoredBy;
      told := [];
      PersistsItself(W());
      NobodyTold(W(), a, f.reason, monitoredBy);
      while rest != map[]
        invariant Midway(W(), a, e, f.(incoming := rest)) && Persists(old(W()), W())
        invariant ToldAll(W(), a, f.reason, monitoredBy, told)
        invariant forall r :: r in rest ==> r in monitoredBy && rest[r] == monitoredBy[r]
        invariant forall i :: 0 <= i < |told| ==> told[i].reference !in rest
        invariant forall r :: r in monitoredBy && r !in rest ==> exists i :: 0 <= i < |told| && told[i].reference == r
        decreases rest.Keys
      {
        var r :| r in rest;
        ghost var before, w0, told0 := rest, W(), told;
        rest := rest - {r};
        ghost var t := TellWatcher(a, e, f.(incoming := before), r);
        assert f.(incoming := before).(incoming := before - {r}) == f.(incoming := rest);
        PersistsTransitive(old(W()), w0, W());
        ToldPersists(w0, W(), a, f.reason, monitoredBy, told);
        OneMoreTold(W(), a, f.reason, monitoredBy, told, t);
        told := told + [t];
        assert told[|told0|].reference == r;
        forall q | q in monitoredBy && q !in rest ensures exists i :: 0 <= i < |told| && told[i].reference == q {
          if q != r {
            var i :| 0 <= i < |told0| && told0[i].reference == q;
            assert told[i].reference == q;
          }
        }
      }
      assert f.(incoming := rest) == f.(incoming := map[]);
    }

    /** One watcher: it forgets the reference under one lock and is told under a later one. */
    method TellWatcher(a: ActorId, ghost e: Record, ghost f: Finalizer, r: Ref) returns (ghost t: Telling)
      requires Midway(W(), a, e, f) && f.outgoing == map[] && r in f.incoming && f.down == None && f.overflow == None
      modifies this
      ensures Midway(W(), a, e, f.(incoming := f.incoming - {r})) && Persists(old(W()), W())
      ensures t.reference == r && ToldAsFound(W(), a, f.reason, f.incoming, t)
    {
      hide Midway, ForgetWatcher, SendDown, ForceOverflow, Persists, ToldAsFound;
      ghost var w0 := W();
      ghost var half := f.(incoming := f.incoming - {r}, down := Some((r, f.incoming[r])));
      Forgotten(W(), a, e, f, r);
      Perform(DoForgetWatcher(a, r), a, e, f, half);
      ghost var w1 := W();
      Interfere(a, e, half);
      ghost var w2 := W();
      var room := *;
      HasTold(W(), a, e, half, room);
      ghost var done := SendDown(W(), a, room).finalizers[a];
      Perform(DoSendDown(a, room), a, e, half, done);
      t := Telling(r, w2, room);
      FoundAndTold(w2, a, e, half, f.incoming, t);
      ghost var w3 := W();
      ghost var late := HandleOverflow(a, e, done);
      ghost var w4 := W();
      Interfere(a, e, f.(incoming := f.incoming - {r}));
      PersistsTransitive(w3, w4, W());
      StillTold(w3, W(), a, f.reason, f.incoming, t);
      PersistsTransitive(w0, w1, w2);
      PersistsTransitive(w0, w2, w3);
      PersistsTransitive(w0, w3, W());
    }

    /** Every link is dropped and its exit signalled, one after the other. */
    method SignalLinks(a: ActorId, ghost e: Record, ghost f: Finalizer, linked: set<ActorId>) returns (ghost signalled: seq<Propagation>)
      requires Midway(W(), a, e, f) && f.outgoing == map[] && f.incoming == map[] && f.down == None
      requires f.links == linked && f.peer == None && f.overflow == None
      modifies this
      ensures Midway(W(), a, e, f.(links := {})) && Persists(old(W()), W())
      ensures SignalledAll(W(), a, f.linkReason, signalled)
      ensures forall p :: p in linked ==> exists i :: 0 <= i < |signalled| && signalled[i].peer == p
    {
      hide Midway, DropLink, Persists, SignalledAll, SignalledAsFound;
      var rest := linked;
      signalled := [];
      PersistsItself(W());
      NobodySignalled(W(), a, f.linkReason);
      while rest != {}
        invariant Midway(W(), a, e, f.(links := rest)) && Persists(old(W()), W()) && rest <= linked
        invariant SignalledAll(W(), a, f.linkReason, signalled)
        invariant forall p :: p in linked && p !in rest ==> exists i :: 0 <= i < |signalled| && signalled[i].peer == p
        decreases rest
      {
        var p :| p in rest;
        ghost var now, w0, signalled0 := f.(links := rest), W(), signalled;
        rest := rest - {p};
        ghost var half := f.(links := rest, peer := Some(Peer(p, None)));
        LinkDropped(W(), a, e, now, p);
        Perform(DoDropLink(a, p), a, e, now, half);
        ghost var w1 := W();
        Interfere(a, e, half);
        ghost var w2 := W();
        ghost var g, late := PropagateLinkExit(a, e, half, p);
        ghost var w3 := W();
        Interfere(a, e, f.(links := rest));
        PersistsTransitive(w0, w1, w2);
        PersistsTransitive(w0, w2, w3);
        SignalledPersists(w0, w3, a, f.linkReason, signalled);
        OneMoreSignalled(w3, a, f.linkReason, signalled, g);
        signalled := signalled + [g];
        SignalledPersists(w3, W(), a, f.linkReason, signalled);
        PersistsTransitive(w0, w3, W());
        PersistsTransitive(old(W()), w0, W());
        assert signalled[|signalled0|].peer == p;
        forall q | q in linked && q !in rest ensures exists i :: 0 <= i < |signalled| && signalled[i].peer == q {
          if q != p {
            var i :| 0 <= i < |signalled0| && signalled0[i].peer == q;
            assert signalled[i].peer == q;
          }
        }
      }
      assert f.(links := rest) == f.(links := {});
    }

    /**
     * The trap flag is read under one lock, and in a later state what it decided is done under another:
     * a peer that is to die is forced to, one that is to be told gets the notice or, in a still later
     * state, is forced to end for want of room. In the end the captured link has been signalled once.
     */
    method PropagateLinkExit(a: ActorId, ghost e: Record, ghost f: Finalizer, p: ActorId)
      returns (ghost g: Propagation, ghost late: Option<Shared>)
      requires Midway(W(), a, e, f) && f.peer == Some(Peer(p, None)) && f.overflow == None
      modifies this
      ensures Midway(W(), a, e, f.(peer := None)) && Persists(old(W()), W())
      ensures (a, p) !in old(history.signals) && SignalledAsFound(W(), a, f.linkReason, g)
      ensures g.peer == p && g.found == old(W())
      ensures p !in old(records) ==> W() == ReadTrap(old(W()), a)
      ensures p in old(records) ==> Midway(g.mid, a, e, Decided(a, f, p, old(records)[p].trapExit))
      ensures p in old(records) && late == None ==> W() == Act(g.mid, a, g.room)
      ensures late.Some? ==>
        && p in old(records) && p in g.mid.records && old(records)[p].trapExit && f.linkReason != Kill && !g.room
        && Midway(late.value, a, e, f.(peer := None, overflow := Some((p, "exit")))) && W() == ForceOverflow(late.value, a)
    {
      hide Midway, Act, ReadTrap, ForceOverflow, Persists, SignalledAsFound;
      ghost var w0 := W();
      late := None;
      OwedOnce(W(), a, e, f, p);
      TrapRead(W(), a, e, f, p);
      if p !in records {
        Perform(DoReadTrap(a), a, e, f, f.(peer := None));
        g := Propagation(p, w0, w0, true);
        NobodyToSignal(w0, a, e, f, p, g);
        return;
      }
      ghost var decided := Decided(a, f, p, records[p].trapExit);
      Perform(DoReadTrap(a), a, e, f, decided);
      ghost var w1 := W();
      Interfere(a, e, decided);
      ghost var mid := W();
      var room := *;
      Acted(W(), a, e, decided, room);
      ghost var done := Act(W(), a, room).finalizers[a];
      Perform(DoAct(a, room), a, e, decided, done);
      g := Propagation(p, w0, mid, room);
      FoundAndSignalled(w0, a, e, f, p, g);
      ghost var w3 := W();
      late := HandleOverflow(a, e, done);
      StillSignalledAsFound(w3, W(), a, f.linkReason, g);
      PersistsTransitive(w0, w1, mid);
      PersistsTransitive(w0, mid, w3);
      PersistsTransitive(w0, w3, W());
    }

    /** After a notice for which there was no room: the receiver is forced to end. */
    method HandleOverflow(a: ActorId, ghost e: Record, ghost f: Finalizer) returns (ghost late: Option<Shared>)
      requires Midway(W(), a, e, f)
      modifies this
      ensures Midway(W(), a, e, f.(overflow := None)) && Persists(old(W()), W())
      ensures f.overflow == None ==> late == None && W() == old(W())
      ensures f.overflow.Some? ==> late.Some? && Midway(late.value, a, e, f) && W() == ForceOverflow(late.value, a)
    {
      hide Midway, ForceOverflow, Persists;
      MidwayFinalizer(W(), a, e, f);
      PersistsItself(W());
      late := None;
      if finalizers[a].overflow.Some? {
        ghost var w0 := W();
        Interfere(a, e, f);
        late := Some(W());
        Forced(W(), a, e, f);
        Perform(DoForceOverflow(a), a, e, f, f.(overflow := None));
        PersistsTransitive(w0, late.value, W());
      }
    }
  }

  /** The trap flag has been read. */
  ghost function Decided(a: ActorId, f: Finalizer, p: ActorId, trapExit: bool): Finalizer {
    f.(peer := Some(Peer(p, Some(ClassifyExitSignal(trapExit, ExitSignal(a, f.linkReason, true))))))
  }

  lemma MidwayFinalizer(s: Shared, a: ActorId, e: Record, f: Finalizer)
    requires Midway(s, a, e, f)
    ensures a in s.finalizers && s.finalizers[a] == f
  {
  }

  lemma MidwayIsSound(s: Shared, a: ActorId, e: Record, f: Finalizer)
    requires Midway(s, a, e, f)
    ensures Sound(s)
  {
  }

  lemma CompletedPersists(s: Shared, v: Shared, a: ActorId)
    requires Persists(s, v) && a in s.completed
    ensures a in v.completed && v.completed[a] == s.completed[a]
  {
  }

  // ------------------------------------------------------------------ what has been told so far

  lemma NobodyTold(s: Shared, a: ActorId, reason: ExitReason, watchers: map<Ref, ActorId>)
    ensures ToldAll(s, a, reason, watchers, [])
  {
  }

  lemma OneMoreTold(s: Shared, a: ActorId, reason: ExitReason, watchers: map<Ref, ActorId>, told: seq<Telling>, t: Telling)
    requires ToldAll(s, a, reason, watchers, told) && ToldAsFound(s, a, reason, watchers, t)
    requires forall i :: 0 <= i < |told| ==> told[i].reference != t.reference
    ensures ToldAll(s, a, reason, watchers, told + [t])
  {
    hide ToldAsFound;
  }

  lemma StillTold(s: Shared, v: Shared, a: ActorId, reason: ExitReason, watchers: map<Ref, ActorId>, t: Telling)
    requires ToldAsFound(s, a, reason, watchers, t) && Persists(s, v)
    ensures ToldAsFound(v, a, reason, watchers, t)
  {
    assert HasAnswer(s, t.reference);
    assert StillAnswered(s, v, t.reference);
  }

  lemma FoundAndTold(s: Shared, a: ActorId, e: Record, f: Finalizer, watchers: map<Ref, ActorId>, t: Telling)
    requires Midway(s, a, e, f) && f.down.Some? && f.overflow == None && t.found == s && f.down.value.0 == t.reference
    requires t.reference in watchers && watchers[t.reference] == f.down.value.1
    ensures ToldAsFound(SendDown(s, a, t.room), a, f.reason, watchers, t)
  {
    hide Captures;
  }

  lemma NobodySignalled(s: Shared, a: ActorId, reason: ExitReason)
    ensures SignalledAll(s, a, reason, [])
  {
  }

  lemma OneMoreSignalled(s: Shared, a: ActorId, reason: ExitReason, signalled: seq<Propagation>, g: Propagation)
    requires SignalledAll(s, a, reason, signalled) && SignalledAsFound(s, a, reason, g)
    ensures SignalledAll(s, a, reason, signalled + [g])
  {
    hide SignalledAsFound;
  }

  lemma StillSignalledAsFound(s: Shared, v: Shared, a: ActorId, reason: ExitReason, g: Propagation)
    requires SignalledAsFound(s, a, reason, g) && Persists(s, v)
    ensures SignalledAsFound(v, a, reason, g)
  {
    hide OutcomeFor;
    assert StillSignalled(s, v, a, g.peer);
  }

  lemma NobodyToSignal(s: Shared, a: ActorId, e: Record, f: Finalizer, p: ActorId, g: Propagation)
    requires Midway(s, a, e, f) && f.peer == Some(Peer(p, None)) && f.overflow == None && p !in s.records && g.peer == p && g.found == s
    ensures SignalledAsFound(ReadTrap(s, a), a, f.linkReason, g)
  {
    hide Captures;
  }

  lemma FoundAndSignalled(s: Shared, a: ActorId, e: Record, f: Finalizer, p: ActorId, g: Propagation)
    requires p in s.records && f.overflow == None && g.peer == p && g.found == s
    requires Midway(g.mid, a, e, Decided(a, f, p, s.records[p].trapExit))
    ensures SignalledAsFound(Act(g.mid, a, g.room), a, f.linkReason, g)
  {
    hide Captures;
  }

  /** A dropped link is owed a signal it has not had. */
  lemma OwedOnce(s: Shared, a: ActorId, e: Record, f: Finalizer, p: ActorId)
    requires Midway(s, a, e, f) && HasPeer(f, p)
    ensures (a, p) !in s.history.signals
  {
    hide RefFits, Due, Told;
    assert PairFits(s, a, p);
  }

  // ------------------------------------------------------------------ what each of its sections does to the finalizer

  lemma RemovalIsMidway(s: Shared, a: ActorId, reason: ExitReason, requested: bool, f: Finalizer)
    requires Sound(s) && a in s.records
    requires f == Finalizer(Others(s.records[a].monitorsOut, a), Others(s.records[a].monitorsIn, a), None, s.records[a].links - {a}, None,
                            reason, ShutdownLinkReason(requested, reason), None)
    ensures Midway(Remove(s, a, reason, requested), a, s.records[a], f)
    ensures Remove(s, a, reason, requested).completed[a] == End(reason, requested)
  {
    hide Inv, Told, Due;
    RemoveKeepsInv(s, a, reason, requested);
    RemoveKeepsTold(s, a, reason, requested);
    RemoveCaptures(s, a, reason, requested);
  }

  lemma TakenBack(s: Shared, a: ActorId, e: Record, f: Finalizer, r: Ref)
    requires Midway(s, a, e, f) && r in f.outgoing
    ensures a in TakeBack(s, a, r).finalizers && TakeBack(s, a, r).finalizers[a] == f.(outgoing := f.outgoing - {r})
  {
  }

  lemma Forgotten(s: Shared, a: ActorId, e: Record, f: Finalizer, r: Ref)
    requires Midway(s, a, e, f) && r in f.incoming && f.outgoing == map[] && f.down == None && f.overflow == None
    ensures a in ForgetWatcher(s, a, r).finalizers
    ensures ForgetWatcher(s, a, r).finalizers[a] == f.(incoming := f.incoming - {r}, down := Some((r, f.incoming[r])))
  {
  }

  lemma HasTold(s: Shared, a: ActorId, e: Record, f: Finalizer, room: bool)
    requires Midway(s, a, e, f) && f.down.Some? && f.overflow == None
    ensures var v := SendDown(s, a, room);
      a in v.finalizers && v.finalizers[a] == f.(down := None, overflow := v.finalizers[a].overflow)
  {
  }

  lemma Forced(s: Shared, a: ActorId, e: Record, f: Finalizer)
    requires Midway(s, a, e, f) && f.overflow.Some?
    ensures a in ForceOverflow(s, a).finalizers && ForceOverflow(s, a).finalizers[a] == f.(overflow := None)
  {
  }

  lemma LinkDropped(s: Shared, a: ActorId, e: Record, f: Finalizer, p: ActorId)
    requires Midway(s, a, e, f) && p in f.links && f.outgoing == map[] && f.incoming == map[] && f.down == None && f.peer == None
    requires f.overflow == None
    ensures a in DropLink(s, a, p).finalizers
    ensures DropLink(s, a, p).finalizers[a] == f.(links := f.links - {p}, peer := Some(Peer(p, None)))
  {
  }

  lemma TrapRead(s: Shared, a: ActorId, e: Record, f: Finalizer, p: ActorId)
    requires Midway(s, a, e, f) && f.peer == Some(Peer(p, None)) && f.overflow == None
    ensures a in ReadTrap(s, a).finalizers
    ensures ReadTrap(s, a).finalizers[a] == if p !in s.records then f.(peer := None) else Decided(a, f, p, s.records[p].trapExit)
  {
  }

  /** Room matters only to an actor that is there and is to be told. */
  lemma Acted(s: Shared, a: ActorId, e: Record, f: Finalizer, room: bool)
    requires Midway(s, a, e, f) && f.peer.Some? && f.peer.value.disposition.Some? && f.overflow == None
    ensures var v := Act(s, a, room);
      && a in v.finalizers && v.finalizers[a] == f.(peer := None, overflow := v.finalizers[a].overflow)
      && (v.finalizers[a].overflow.Some? ==>
            !room && f.peer.value.actor in s.records && f.peer.value.disposition == Some(Enqueue)
            && v.finalizers[a].overflow == Some((f.peer.value.actor, "exit")))
  {
    assert a in s.finalizers && s.finalizers[a] == f;
    hide Midway, Put, Force, Doom;
    var p := f.peer.value.actor;
    match f.peer.value.disposition.value {
      case Ignore =>
      case KillNow => ForceLeavesFinalizers(Signalled(s, a, p, Killed), p, f.linkReason);
      case Enqueue =>
    }
  }

  lemma ForceLeavesFinalizers(s: Shared, p: ActorId, reason: ExitReason)
    ensures p in s.records ==> Force(s, p, reason).finalizers == s.finalizers
  {
  }

  lemma EndIsSettled(s: Shared, a: ActorId, e: Record, f: Finalizer)
    requires Midway(s, a, e, f) && f.outgoing == map[] && f.incoming == map[] && f.down == None && f.links == {} && f.peer == None
      && f.overflow == None
    ensures var v := EndTask(s, a);
      && Sound(v) && a !in v.records && a !in v.finalizers && Persists(s, v) && a in v.completed
      && AllDealtWith(v, a, e, v.completed[a])
  {
    hide Sound, Due, AllDealtWith, Persists;
    FinalizerIsIssued(s, a);
    ApplyKeepsCaptures(s, DoEndTask(a), a, e);
    ApplyPersists(s, DoEndTask(a));
    CapturesAreSettled(EndTask(s, a), a, e);
  }
}
