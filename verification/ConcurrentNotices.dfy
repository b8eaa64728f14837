/** What the watchers and links of an actor that ends receive, over any interleaving of lock sections. */
module ConcurrentNotices {
  import opened Types
  import opened ExitSignals
  import opened ConcurrentRelations

  // ------------------------------------------------------------------ what the notices are

  function LinkReason(e: End): ExitReason { ShutdownLinkReason(e.requested, e.reason) }

  function Overflow(p: ActorId, what: string): ExitReason { Error(MailboxOverflow(p, what)) }

  /** The receiver had no room: it is gone, was told to end for that, or is about to be by the finalizer of `x`. */
  ghost predicate Reckoned(s: Shared, x: ActorId, p: ActorId, what: string) {
    p in s.issued &&
    (|| p !in s.records
     || (p, Overflow(p, what)) in s.history.doomed
     || (x in s.finalizers && s.finalizers[x].overflow == Some((p, what))))
  }

  /** The one down message that reference `r` may have led to. */
  ghost predicate DownReceived(s: Shared, r: Ref, p: ActorId, e: Envelope) {
    r in s.history.watches
    && var w := s.history.watches[r];
    w.stage.Answered? && w.stage.outcome == Received && p == w.watcher && e == Down(r, w.target, w.stage.reason)
  }

  /** Each answered reference led to one down message, or its watcher was gone or had no room. */
  ghost predicate DownFits(s: Shared, r: Ref) {
    && (forall p: ActorId, e: Envelope :: e.Down? && e.reference == r ==> s.history.delivered[(p, e)] == Bit(DownReceived(s, r, p, e)))
    && (r in s.history.watches ==>
          var w := s.history.watches[r];
          && (w.stage.Active? || w.stage.Pending? || w.stage.Answered? ==> w.watcher in s.issued)
          && (w.stage.Answered? ==>
                match w.stage.outcome
                case Received => true
                case Absent => w.watcher !in s.records
                case Overflowed => Reckoned(s, w.target, w.watcher, "down")
                case _ => false))
  }

  /** What a signal that was passed on for `reason` may have come to. */
  ghost predicate SignalCameTo(s: Shared, x: ActorId, p: ActorId, reason: ExitReason, outcome: Outcome) {
    match outcome
    case Received => reason != Kill
    case Overflowed => reason != Kill && Reckoned(s, x, p, "exit")
    case Killed => reason != Normal && (p, reason) in s.history.doomed
    case Ignored => reason == Normal
    case Absent => true
  }

  ghost predicate ExitReceived(s: Shared, x: ActorId, p: ActorId, signal: ExitSignal) {
    && (x, p) in s.history.signals && s.history.signals[(x, p)] == Received && x in s.completed
    && signal == ExitSignal(x, LinkReason(s.completed[x]), true)
  }

  /** Each link signalled led to one exit message, one forced exit, or none where none is due. */
  ghost predicate SignalFits(s: Shared, x: ActorId, p: ActorId) {
    && (forall signal: ExitSignal :: signal.from == x ==> s.history.delivered[(p, Exit(signal))] == Bit(ExitReceived(s, x, p, signal)))
    && ((x, p) in s.history.signals ==>
          x in s.completed && SignalCameTo(s, x, p, LinkReason(s.completed[x]), s.history.signals[(x, p)]))
  }

  /** A finalizer passes on the reasons its actor ended with, and acts as the trap flag it read would have it. */
  ghost predicate FinalizerKnows(s: Shared, x: ActorId) {
    x in s.finalizers ==>
      && x in s.completed
      && s.finalizers[x].reason == s.completed[x].reason && s.finalizers[x].linkReason == LinkReason(s.completed[x])
      && Classified(x, s.finalizers[x])
  }

  /** What it is about to do is what one of the two trap flags calls for. */
  ghost predicate Classified(x: ActorId, f: Finalizer) {
    f.peer.Some? && f.peer.value.disposition.Some? ==>
      exists trapExit :: f.peer.value.disposition.value == ClassifyExitSignal(trapExit, ExitSignal(x, f.linkReason, true))
  }

  ghost predicate Ends(s: Shared) {
    && s.completed.Keys !! s.records.Keys && s.completed.Keys <= s.issued
    && (forall o :: o in s.history.owed ==> o.0 in s.completed)
    && forall x :: FinalizerKnows(s, x)
  }

  ghost predicate Downs(s: Shared) { forall r: Ref :: DownFits(s, r) }

  ghost predicate Signals(s: Shared) { forall x, p :: SignalFits(s, x, p) }

  ghost predicate Told(s: Shared) { Ends(s) && Downs(s) && Signals(s) }

  ghost predicate Sound(s: Shared) { Inv(s) && Told(s) }

  // ------------------------------------------------------------------ what no step undoes

  /** Nobody comes back, reasons stay, and whoever had no room stays reckoned with. */
  ghost predicate Later(s: Shared, v: Shared) {
    && s.issued <= v.issued
    && (forall p :: p in v.records && p in s.issued ==> p in s.records)
    && (forall x :: x in s.completed ==> x in v.completed && v.completed[x] == s.completed[x])
    && s.history.doomed <= v.history.doomed
    && (forall x, p, what :: Reckoned(s, x, p, what) ==> Reckoned(v, x, p, what))
  }

  /** Reference `r` has the same answer as before, or has none yet. */
  ghost predicate SameAnswer(s: Shared, v: Shared, r: Ref) {
    && (r in s.history.watches ==> r in v.history.watches)
    && (r in v.history.watches ==>
          if r in s.history.watches && s.history.watches[r].stage.Answered? then v.history.watches[r] == s.history.watches[r]
          else !v.history.watches[r].stage.Answered? && (v.history.watches[r].stage.Dropped? || v.history.watches[r].watcher in v.issued))
    && (forall p: ActorId, e: Envelope :: e.Down? && e.reference == r ==> v.history.delivered[(p, e)] == s.history.delivered[(p, e)])
  }

  lemma DownKept(s: Shared, v: Shared, r: Ref)
    requires Later(s, v) && SameAnswer(s, v, r) && DownFits(s, r)
    ensures DownFits(v, r)
  {
    hide Reckoned;
    forall p: ActorId, e: Envelope | e.Down? && e.reference == r ensures v.history.delivered[(p, e)] == Bit(DownReceived(v, r, p, e)) {
      assert DownReceived(v, r, p, e) == DownReceived(s, r, p, e);
    }
  }

  ghost predicate SameSignal(s: Shared, v: Shared, x: ActorId, p: ActorId) {
    && ((x, p) in s.history.signals <==> (x, p) in v.history.signals)
    && ((x, p) in s.history.signals ==> v.history.signals[(x, p)] == s.history.signals[(x, p)])
    && (forall signal: ExitSignal :: signal.from == x ==> v.history.delivered[(p, Exit(signal))] == s.history.delivered[(p, Exit(signal))])
  }

  lemma SignalKept(s: Shared, v: Shared, x: ActorId, p: ActorId)
    requires Later(s, v) && SameSignal(s, v, x, p) && SignalFits(s, x, p)
    ensures SignalFits(v, x, p)
  {
    hide Reckoned, LinkReason;
    forall signal: ExitSignal | signal.from == x ensures v.history.delivered[(p, Exit(signal))] == Bit(ExitReceived(v, x, p, signal)) {
      assert ExitReceived(v, x, p, signal) == ExitReceived(s, x, p, signal);
    }
  }

  ghost predicate AnswersKept(s: Shared, v: Shared) { forall r: Ref :: SameAnswer(s, v, r) }

  ghost predicate SignalsKept(s: Shared, v: Shared) { forall x, p :: SameSignal(s, v, x, p) }

  lemma DownsKept(s: Shared, v: Shared)
    requires Later(s, v) && AnswersKept(s, v) && Downs(s)
    ensures Downs(v)
  {
    hide Later, SameAnswer, DownFits;
    forall r: Ref ensures DownFits(v, r) {
      assert SameAnswer(s, v, r) && DownFits(s, r);
      DownKept(s, v, r);
    }
  }

  lemma AllSignalsKept(s: Shared, v: Shared)
    requires Later(s, v) && SignalsKept(s, v) && Signals(s)
    ensures Signals(v)
  {
    hide Later, SameSignal, SignalFits;
    forall x, p ensures SignalFits(v, x, p) {
      assert SameSignal(s, v, x, p) && SignalFits(s, x, p);
      SignalKept(s, v, x, p);
    }
  }

  // ------------------------------------------------------------------ steps that tell nobody anything

  /** Nobody is told anything. */
  ghost predicate Quiet(s: Shared, v: Shared) {
    && v.history.delivered == s.history.delivered && v.history.signals == s.history.signals && v.history.doomed == s.history.doomed
    && v.completed == s.completed && s.issued <= v.issued && v.history.owed == s.history.owed
    && (forall p :: p in v.records ==> p in s.records || (p !in s.issued && p in v.issued))
    && v.finalizers.Keys == s.finalizers.Keys
    && (forall x :: x in s.finalizers ==> SameVerdict(s.finalizers[x], v.finalizers[x]))
  }

  ghost predicate SameVerdict(f: Finalizer, g: Finalizer) {
    g.reason == f.reason && g.linkReason == f.linkReason && g.overflow == f.overflow
  }

  ghost predicate AllClassified(s: Shared) { forall x :: x in s.finalizers ==> Classified(x, s.finalizers[x]) }

  /** The history of a reference may move on, but not from or to an answer. */
  ghost predicate MovesOn(s: Shared, v: Shared, r: Ref) {
    && (r in s.history.watches ==> r in v.history.watches)
    && (r in v.history.watches && (r in s.history.watches ==> v.history.watches[r] != s.history.watches[r]) ==>
          && !v.history.watches[r].stage.Answered? && (r in s.history.watches ==> !s.history.watches[r].stage.Answered?)
          && (v.history.watches[r].stage.Dropped? || v.history.watches[r].watcher in v.issued))
  }

  lemma QuietIsLater(s: Shared, v: Shared)
    requires Quiet(s, v)
    ensures Later(s, v)
  {
  }

  lemma QuietKeepsEnds(s: Shared, v: Shared)
    requires Base(s) && Ends(s) && Quiet(s, v) && AllClassified(v)
    ensures Ends(v)
  {
    hide Classified;
    forall x ensures FinalizerKnows(v, x) {
      assert FinalizerKnows(s, x);
    }
  }

  lemma QuietAnswers(s: Shared, v: Shared, r: Ref)
    requires Quiet(s, v) && MovesOn(s, v, r) && DownFits(s, r)
    ensures SameAnswer(s, v, r)
  {
  }

  lemma QuietKeepsTold(s: Shared, v: Shared)
    requires Base(s) && Told(s) && Quiet(s, v) && AllClassified(v) && (forall r: Ref :: MovesOn(s, v, r))
    ensures Told(v)
  {
    hide AllClassified;
    QuietIsLater(s, v);
    QuietKeepsEnds(s, v);
    assert SignalsKept(s, v);
    forall r: Ref ensures SameAnswer(s, v, r) {
      assert MovesOn(s, v, r) && DownFits(s, r);
      hide Quiet, MovesOn, DownFits, Later, SameAnswer;
      QuietAnswers(s, v, r);
    }
    hide Quiet, MovesOn, Later, SignalsKept, SameAnswer, Downs, Signals, Ends;
    DownsKept(s, v);
    AllSignalsKept(s, v);
  }

  /** Untouched or without a peer, a finalizer is as it should be. */
  ghost predicate PeersKept(s: Shared, v: Shared) {
    forall x :: x in v.finalizers ==>
      && x in s.finalizers && v.finalizers[x].linkReason == s.finalizers[x].linkReason
      && (v.finalizers[x].peer == s.finalizers[x].peer || v.finalizers[x].peer == None || v.finalizers[x].peer.value.disposition == None)
  }

  lemma StillClassified(s: Shared, v: Shared)
    requires Ends(s) && PeersKept(s, v)
    ensures AllClassified(v)
  {
    forall x | x in v.finalizers ensures Classified(x, v.finalizers[x]) {
      assert FinalizerKnows(s, x);
    }
  }

  lemma LinkingIsQuiet(s: Shared, a: ActorId, b: ActorId)
    ensures Quiet(s, Link(s, a, b)) && PeersKept(s, Link(s, a, b)) && Link(s, a, b).history.watches == s.history.watches
    ensures Quiet(s, Unlink(s, a, b)) && PeersKept(s, Unlink(s, a, b)) && Unlink(s, a, b).history.watches == s.history.watches
  {
  }

  lemma SettingIsQuiet(s: Shared, a: ActorId, enabled: bool)
    ensures Quiet(s, SetTrapExit(s, a, enabled)) && PeersKept(s, SetTrapExit(s, a, enabled))
    ensures SetTrapExit(s, a, enabled).history.watches == s.history.watches
    ensures Quiet(s, Refuse(s, a)) && PeersKept(s, Refuse(s, a)) && Refuse(s, a).history.watches == s.history.watches
  {
  }

  /** What a spawn leaves as it is. */
  lemma SpawnLeaves(s: Shared, id: ActorId, parent: Option<ActorId>, linked: bool, trapExit: bool)
    ensures var v := Spawn(s, id, parent, linked, trapExit);
      && v.finalizers == s.finalizers && v.completed == s.completed && v.history == s.history.(orphans := v.history.orphans)
      && (v == s || (id !in s.issued && v.issued == s.issued + {id} && v.records.Keys == s.records.Keys + {id}))
  {
    if id !in s.issued && linked && parent.Some? && parent.value != id { LinkedSpawnLeaves(s, id, parent.value, trapExit); }
  }

  lemma LinkedSpawnLeaves(s: Shared, id: ActorId, p: ActorId, trapExit: bool)
    requires id !in s.issued && p != id
    ensures var v := Spawn(s, id, Some(p), true, trapExit);
      && v.finalizers == s.finalizers && v.completed == s.completed && v.history == s.history.(orphans := v.history.orphans)
      && v.issued == s.issued + {id} && v.records.Keys == s.records.Keys + {id}
  {
  }

  lemma SpawningIsQuiet(s: Shared, id: ActorId, parent: Option<ActorId>, linked: bool, trapExit: bool)
    ensures var v := Spawn(s, id, parent, linked, trapExit); Quiet(s, v) && PeersKept(s, v) && v.history.watches == s.history.watches
  {
    hide Spawn;
    SpawnLeaves(s, id, parent, linked, trapExit);
  }

  lemma ForgettingIsQuiet(s: Shared, a: ActorId, r: Ref)
    ensures Quiet(s, ForgetWatcher(s, a, r)) && PeersKept(s, ForgetWatcher(s, a, r))
    ensures ForgetWatcher(s, a, r).history.watches == s.history.watches
  {
  }

  lemma DroppingIsQuiet(s: Shared, a: ActorId, p: ActorId)
    ensures Quiet(s, DropLink(s, a, p)) && PeersKept(s, DropLink(s, a, p)) && DropLink(s, a, p).history.watches == s.history.watches
  {
  }

  lemma ForgetIsQuiet(s: Shared, b: ActorId, r: Ref)
    ensures Quiet(s, Forget(s, b, r)) && Forget(s, b, r).finalizers == s.finalizers && Forget(s, b, r).records.Keys == s.records.Keys
    ensures forall q: Ref :: q != r && q in s.history.watches ==> q in Forget(s, b, r).history.watches && Forget(s, b, r).history.watches[q] == s.history.watches[q]
    ensures forall q: Ref :: q in Forget(s, b, r).history.watches ==> q in s.history.watches || q == r
    ensures Forget(s, b, r) == s || (b in s.records && r in s.records[b].monitorsIn && r in Forget(s, b, r).history.watches
                                     && Forget(s, b, r).history.watches[r] == Watch(b, s.records[b].monitorsIn[r], Dropped))
  {
  }

  lemma DemonitoringIsQuiet(s: Shared, a: ActorId, r: Ref)
    requires RefFits(s, r)
    ensures var v := Demonitor(s, a, r); Quiet(s, v) && PeersKept(s, v) && forall q: Ref :: MovesOn(s, v, q)
  {
    hide FinalizerFits, WatcherFits, Forget;
    if a in s.records && r in s.records[a].monitorsOut {
      var b := s.records[a].monitorsOut[r];
      ForgetIsQuiet(Put(s, a, s.records[a].(monitorsOut := s.records[a].monitorsOut - {r})), b, r);
    }
  }

  lemma TakingBackIsQuiet(s: Shared, a: ActorId, r: Ref)
    requires RefFits(s, r)
    ensures var v := TakeBack(s, a, r); Quiet(s, v) && PeersKept(s, v) && forall q: Ref :: MovesOn(s, v, q)
  {
    hide FinalizerFits, WatcherFits, Forget;
    if a in s.finalizers && r in s.finalizers[a].outgoing {
      var f := s.finalizers[a];
      ForgetIsQuiet(PutFinalizer(s, a, f.(outgoing := f.outgoing - {r})), f.outgoing[r], r);
    }
  }

  // ------------------------------------------------------------------ steps that tell somebody something

  /** One reference is answered. */
  lemma OneAnswered(s: Shared, v: Shared, r: Ref)
    requires Told(s) && Later(s, v) && Ends(v) && DownFits(v, r)
    requires forall q: Ref :: q != r ==> SameAnswer(s, v, q)
    requires SignalsKept(s, v)
    ensures Told(v)
  {
    hide Later, SameAnswer, DownFits, SignalsKept, Signals, Ends;
    forall q: Ref ensures DownFits(v, q) {
      assert DownFits(s, q);
      if q != r { DownKept(s, v, q); }
    }
    AllSignalsKept(s, v);
  }

  /** One link is signalled. */
  lemma OneSignalled(s: Shared, v: Shared, x: ActorId, p: ActorId)
    requires Told(s) && Later(s, v) && Ends(v) && SignalFits(v, x, p)
    requires forall y, q :: (y, q) != (x, p) ==> SameSignal(s, v, y, q)
    requires AnswersKept(s, v)
    ensures Told(v)
  {
    hide Later, SameSignal, SignalFits, AnswersKept, Downs, Ends;
    forall y, q ensures SignalFits(v, y, q) {
      assert SignalFits(s, y, q);
      if (y, q) != (x, p) { SignalKept(s, v, y, q); }
    }
    DownsKept(s, v);
  }

  /** A reference that was never handed out has led to nothing. */
  lemma NothingForUnused(s: Shared, r: Ref)
    requires RefFits(s, r) && DownFits(s, r) && s.nextRef <= r
    ensures r !in s.history.watches
    ensures forall p: ActorId, e: Envelope :: e.Down? && e.reference == r ==> s.history.delivered[(p, e)] == 0
  {
    hide FinalizerFits, RecordFits, WatcherFits, Reckoned;
  }

  lemma AnsweredAtOnce(s: Shared, a: ActorId, b: ActorId, room: bool)
    requires Base(s) && RefFits(s, s.nextRef) && Told(s) && a in s.records && b !in s.records
    ensures Told(Monitor(s, a, b, room))
  {
    var r, v := s.nextRef, Monitor(s, a, b, room);
    assert DownFits(s, r);
    NothingForUnused(s, r);
    assert PeersKept(s, v);
    StillClassified(s, v);
    AnsweredAtOnceFits(s, a, b, room);
    hide Told, DownFits, RefFits, Base, SignalsKept, Later, Ends, SameAnswer;
    OneAnswered(s, v, r);
  }

  lemma AnsweredAtOnceFits(s: Shared, a: ActorId, b: ActorId, room: bool)
    requires Base(s) && Ends(s) && a in s.records && b !in s.records && s.nextRef !in s.history.watches
    requires AllClassified(Monitor(s, a, b, room))
    requires forall p: ActorId, e: Envelope :: e.Down? && e.reference == s.nextRef ==> s.history.delivered[(p, e)] == 0
    requires forall r: Ref :: DownFits(s, r)
    ensures var v := Monitor(s, a, b, room);
      Later(s, v) && Ends(v) && DownFits(v, s.nextRef) && SignalsKept(s, v) && forall q: Ref :: q != s.nextRef ==> SameAnswer(s, v, q)
  {
    hide AllClassified, Classified;
    var v := Monitor(s, a, b, room);
    forall x ensures FinalizerKnows(v, x) {
      assert FinalizerKnows(s, x);
    }
    forall q: Ref | q != s.nextRef ensures SameAnswer(s, v, q) {
      assert DownFits(s, q);
    }
  }

  /** Monitoring an actor that is there, or by one that is not, tells nobody anything. */
  lemma MonitoringIsQuiet(s: Shared, a: ActorId, b: ActorId, room: bool)
    requires Base(s) && RefFits(s, s.nextRef) && (a !in s.records || b in s.records)
    ensures var v := Monitor(s, a, b, room); Quiet(s, v) && PeersKept(s, v) && forall q: Ref :: MovesOn(s, v, q)
  {
    hide RecordFits, FinalizerFits, WatcherFits;
  }

  lemma MonitorKeepsTold(s: Shared, a: ActorId, b: ActorId, room: bool)
    requires Sound(s)
    ensures Told(Monitor(s, a, b, room))
  {
    hide RefFits, DownFits, Pairs, Downs, Signals, Ends, Monitor, MovesOn, Quiet, PeersKept, AllClassified;
    assert RefFits(s, s.nextRef);
    if a in s.records && b !in s.records {
      AnsweredAtOnce(s, a, b, room);
    } else {
      MonitoringIsQuiet(s, a, b, room);
      StillClassified(s, Monitor(s, a, b, room));
      QuietKeepsTold(s, Monitor(s, a, b, room));
    }
  }

  // --- removing a record

  lemma RemovedEnds(s: Shared, a: ActorId, reason: ExitReason, requested: bool)
    requires Base(s) && Ends(s) && a in s.records
    ensures Ends(Remove(s, a, reason, requested)) && Later(s, Remove(s, a, reason, requested))
  {
    var v := Remove(s, a, reason, requested);
    forall x ensures FinalizerKnows(v, x) {
      assert FinalizerKnows(s, x);
    }
  }

  lemma RemovedAnswer(s: Shared, a: ActorId, reason: ExitReason, requested: bool, r: Ref)
    requires Base(s) && RefFits(s, r) && DownFits(s, r) && a in s.records
    ensures SameAnswer(s, Remove(s, a, reason, requested), r)
  {
    hide FinalizerFits, WatcherFits, Reckoned;
    if r in s.history.watches { assert RecordFits(s.records[a], a, r, s.history.watches[r]); }
  }

  lemma RemoveKeepsTold(s: Shared, a: ActorId, reason: ExitReason, requested: bool)
    requires Sound(s)
    ensures Told(Remove(s, a, reason, requested))
  {
    if a in s.records {
      var v := Remove(s, a, reason, requested);
      assert SignalsKept(s, v);
      hide RefFits, DownFits, Pairs, Base, Signals, Ends, SameAnswer, Remove, Later, SignalsKept;
      RemovedEnds(s, a, reason, requested);
      forall r: Ref ensures SameAnswer(s, v, r) {
        assert RefFits(s, r) && DownFits(s, r);
        RemovedAnswer(s, a, reason, requested, r);
      }
      DownsKept(s, v);
      AllSignalsKept(s, v);
    }
  }

  // --- telling a watcher

  lemma ToldEnds(s: Shared, a: ActorId, room: bool)
    requires Ends(s)
    ensures Ends(SendDown(s, a, room)) && Later(s, SendDown(s, a, room)) && SignalsKept(s, SendDown(s, a, room))
  {
    hide Classified;
    var v := SendDown(s, a, room);
    forall x ensures FinalizerKnows(v, x) {
      assert FinalizerKnows(s, x);
      if x == a && a in s.finalizers { SamePeerClassified(x, s.finalizers[x], v.finalizers[x]); }
    }
  }

  lemma SamePeerClassified(x: ActorId, f: Finalizer, g: Finalizer)
    requires Classified(x, f) && g.linkReason == f.linkReason && (g.peer == f.peer || g.peer == None)
    ensures Classified(x, g)
  {
  }

  /** A pending reference has led to nothing so far. */
  lemma PendingAnswered(s: Shared, a: ActorId, room: bool)
    requires a in s.finalizers && s.finalizers[a].down.Some? && s.finalizers[a].overflow == None
    requires RefFits(s, s.finalizers[a].down.value.0) && DownFits(s, s.finalizers[a].down.value.0)
    ensures DownFits(SendDown(s, a, room), s.finalizers[a].down.value.0)
  {
    hide RecordFits, WatcherFits;
    assert HasDown(s.finalizers[a], s.finalizers[a].down.value.0);
  }

  lemma OtherAnswer(s: Shared, a: ActorId, room: bool, r: Ref)
    requires a in s.finalizers && s.finalizers[a].down.Some? && s.finalizers[a].down.value.0 != r && DownFits(s, r)
    ensures SameAnswer(s, SendDown(s, a, room), r)
  {
    hide Reckoned;
  }

  lemma SendDownKeepsTold(s: Shared, a: ActorId, room: bool)
    requires Sound(s)
    ensures Told(SendDown(s, a, room))
  {
    if a in s.finalizers && s.finalizers[a].down.Some? && s.finalizers[a].overflow == None {
      hide RefFits, DownFits, Pairs, Base, Signals, Ends, SameAnswer, SendDown, Later, SignalsKept;
      var r, v := s.finalizers[a].down.value.0, SendDown(s, a, room);
      assert RefFits(s, r) && DownFits(s, r);
      ToldEnds(s, a, room);
      PendingAnswered(s, a, room);
      forall q: Ref | q != r ensures SameAnswer(s, v, q) {
        assert DownFits(s, q);
        OtherAnswer(s, a, room, q);
      }
      OneAnswered(s, v, r);
    }
  }

  lemma OverflowIsReckoned(s: Shared, a: ActorId, x: ActorId, p: ActorId, what: string)
    requires Reckoned(s, x, p, what)
    ensures Reckoned(ForceOverflow(s, a), x, p, what)
  {
  }

  lemma ForcedEnds(s: Shared, a: ActorId)
    requires Ends(s)
    ensures Ends(ForceOverflow(s, a)) && Later(s, ForceOverflow(s, a))
    ensures SignalsKept(s, ForceOverflow(s, a)) && ForceOverflow(s, a).history.watches == s.history.watches
    ensures ForceOverflow(s, a).history.delivered == s.history.delivered
  {
    hide Classified;
    var v := ForceOverflow(s, a);
    forall x ensures FinalizerKnows(v, x) {
      assert FinalizerKnows(s, x);
      if x == a && a in s.finalizers { SamePeerClassified(x, s.finalizers[x], v.finalizers[x]); }
    }
    forall x, p, what | Reckoned(s, x, p, what) ensures Reckoned(v, x, p, what) {
      hide Reckoned;
      OverflowIsReckoned(s, a, x, p, what);
    }
  }

  lemma ForceOverflowKeepsTold(s: Shared, a: ActorId)
    requires Sound(s)
    ensures Told(ForceOverflow(s, a))
  {
    var v := ForceOverflow(s, a);
    hide RefFits, Pairs, Base, Signals, Ends, ForceOverflow, SignalsKept, Reckoned;
    ForcedEnds(s, a);
    forall r: Ref ensures SameAnswer(s, v, r) {
      assert DownFits(s, r);
    }
    DownsKept(s, v);
    AllSignalsKept(s, v);
  }

  lemma EndTaskKeepsTold(s: Shared, a: ActorId)
    requires Sound(s)
    ensures Told(EndTask(s, a))
  {
    var v := EndTask(s, a);
    assert Later(s, v) && SignalsKept(s, v);
    forall x ensures FinalizerKnows(v, x) {
      assert FinalizerKnows(s, x);
    }
    hide RefFits, Pairs, Base, Signals, Later, SignalsKept, Reckoned;
    forall r: Ref ensures SameAnswer(s, v, r) {
      assert DownFits(s, r);
    }
    DownsKept(s, v);
    AllSignalsKept(s, v);
  }

  // --- signalling a link

  /** A link that is still owed its signal has led to nothing so far. */
  lemma NothingForOwed(s: Shared, a: ActorId, p: ActorId)
    requires a in s.finalizers && HasPeer(s.finalizers[a], p) && PairFits(s, a, p) && SignalFits(s, a, p)
    ensures (a, p) !in s.history.signals
    ensures forall signal: ExitSignal :: signal.from == a ==> s.history.delivered[(p, Exit(signal))] == 0
  {
    hide Reckoned;
  }

  /** What the sections that signal a link leave alone. */
  ghost predicate Signalling(s: Shared, v: Shared, a: ActorId, p: ActorId) {
    && v.records.Keys == s.records.Keys && v.issued == s.issued && v.completed == s.completed && v.history.watches == s.history.watches
    && v.history.owed == s.history.owed && s.history.doomed <= v.history.doomed && v.finalizers.Keys == s.finalizers.Keys && a in s.finalizers && s.finalizers[a].overflow == None
    && v.finalizers[a] == s.finalizers[a].(peer := None, overflow := v.finalizers[a].overflow)
    && (forall x :: x in s.finalizers && x != a ==> v.finalizers[x] == s.finalizers[x])
    && (a, p) in v.history.signals && v.history.signals == s.history.signals[(a, p) := v.history.signals[(a, p)]]
    && v.history.delivered == s.history.delivered
         + if v.history.signals[(a, p)] == Received then multiset{(p, Exit(ExitSignal(a, s.finalizers[a].linkReason, true)))} else multiset{}
  }

  lemma SignallingKeepsTold(s: Shared, v: Shared, a: ActorId, p: ActorId)
    requires Sound(s) && Signalling(s, v, a, p) && HasPeer(s.finalizers[a], p)
    requires SignalCameTo(v, a, p, s.finalizers[a].linkReason, v.history.signals[(a, p)])
    ensures Told(v)
  {
    hide RefFits, DownFits, SignalFits, Base;
    assert PairFits(s, a, p) && SignalFits(s, a, p) && FinalizerKnows(s, a);
    NothingForOwed(s, a, p);
    hide PairFits, Classified, SignalCameTo, Downs, Signals;
    SignallingEnds(s, v, a, p);
    assert SignalFits(v, a, p) by { SignalledFits(s, v, a, p); }
    forall r: Ref ensures SameAnswer(s, v, r) {
      SignallingAnswer(s, v, a, p, r);
    }
    hide Signalling, Ends, Later, SameSignal;
    OneSignalled(s, v, a, p);
  }

  lemma SignalledFits(s: Shared, v: Shared, a: ActorId, p: ActorId)
    requires Signalling(s, v, a, p) && FinalizerKnows(s, a)
    requires forall signal: ExitSignal :: signal.from == a ==> s.history.delivered[(p, Exit(signal))] == 0
    requires SignalCameTo(v, a, p, s.finalizers[a].linkReason, v.history.signals[(a, p)])
    ensures SignalFits(v, a, p)
  {
    hide SignalCameTo, Classified;
  }

  lemma SignallingEnds(s: Shared, v: Shared, a: ActorId, p: ActorId)
    requires Ends(s) && Signalling(s, v, a, p)
    ensures Ends(v) && Later(s, v)
    ensures forall y, q :: (y, q) != (a, p) ==> SameSignal(s, v, y, q)
  {
    hide Classified;
    forall x ensures FinalizerKnows(v, x) {
      assert FinalizerKnows(s, x);
      if x == a { SamePeerClassified(x, s.finalizers[x], v.finalizers[x]); }
    }
  }

  lemma SignallingAnswer(s: Shared, v: Shared, a: ActorId, p: ActorId, r: Ref)
    requires Signalling(s, v, a, p) && Downs(s)
    ensures SameAnswer(s, v, r)
  {
    hide Reckoned;
    assert DownFits(s, r);
  }

  /** Without an addressee the signal goes nowhere. */
  lemma AbsentIsSignalling(s: Shared, a: ActorId, p: ActorId)
    requires a in s.finalizers && HasPeer(s.finalizers[a], p) && s.finalizers[a].overflow == None
    ensures Signalling(s, Signalled(s, a, p, Absent), a, p) && Signalling(s, Signalled(s, a, p, Ignored), a, p)
  {
  }

  lemma ForcingIsSignalling(s: Shared, a: ActorId, p: ActorId, reason: ExitReason)
    requires a in s.finalizers && HasPeer(s.finalizers[a], p) && s.finalizers[a].overflow == None && p in s.records
    ensures var v := Force(Signalled(s, a, p, Killed), p, reason);
      Signalling(s, v, a, p) && v.history.signals[(a, p)] == Killed && (p, reason) in v.history.doomed
  {
  }

  lemma DeliveringIsSignalling(s: Shared, a: ActorId, p: ActorId, room: bool)
    requires a in s.finalizers && HasPeer(s.finalizers[a], p) && s.finalizers[a].overflow == None && p in s.records
    ensures var outcome := if room then Received else Overflowed;
      var v := Deliver(Signalled(s, a, p, outcome), a, p, Exit(ExitSignal(a, s.finalizers[a].linkReason, true)), "exit", room);
      && Signalling(s, v, a, p) && v.history.signals[(a, p)] == outcome
      && (!room ==> v.finalizers[a].overflow == Some((p, "exit")))
  {
  }

  lemma ActIsSignalling(s: Shared, a: ActorId, room: bool)
    requires Base(s) && FinalizerKnows(s, a)
    requires a in s.finalizers && s.finalizers[a].peer.Some? && s.finalizers[a].peer.value.disposition.Some? && s.finalizers[a].overflow == None
    ensures var v, p := Act(s, a, room), s.finalizers[a].peer.value.actor;
      && HasPeer(s.finalizers[a], p) && Signalling(s, v, a, p)
      && SignalCameTo(v, a, p, s.finalizers[a].linkReason, v.history.signals[(a, p)])
  {
    hide Signalling, LinkReason;
    var p := s.finalizers[a].peer.value.actor;
    AbsentIsSignalling(s, a, p);
    if p in s.records {
      ForcingIsSignalling(s, a, p, s.finalizers[a].linkReason);
      DeliveringIsSignalling(s, a, p, room);
    }
  }

  lemma ActKeepsTold(s: Shared, a: ActorId, room: bool)
    requires Sound(s)
    ensures Told(Act(s, a, room))
  {
    if a in s.finalizers && s.finalizers[a].peer.Some? && s.finalizers[a].peer.value.disposition.Some? && s.finalizers[a].overflow == None {
      assert FinalizerKnows(s, a);
      hide Refs, Pairs, Base, Told, FinalizerKnows, Signalling, SignalCameTo, Act;
      ActIsSignalling(s, a, room);
      SignallingKeepsTold(s, Act(s, a, room), a, s.finalizers[a].peer.value.actor);
    }
  }

  lemma ReadTrapKeepsTold(s: Shared, a: ActorId)
    requires Sound(s)
    ensures Told(ReadTrap(s, a))
  {
    if a in s.finalizers && s.finalizers[a].peer.Some? && s.finalizers[a].peer.value.disposition == None && s.finalizers[a].overflow == None {
      var f, p := s.finalizers[a], s.finalizers[a].peer.value.actor;
      if p !in s.records {
        AbsentIsSignalling(s, a, p);
        hide Sound, Signalling;
        SignallingKeepsTold(s, ReadTrap(s, a), a, p);
      } else {
        ReadingIsQuiet(s, a);
        hide Inv, Told, AllClassified;
        QuietKeepsTold(s, ReadTrap(s, a));
      }
    }
  }

  lemma ReadingIsQuiet(s: Shared, a: ActorId)
    requires Ends(s) && a in s.finalizers && s.finalizers[a].peer.Some? && s.finalizers[a].peer.value.actor in s.records
    ensures Quiet(s, ReadTrap(s, a)) && ReadTrap(s, a).history == s.history && AllClassified(ReadTrap(s, a))
  {
    var v := ReadTrap(s, a);
    forall x | x in v.finalizers ensures Classified(x, v.finalizers[x]) {
      assert FinalizerKnows(s, x);
      if x == a && v != s {
        var trapExit := s.records[s.finalizers[a].peer.value.actor].trapExit;
        assert v.finalizers[x].peer.value.disposition.value == ClassifyExitSignal(trapExit, ExitSignal(x, v.finalizers[x].linkReason, true));
      }
    }
  }

  // ------------------------------------------------------------------ any interleaving

  lemma QuietSections(s: Shared, step: Section)
    requires Sound(s)
    requires step.DoLink? || step.DoUnlink? || step.DoSetTrapExit? || step.DoSpawn? || step.DoRefuse? || step.DoForgetWatcher? || step.DoDropLink?
      || step.DoDemonitor? || step.DoTakeBack?
    ensures Told(Apply(s, step))
  {
    hide RefFits, Pairs, Downs, Signals, Ends, Quiet, PeersKept, AllClassified, Base, MovesOn;
    hide Link, Unlink, SetTrapExit, Spawn, Refuse, ForgetWatcher, DropLink, Demonitor, TakeBack;
    var v := Apply(s, step);
    match step {
      case DoLink(a, b) => LinkingIsQuiet(s, a, b);
      case DoUnlink(a, b) => LinkingIsQuiet(s, a, b);
      case DoSetTrapExit(a, enabled) => SettingIsQuiet(s, a, enabled);
      case DoSpawn(id, parent, linked, trapExit) => SpawningIsQuiet(s, id, parent, linked, trapExit);
      case DoRefuse(id) => SettingIsQuiet(s, id, true);
      case DoForgetWatcher(a, r) => ForgettingIsQuiet(s, a, r);
      case DoDropLink(a, p) => DroppingIsQuiet(s, a, p);
      case DoDemonitor(a, r) => assert RefFits(s, r); DemonitoringIsQuiet(s, a, r);
      case DoTakeBack(a, r) => assert RefFits(s, r); TakingBackIsQuiet(s, a, r);
    }
    assert Quiet(s, v) && PeersKept(s, v);
    hide Apply;
    StillClassified(s, v);
    forall r: Ref ensures MovesOn(s, v, r) { if v.history.watches == s.history.watches { SameMovesOn(s, v, r); } }
    QuietKeepsTold(s, v);
  }

  lemma SameMovesOn(s: Shared, v: Shared, r: Ref)
    requires v.history.watches == s.history.watches
    ensures MovesOn(s, v, r)
  {
  }

  lemma ApplyKeepsSound(s: Shared, step: Section)
    requires Sound(s)
    ensures Sound(Apply(s, step))
  {
    ApplyKeepsInv(s, step);
    hide Inv, Told, Link, Unlink, Monitor, Demonitor, SetTrapExit, Spawn, Refuse, Remove, TakeBack, ForgetWatcher, SendDown, ForceOverflow,
      DropLink, ReadTrap, Act, EndTask;
    match step
    case DoMonitor(a, b, room) => MonitorKeepsTold(s, a, b, room);
    case DoRemove(a, reason, requested) => RemoveKeepsTold(s, a, reason, requested);
    case DoSendDown(a, room) => SendDownKeepsTold(s, a, room);
    case DoForceOverflow(a) => ForceOverflowKeepsTold(s, a);
    case DoReadTrap(a) => ReadTrapKeepsTold(s, a);
    case DoAct(a, room) => ActKeepsTold(s, a, room);
    case DoEndTask(a) => EndTaskKeepsTold(s, a);
    case _ => hide Apply; QuietSections(s, step);
  }

  lemma {:induction false} RunKeepsSound(s: Shared, steps: seq<Section>)
    requires Sound(s)
    ensures Sound(Run(s, steps))
    decreases |steps|
  {
    hide Sound, Apply;
    if steps != [] {
      ApplyKeepsSound(s, steps[0]);
      RunKeepsSound(Apply(s, steps[0]), steps[1..]);
    }
  }

  lemma NobodyWasTold()
    ensures Sound(NOBODY)
  {
    NobodyIsConsistent();
  }

  // ------------------------------------------------------------------ what is settled stays settled

  ghost predicate HasAnswer(s: Shared, r: Ref) { r in s.history.watches && s.history.watches[r].stage.Answered? }

  ghost predicate StillAnswered(s: Shared, v: Shared, r: Ref) {
    r in s.history.watches && r in v.history.watches && v.history.watches[r] == s.history.watches[r]
  }

  lemma RunningKeepsAnswer(s: Shared, a: ActorId, b: ActorId, room: bool, r: Ref)
    requires RefFits(s, r) && HasAnswer(s, r)
    ensures StillAnswered(s, Monitor(s, a, b, room), r)
  {
    hide RecordFits, FinalizerFits, WatcherFits;
  }

  lemma ForgettingKeepsAnswer(s: Shared, a: ActorId, q: Ref, r: Ref)
    requires RefFits(s, r) && HasAnswer(s, r)
    ensures StillAnswered(s, Demonitor(s, a, q), r) && StillAnswered(s, TakeBack(s, a, q), r)
  {
    hide FinalizerFits, WatcherFits;
  }

  lemma RemovingKeepsAnswer(s: Shared, a: ActorId, reason: ExitReason, requested: bool, r: Ref)
    requires RefFits(s, r) && HasAnswer(s, r)
    ensures StillAnswered(s, Remove(s, a, reason, requested), r)
  {
    hide FinalizerFits, WatcherFits;
  }

  lemma TellingKeepsAnswer(s: Shared, a: ActorId, room: bool, r: Ref)
    requires RefFits(s, r) && HasAnswer(s, r)
    ensures StillAnswered(s, SendDown(s, a, room), r)
  {
    hide RecordFits, WatcherFits;
  }

  /** An answer is final. */
  lemma ApplyKeepsAnswer(s: Shared, step: Section, r: Ref)
    requires RefFits(s, r) && HasAnswer(s, r)
    ensures StillAnswered(s, Apply(s, step), r)
  {
    hide RefFits, Monitor, Demonitor, TakeBack, SendDown, Remove;
    match step
    case DoMonitor(a, b, room) => RunningKeepsAnswer(s, a, b, room, r);
    case DoDemonitor(a, q) => ForgettingKeepsAnswer(s, a, q, r);
    case DoTakeBack(a, q) => ForgettingKeepsAnswer(s, a, q, r);
    case DoRemove(a, reason, requested) => RemovingKeepsAnswer(s, a, reason, requested, r);
    case DoSendDown(a, room) => TellingKeepsAnswer(s, a, room, r);
    case _ => hide Apply; OthersKeepWatches(s, step);
  }

  ghost predicate StillSignalled(s: Shared, v: Shared, x: ActorId, p: ActorId) {
    (x, p) in s.history.signals && (x, p) in v.history.signals && v.history.signals[(x, p)] == s.history.signals[(x, p)]
  }

  /** What has been signalled is not owed any more, so it is not what the finalizer is about to signal. */
  lemma SignallingKeepsSignal(s: Shared, a: ActorId, room: bool, x: ActorId, p: ActorId)
    requires PairFits(s, x, p) && (x, p) in s.history.signals
    ensures StillSignalled(s, ReadTrap(s, a), x, p) && StillSignalled(s, Act(s, a, room), x, p)
  {
    assert a in s.finalizers && s.finalizers[a].peer.Some? ==> (a, s.finalizers[a].peer.value.actor) != (x, p);
    hide PairFits, ClassifyExitSignal;
  }

  lemma ApplyKeepsSignal(s: Shared, step: Section, x: ActorId, p: ActorId)
    requires PairFits(s, x, p) && (x, p) in s.history.signals
    ensures StillSignalled(s, Apply(s, step), x, p)
  {
    hide PairFits, ReadTrap, Act;
    match step
    case DoReadTrap(a) => SignallingKeepsSignal(s, a, true, x, p);
    case DoAct(a, room) => SignallingKeepsSignal(s, a, room, x, p);
    case _ =>
  }

  /** What has been settled so far is settled for good. */
  ghost predicate Persists(s: Shared, v: Shared) {
    && (forall r: Ref :: HasAnswer(s, r) ==> StillAnswered(s, v, r))
    && (forall x, p :: (x, p) in s.history.signals ==> StillSignalled(s, v, x, p))
    && s.history.owed <= v.history.owed
    && (forall x :: x in s.completed ==> x in v.completed && v.completed[x] == s.completed[x])
  }

  lemma ApplyPersists(s: Shared, step: Section)
    requires Sound(s)
    ensures Persists(s, Apply(s, step))
  {
    hide RefFits, PairFits, Apply, Base, Ends, Downs, Signals, StillAnswered, StillSignalled;
    forall x | x in s.completed ensures x in Apply(s, step).completed && Apply(s, step).completed[x] == s.completed[x] {
      ApplyKeepsCompleted(s, step, x);
    }
    ApplyKeepsOwed(s, step);
    forall r: Ref | HasAnswer(s, r) ensures StillAnswered(s, Apply(s, step), r) {
      assert RefFits(s, r);
      ApplyKeepsAnswer(s, step, r);
    }
    forall x, p | (x, p) in s.history.signals ensures StillSignalled(s, Apply(s, step), x, p) {
      assert PairFits(s, x, p);
      ApplyKeepsSignal(s, step, x, p);
    }
  }

  lemma PersistsTransitive(s: Shared, v: Shared, u: Shared)
    requires Persists(s, v) && Persists(v, u)
    ensures Persists(s, u)
  {
    forall r: Ref | HasAnswer(s, r) ensures StillAnswered(s, u, r) {
      assert StillAnswered(s, v, r) && HasAnswer(v, r) && StillAnswered(v, u, r);
    }
    forall x, p | (x, p) in s.history.signals ensures StillSignalled(s, u, x, p) {
      assert StillSignalled(s, v, x, p) && StillSignalled(v, u, x, p);
    }
  }

  lemma {:induction false} RunPersists(s: Shared, steps: seq<Section>)
    requires Sound(s)
    ensures Persists(s, Run(s, steps))
    decreases |steps|
  {
    hide Sound, Apply, Persists;
    if steps == [] {
      PersistsItself(s);
    } else {
      ApplyKeepsSound(s, steps[0]);
      ApplyPersists(s, steps[0]);
      RunPersists(Apply(s, steps[0]), steps[1..]);
      PersistsTransitive(s, Apply(s, steps[0]), Run(s, steps));
    }
  }

  lemma PersistsItself(s: Shared)
    ensures Persists(s, s)
  {
  }

  // ------------------------------------------------------------------ what each of those captured gets

  /** The watcher `w` is to be told, or has been, through `r` that `a` ended for `reason`. */
  ghost predicate Due(s: Shared, r: Ref, a: ActorId, w: ActorId, reason: ExitReason) {
    r in s.history.watches
    && var watch := s.history.watches[r];
    && watch.target == a && watch.watcher == w
    && (watch.stage.Pending? || (watch.stage.Answered? && watch.stage.reason == reason))
    && a in s.completed && s.completed[a].reason == reason
  }

  lemma SendDownKeepsDue(s: Shared, x: ActorId, room: bool, r: Ref, a: ActorId, w: ActorId, reason: ExitReason)
    requires RefFits(s, r) && Ends(s) && Due(s, r, a, w, reason)
    ensures Due(SendDown(s, x, room), r, a, w, reason)
  {
    hide RecordFits, WatcherFits;
    if x in s.finalizers {
      assert FinalizerKnows(s, x);
      assert FinalizerFits(s.finalizers[x], x, r, s.history.watches[r]);
    }
  }

  lemma MonitorKeepsDue(s: Shared, x: ActorId, b: ActorId, room: bool, r: Ref, a: ActorId, w: ActorId, reason: ExitReason)
    requires RefFits(s, r) && Due(s, r, a, w, reason)
    ensures Due(Monitor(s, x, b, room), r, a, w, reason)
  {
    hide FinalizerFits, WatcherFits, RecordFits;
  }

  lemma ForgetKeepsDue(s: Shared, x: ActorId, q: Ref, r: Ref, a: ActorId, w: ActorId, reason: ExitReason)
    requires RefFits(s, r) && Due(s, r, a, w, reason)
    ensures Due(Demonitor(s, x, q), r, a, w, reason) && Due(TakeBack(s, x, q), r, a, w, reason)
  {
    hide FinalizerFits, WatcherFits;
  }

  lemma RemoveKeepsDue(s: Shared, x: ActorId, because: ExitReason, requested: bool, r: Ref, a: ActorId, w: ActorId, reason: ExitReason)
    requires RefFits(s, r) && Ends(s) && Due(s, r, a, w, reason)
    ensures Due(Remove(s, x, because, requested), r, a, w, reason)
  {
    hide FinalizerFits, WatcherFits, Classified;
  }

  lemma ApplyKeepsDue(s: Shared, step: Section, r: Ref, a: ActorId, w: ActorId, reason: ExitReason)
    requires RefFits(s, r) && Ends(s) && Due(s, r, a, w, reason)
    ensures Due(Apply(s, step), r, a, w, reason)
  {
    hide RefFits, Ends, Monitor, Demonitor, TakeBack, SendDown, Remove;
    match step
    case DoMonitor(x, b, room) => MonitorKeepsDue(s, x, b, room, r, a, w, reason);
    case DoDemonitor(x, q) => ForgetKeepsDue(s, x, q, r, a, w, reason);
    case DoTakeBack(x, q) => ForgetKeepsDue(s, x, q, r, a, w, reason);
    case DoSendDown(x, room) => SendDownKeepsDue(s, x, room, r, a, w, reason);
    case DoRemove(x, because, requested) => RemoveKeepsDue(s, x, because, requested, r, a, w, reason);
    case _ =>
      hide Apply;
      OthersKeepEnds(s, step);
      OthersKeepWatches(s, step);
  }

  /** No down message for `r` went to anyone but `w`, none but this one, and that at most once. */
  ghost predicate OneDownAtMost(s: Shared, r: Ref, w: ActorId, e: Envelope) {
    forall p: ActorId, d: Envelope :: d.Down? && d.reference == r ==> s.history.delivered[(p, d)] <= Bit(p == w && d == e)
  }

  /** `w` has got the notice, or is gone, or was told to end because it had no room for one. */
  ghost predicate Notified(s: Shared, w: ActorId, e: Envelope, what: string) {
    s.history.delivered[(w, e)] == 1 || w !in s.records || (w, Overflow(w, what)) in s.history.doomed
  }

  lemma DueIsTold(s: Shared, r: Ref, a: ActorId, w: ActorId, reason: ExitReason)
    requires Sound(s) && Due(s, r, a, w, reason)
    ensures OneDownAtMost(s, r, w, Down(r, a, reason))
    ensures a !in s.finalizers ==> Notified(s, w, Down(r, a, reason), "down")
  {
    assert RefFits(s, r) && DownFits(s, r);
    hide RecordFits, FinalizerFits, WatcherFits, Inv, Ends, Signals, Downs;
  }

  /**
   * A reference another actor held when its target's record was removed leads to at most one down
   * message, which goes to that actor and names the target and its final reason; and by the time the
   * finalizer has ended it has, unless the watcher was gone or had no room and was told to end for that.
   */
  lemma {:induction false} CapturedIsToldOnce(s: Shared, steps: seq<Section>, r: Ref, a: ActorId, w: ActorId, reason: ExitReason)
    requires Sound(s) && Due(s, r, a, w, reason)
    ensures var v := Run(s, steps);
      && OneDownAtMost(v, r, w, Down(r, a, reason))
      && (a !in v.finalizers ==> Notified(v, w, Down(r, a, reason), "down"))
    decreases |steps|
  {
    if steps == [] {
      DueIsTold(s, r, a, w, reason);
    } else {
      assert RefFits(s, r);
      hide RefFits, PairFits, Apply, Downs, Signals, Ends, Due;
      ApplyKeepsSound(s, steps[0]);
      ApplyKeepsDue(s, steps[0], r, a, w, reason);
      CapturedIsToldOnce(Apply(s, steps[0]), steps[1..], r, a, w, reason);
    }
  }

  /** No exit message from `x` to `p` but this one, and that at most once. */
  ghost predicate OneExitAtMost(s: Shared, x: ActorId, p: ActorId, reason: ExitReason) {
    forall signal: ExitSignal :: signal.from == x ==> s.history.delivered[(p, Exit(signal))] <= Bit(signal == ExitSignal(x, reason, true))
  }

  /** The signal came to what the reason calls for under one of the trap flags, or its addressee was not there. */
  ghost predicate SignalSettled(s: Shared, x: ActorId, p: ActorId, reason: ExitReason) {
    (x, p) in s.history.signals
    && match s.history.signals[(x, p)]
       case Received => reason != Kill && s.history.delivered[(p, Exit(ExitSignal(x, reason, true)))] == 1
       case Overflowed => reason != Kill && (p !in s.records || (p, Overflow(p, "exit")) in s.history.doomed)
       case Killed => reason != Normal && (p, reason) in s.history.doomed
       case Ignored => reason == Normal
       case Absent => true
  }

  lemma OwedIsSignalled(s: Shared, a: ActorId, p: ActorId)
    requires Sound(s) && (a, p) in s.history.owed
    ensures a in s.completed && OneExitAtMost(s, a, p, LinkReason(s.completed[a]))
    ensures a !in s.finalizers ==> SignalSettled(s, a, p, LinkReason(s.completed[a]))
  {
    assert PairFits(s, a, p) && SignalFits(s, a, p);
    assert a in s.completed;
    hide Inv, Ends, Signals, Downs, LinkReason;
  }

  lemma ApplyKeepsCompleted(s: Shared, step: Section, a: ActorId)
    requires Ends(s) && a in s.completed
    ensures a in Apply(s, step).completed && Apply(s, step).completed[a] == s.completed[a]
  {
    hide FinalizerKnows;
    if !step.DoRemove? {
      hide Apply;
      OthersKeepEnds(s, step);
    }
  }

  /**
   * Every captured link leads to at most one exit message, with the reason passed on to links; and by
   * the time the finalizer has ended its signal has come to what it should, if there was a peer.
   */
  lemma {:induction false} CapturedLinkIsSignalledOnce(s: Shared, steps: seq<Section>, a: ActorId, p: ActorId)
    requires Sound(s) && (a, p) in s.history.owed && a in s.completed
    ensures var v := Run(s, steps);
      && OneExitAtMost(v, a, p, LinkReason(s.completed[a]))
      && (a !in v.finalizers ==> SignalSettled(v, a, p, LinkReason(s.completed[a])))
    decreases |steps|
  {
    if steps == [] {
      OwedIsSignalled(s, a, p);
    } else {
      hide Inv, Apply, Downs, Signals, Ends, LinkReason;
      ApplyKeepsSound(s, steps[0]);
      ApplyKeepsOwed(s, steps[0]);
      ApplyKeepsCompleted(s, steps[0], a);
      CapturedLinkIsSignalledOnce(Apply(s, steps[0]), steps[1..], a, p);
    }
  }

  /** Removing a record captures every reference held by others, with the final reason, and every link. */
  lemma RemoveCaptures(s: Shared, a: ActorId, reason: ExitReason, requested: bool)
    requires Inv(s) && a in s.records
    ensures var v := Remove(s, a, reason, requested);
      && a in v.completed && v.completed[a] == End(reason, requested)
      && (forall r: Ref :: r in s.records[a].monitorsIn && s.records[a].monitorsIn[r] != a ==> Due(v, r, a, s.records[a].monitorsIn[r], reason))
      && (forall p :: p in s.records[a].links && p != a ==> (a, p) in v.history.owed)
  {
    forall r: Ref | r in s.records[a].monitorsIn && s.records[a].monitorsIn[r] != a
      ensures Due(Remove(s, a, reason, requested), r, a, s.records[a].monitorsIn[r], reason)
    {
      assert RefFits(s, r);
    }
  }

  // ------------------------------------------------------------------ single notices

  /**
   * A watcher with room gets the down message with the final reason and nothing else happens; one
   * without is forced to end for the overflow; and nothing happens to one that is gone.
   */
  lemma WatcherIsToldOrEnds(s: Shared, a: ActorId, r: Ref, w: ActorId, room: bool)
    requires a in s.finalizers && s.finalizers[a].down == Some((r, w)) && s.finalizers[a].overflow == None
    ensures var v := ForceOverflow(SendDown(s, a, room), a);
      && v.records.Keys == s.records.Keys && (forall p :: p in s.records && p != w ==> v.records[p] == s.records[p])
      && v.history.delivered == s.history.delivered
           + (if w in s.records && room then multiset{(w, Down(r, a, s.finalizers[a].reason))} else multiset{})
      && (w in s.records ==> v.records[w] == s.records[w].(forced := if room then s.records[w].forced else Some(Overflow(w, "down"))))
      && v.history.doomed == s.history.doomed + (if w in s.records && !room then {(w, Overflow(w, "down"))} else {})
  {
  }

  /** What is done once the trap flag has been read. */
  lemma ActsAsRead(s: Shared, a: ActorId, p: ActorId, disposition: ExitDisposition, room: bool)
    requires a in s.finalizers && s.finalizers[a].peer == Some(Peer(p, Some(disposition))) && p in s.records && s.finalizers[a].overflow == None
    ensures var v, reason := ForceOverflow(Act(s, a, room), a), s.finalizers[a].linkReason;
      && v.records.Keys == s.records.Keys && (forall q :: q in s.records && q != p ==> v.records[q] == s.records[q])
      && v.records[p] == s.records[p].(forced := if disposition.KillNow? then Some(reason)
                                                 else if disposition.Enqueue? && !room then Some(Overflow(p, "exit")) else s.records[p].forced)
      && v.history.delivered
         == s.history.delivered + (if disposition.Enqueue? && room then multiset{(p, Exit(ExitSignal(a, reason, true)))} else multiset{})
  {
  }

  /**
   * Read and acted on at once, a signal forces an exit on exactly those it should kill, and reaches the
   * mailbox of exactly those that are to be told and have room; one without room is forced to end.
   */
  lemma SignalForcesTheDying(s: Shared, a: ActorId, p: ActorId, room: bool)
    requires a in s.finalizers && s.finalizers[a].peer == Some(Peer(p, None)) && p in s.records && s.finalizers[a].overflow == None
    ensures var v := ForceOverflow(Act(ReadTrap(s, a), a, room), a);
      var reason := s.finalizers[a].linkReason;
      var told := s.records[p].trapExit && reason != Kill;
      && v.records.Keys == s.records.Keys && (forall q :: q in s.records && q != p ==> v.records[q] == s.records[q])
      && v.records[p] == s.records[p].(forced := if Dies(s.records[p].trapExit, reason) then Some(reason)
                                                 else if told && !room then Some(Overflow(p, "exit")) else s.records[p].forced)
      && v.history.delivered == s.history.delivered + (if told && room then multiset{(p, Exit(ExitSignal(a, reason, true)))} else multiset{})
  {
    hide Act, ForceOverflow;
    ActsAsRead(ReadTrap(s, a), a, p, ClassifyExitSignal(s.records[p].trapExit, ExitSignal(a, s.finalizers[a].linkReason, true)), room);
  }
}
