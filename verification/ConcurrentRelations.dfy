/** Links and monitors of the concurrent runtime, as interleaved lock sections. */
module ConcurrentRelations {
  import opened Types
  import opened ExitSignals

  datatype Record = Record(
    links: set<ActorId>,
    monitorsIn: map<Ref, ActorId>,
    monitorsOut: map<Ref, ActorId>,
    trapExit: bool,
    forced: Option<ExitReason>)

  /** Why an actor ended, and whether its shutdown had been requested. */
  datatype End = End(reason: ExitReason, requested: bool)

  /** What an actor's task still has to do after it removed its own record. */
  datatype Finalizer = Finalizer(
    outgoing: map<Ref, ActorId>,         // monitors to take back
    incoming: map<Ref, ActorId>,         // watchers to forget and then to tell
    down: Option<(Ref, ActorId)>,        // the watcher forgotten but not told yet
    links: set<ActorId>,                 // links to drop and then to signal
    peer: Option<Peer>,                  // the link dropped but not signalled yet
    reason: ExitReason,
    linkReason: ExitReason,
    overflow: Option<(ActorId, string)>) // an actor whose mailbox had no room for a notice, and which one

  /** A link on its way out: dropped, and then classified by the trap flag that was read. */
  datatype Peer = Peer(actor: ActorId, disposition: Option<ExitDisposition>)

  /** What became of a notice: put into a mailbox, for nobody, without room; or no notice was called for. */
  datatype Outcome = Received | Absent | Overflowed | Killed | Ignored

  datatype Stage = Active | Pending | Answered(reason: ExitReason, outcome: Outcome) | Dropped

  /** The history of one monitor reference. */
  datatype Watch = Watch(target: ActorId, watcher: ActorId, stage: Stage)

  datatype History = History(
    watches: map<Ref, Watch>,
    delivered: multiset<(ActorId, Envelope)>,    // the notices of ends that were put into a mailbox
    doomed: set<(ActorId, ExitReason)>,          // who was told to end, and why
    owed: set<(ActorId, ActorId)>,               // links captured when a record was removed
    signals: map<(ActorId, ActorId), Outcome>,   // exits passed on along a link
    orphans: set<(ActorId, ActorId)>)            // live children and the parents that were not there to be linked back

  datatype Shared = Shared(
    records: map<ActorId, Record>,
    finalizers: map<ActorId, Finalizer>,
    completed: map<ActorId, End>,
    issued: set<ActorId>,
    nextRef: Ref,
    history: History)

  // ------------------------------------------------------------------ lock sections of a running actor

  function Put(s: Shared, a: ActorId, r: Record): Shared { s.(records := s.records[a := r]) }

  /** The link of `c` to the parent `p` is one-sided no more. */
  function Settled(s: Shared, c: ActorId, p: ActorId): Shared { s.(history := s.history.(orphans := s.history.orphans - {(c, p)})) }

  /** A link is made on both sides or not at all. */
  function Link(s: Shared, a: ActorId, b: ActorId): Shared {
    if a == b || a !in s.records || b !in s.records || b in s.records[a].links then s
    else
      var v := Put(s, a, s.records[a].(links := s.records[a].links + {b}));
      Settled(Put(v, b, v.records[b].(links := v.records[b].links + {a})), b, a)
  }

  function Unlink(s: Shared, a: ActorId, b: ActorId): Shared {
    if a == b || a !in s.records || b !in s.records || b !in s.records[a].links then s
    else
      var v := Put(s, a, s.records[a].(links := s.records[a].links - {b}));
      Settled(Put(v, b, v.records[b].(links := v.records[b].links - {a})), a, b)
  }

  function Note(s: Shared, r: Ref, w: Watch): Shared { s.(history := s.history.(watches := s.history.watches[r := w])) }

  function Doom(s: Shared, p: ActorId, reason: ExitReason): Shared { s.(history := s.history.(doomed := s.history.doomed + {(p, reason)})) }

  /**
   * Nothing is recorded for a watcher that is gone. Without another target the watcher is told at once,
   * and its turn is to end it if it has no `room` for that.
   */
  function Monitor(s: Shared, a: ActorId, b: ActorId, room: bool): Shared {
    var r := s.nextRef;
    var u := s.(nextRef := r + 1);
    if a !in s.records then Note(u, r, Watch(b, a, Dropped))
    else if b !in s.records then
      if room then
        Note(u.(history := u.history.(delivered := u.history.delivered + multiset{(a, Down(r, b, NoProc))})), r,
             Watch(b, a, Answered(NoProc, Received)))
      else Note(Doom(u, a, Error(MailboxOverflow(a, "down"))), r, Watch(b, a, Answered(NoProc, Overflowed)))
    else
      var v := Put(u, a, u.records[a].(monitorsOut := u.records[a].monitorsOut[r := b]));
      Note(Put(v, b, v.records[b].(monitorsIn := v.records[b].monitorsIn[r := a])), r, Watch(b, a, Active))
  }

  function Demonitor(s: Shared, a: ActorId, r: Ref): Shared {
    if a !in s.records || r !in s.records[a].monitorsOut then s
    else
      var b := s.records[a].monitorsOut[r];
      var v := Put(s, a, s.records[a].(monitorsOut := s.records[a].monitorsOut - {r}));
      Forget(v, b, r)
  }

  /** The target drops the reference, if both are still there. */
  function Forget(s: Shared, b: ActorId, r: Ref): Shared {
    if b !in s.records || r !in s.records[b].monitorsIn then s
    else
      Note(Put(s, b, s.records[b].(monitorsIn := s.records[b].monitorsIn - {r})), r,
           Watch(b, s.records[b].monitorsIn[r], Dropped))
  }

  function SetTrapExit(s: Shared, a: ActorId, enabled: bool): Shared {
    if a !in s.records then s else Put(s, a, s.records[a].(trapExit := enabled))
  }

  function Newborn(s: Shared, id: ActorId, links: set<ActorId>, trapExit: bool): Shared {
    Put(s.(issued := s.issued + {id}), id, Record(links, map[], map[], trapExit, None))
  }

  /**
   * A record is inserted under a fresh id; the link to the parent is made in the same lock section. The
   * parent is any id the caller names: one that is not in the table cannot be linked back.
   */
  function Spawn(s: Shared, id: ActorId, parent: Option<ActorId>, linked: bool, trapExit: bool): Shared {
    if id in s.issued then s
    else if !linked || parent == None then Newborn(s, id, {}, trapExit)
    else
      var p := parent.value;
      var v := Newborn(s, id, {p}, trapExit);
      if p == id then v
      else if p in s.records then Settled(Put(v, p, s.records[p].(links := s.records[p].links + {id})), p, id)
      else v.(history := v.history.(orphans := v.history.orphans + {(id, p)}))
  }

  /** A spawn refused for capacity or its name uses up its id. */
  function Refuse(s: Shared, id: ActorId): Shared { s.(issued := s.issued + {id}) }

  // ------------------------------------------------------------------ lock sections of a finalizer

  function Others(m: map<Ref, ActorId>, a: ActorId): map<Ref, ActorId> { map r | r in m && m[r] != a :: m[r] }

  /** The stage of every reference the removed record was the target of. */
  function Captured(watches: map<Ref, Watch>, a: ActorId, incoming: map<Ref, ActorId>): map<Ref, Watch> {
    map r | r in watches ::
      if r in incoming then watches[r].(stage := if incoming[r] == a then Dropped else Pending) else watches[r]
  }

  /** The record is removed and everything it mentions is captured, itself excepted. */
  function Remove(s: Shared, a: ActorId, reason: ExitReason, requested: bool): Shared {
    if a !in s.records then s
    else
      var e := s.records[a];
      var f := Finalizer(Others(e.monitorsOut, a), Others(e.monitorsIn, a), None, e.links - {a}, None,
                         reason, ShutdownLinkReason(requested, reason), None);
      s.(records := s.records - {a}, finalizers := s.finalizers[a := f], completed := s.completed[a := End(reason, requested)],
         history := s.history.(
           watches := Captured(s.history.watches, a, e.monitorsIn),
           owed := s.history.owed + (set p | p in e.links && p != a :: (a, p)),
           orphans := set o | o in s.history.orphans && o.0 != a))
  }

  function PutFinalizer(s: Shared, a: ActorId, f: Finalizer): Shared { s.(finalizers := s.finalizers[a := f]) }

  /** First, its own monitors are taken back one by one. */
  function TakeBack(s: Shared, a: ActorId, r: Ref): Shared {
    if a !in s.finalizers || r !in s.finalizers[a].outgoing then s
    else
      var f := s.finalizers[a];
      Forget(PutFinalizer(s, a, f.(outgoing := f.outgoing - {r})), f.outgoing[r], r)
  }

  /** Then each watcher forgets the reference ... */
  function ForgetWatcher(s: Shared, a: ActorId, r: Ref): Shared {
    if a !in s.finalizers || s.finalizers[a].outgoing != map[] || s.finalizers[a].down.Some? || s.finalizers[a].overflow.Some?
      || r !in s.finalizers[a].incoming then s
    else
      var f := s.finalizers[a];
      var w := f.incoming[r];
      var v := PutFinalizer(s, a, f.(incoming := f.incoming - {r}, down := Some((r, w))));
      if w in v.records then Put(v, w, v.records[w].(monitorsOut := v.records[w].monitorsOut - {r})) else v
  }

  /** ... and, in a later lock section, is sent the down message, if it still lives and has `room`. */
  function SendDown(s: Shared, a: ActorId, room: bool): Shared {
    if a !in s.finalizers || s.finalizers[a].down == None || s.finalizers[a].overflow.Some? then s
    else
      var f := s.finalizers[a];
      var (r, w) := f.down.value;
      var v := PutFinalizer(s, a, f.(down := None, overflow := if w in s.records && !room then Some((w, "down")) else None));
      v.(history := v.history.(
        watches := v.history.watches[
          r := Watch(a, w, Answered(f.reason, if w !in s.records then Absent else if room then Received else Overflowed))],
        delivered := if w in s.records && room then v.history.delivered + multiset{(w, Down(r, a, f.reason))} else v.history.delivered))
  }

  /** An actor without room for a notice is forced to end, in a lock section of its own. */
  function ForceOverflow(s: Shared, a: ActorId): Shared {
    if a !in s.finalizers || s.finalizers[a].overflow == None then s
    else
      var f := s.finalizers[a];
      var (p, what) := f.overflow.value;
      var v := PutFinalizer(s, a, f.(overflow := None));
      if p in v.records then Force(v, p, Error(MailboxOverflow(p, what))) else v
  }

  /** A live actor is told to end, by force. */
  function Force(s: Shared, p: ActorId, reason: ExitReason): Shared
    requires p in s.records
  {
    Doom(Put(s, p, s.records[p].(forced := Some(reason))), p, reason)
  }

  /** Last, each linked actor drops the link ... */
  function DropLink(s: Shared, a: ActorId, p: ActorId): Shared {
    if a !in s.finalizers || s.finalizers[a].outgoing != map[] || s.finalizers[a].incoming != map[] || s.finalizers[a].down.Some?
      || s.finalizers[a].overflow.Some? || s.finalizers[a].peer.Some? || p !in s.finalizers[a].links then s
    else
      var f := s.finalizers[a];
      var v := PutFinalizer(s, a, f.(links := f.links - {p}, peer := Some(Peer(p, None))));
      if p in v.records then Settled(Put(v, p, v.records[p].(links := v.records[p].links - {a})), p, a) else v
  }

  /** ... has its trap flag read; an actor that is gone needs no signal ... */
  function ReadTrap(s: Shared, a: ActorId): Shared {
    if a !in s.finalizers || s.finalizers[a].peer == None || s.finalizers[a].peer.value.disposition.Some? || s.finalizers[a].overflow.Some? then s
    else
      var f := s.finalizers[a];
      var p := f.peer.value.actor;
      if p !in s.records then Signalled(s, a, p, Absent)
      else
        var disposition := ClassifyExitSignal(s.records[p].trapExit, ExitSignal(a, f.linkReason, true));
        PutFinalizer(s, a, f.(peer := Some(Peer(p, Some(disposition)))))
  }

  /** ... and is then told, killed or left alone, as read before. */
  function Act(s: Shared, a: ActorId, room: bool): Shared {
    if a !in s.finalizers || s.finalizers[a].peer == None || s.finalizers[a].peer.value.disposition == None || s.finalizers[a].overflow.Some? then s
    else
      var f := s.finalizers[a];
      var p := f.peer.value.actor;
      match f.peer.value.disposition.value
      case Ignore => Signalled(s, a, p, Ignored)
      case KillNow => if p in s.records then Force(Signalled(s, a, p, Killed), p, f.linkReason) else Signalled(s, a, p, Absent)
      case Enqueue =>
        if p !in s.records then Signalled(s, a, p, Absent)
        else Deliver(Signalled(s, a, p, if room then Received else Overflowed), a, p, Exit(ExitSignal(a, f.linkReason, true)), "exit", room)
  }

  /** A live actor gets a notice, if there is room; otherwise it is to be forced to end. */
  function Deliver(s: Shared, a: ActorId, p: ActorId, notice: Envelope, what: string, room: bool): Shared
    requires a in s.finalizers
  {
    if room then s.(history := s.history.(delivered := s.history.delivered + multiset{(p, notice)}))
    else PutFinalizer(s, a, s.finalizers[a].(overflow := Some((p, what))))
  }

  function Signalled(s: Shared, a: ActorId, p: ActorId, outcome: Outcome): Shared
    requires a in s.finalizers
  {
    var v := PutFinalizer(s, a, s.finalizers[a].(peer := None));
    v.(history := v.history.(signals := v.history.signals[(a, p) := outcome]))
  }

  /** The finalizer ends when nothing is left to do. */
  function EndTask(s: Shared, a: ActorId): Shared {
    if a in s.finalizers && s.finalizers[a].outgoing == map[] && s.finalizers[a].incoming == map[] && s.finalizers[a].down == None
      && s.finalizers[a].links == {} && s.finalizers[a].peer == None && s.finalizers[a].overflow == None
    then s.(finalizers := s.finalizers - {a}) else s
  }

  // ------------------------------------------------------------------ invariants, reference by reference

  function Bit(b: bool): nat { if b then 1 else 0 }

  ghost predicate HasDown(f: Finalizer, r: Ref) { f.down.Some? && f.down.value.0 == r }

  /** A reference nobody has been given. */
  ghost predicate Unused(s: Shared, r: Ref) {
    && (forall a :: a in s.records ==> r !in s.records[a].monitorsIn && r !in s.records[a].monitorsOut)
    && (forall x :: x in s.finalizers ==>
          r !in s.finalizers[x].incoming && r !in s.finalizers[x].outgoing && !HasDown(s.finalizers[x], r))
  }

  /** Where a live record may mention reference `r`. */
  ghost predicate RecordFits(e: Record, a: ActorId, r: Ref, w: Watch) {
    && (r in e.monitorsIn <==> w.target == a && w.stage == Active)
    && (r in e.monitorsIn ==> e.monitorsIn[r] == w.watcher)
    && (r in e.monitorsOut ==> w.watcher == a && e.monitorsOut[r] == w.target)
  }

  /** Where a finalizer may mention it. */
  ghost predicate FinalizerFits(f: Finalizer, x: ActorId, r: Ref, w: Watch) {
    && (r in f.outgoing ==> w.watcher == x && f.outgoing[r] == w.target)
    && (r in f.incoming || HasDown(f, r) <==> w.target == x && w.stage == Pending)
    && (r in f.incoming ==> f.incoming[r] == w.watcher && !HasDown(f, r))
    && (HasDown(f, r) ==> f.down.value.1 == w.watcher)
  }

  /** What a live watcher holds: as long as the target lives, or has not forgotten it, and no longer. */
  ghost predicate WatcherFits(s: Shared, r: Ref, w: Watch) {
    && (w.watcher in s.records && w.target in s.records ==> (r in s.records[w.watcher].monitorsOut <==> w.stage == Active))
    && (w.watcher in s.records && r in s.records[w.watcher].monitorsOut && w.target !in s.records ==>
          w.target in s.finalizers && r in s.finalizers[w.target].incoming)
    && (w.stage == Active && w.watcher !in s.records ==> w.watcher in s.finalizers && r in s.finalizers[w.watcher].outgoing)
  }

  ghost predicate RefFits(s: Shared, r: Ref) {
    if r !in s.history.watches then Unused(s, r)
    else
      var w := s.history.watches[r];
      && r < s.nextRef
      && (w.stage == Active ==> w.target in s.records)
      && (w.stage == Pending ==> w.target in s.finalizers)
      && (forall a :: a in s.records ==> RecordFits(s.records[a], a, r, w))
      && (forall x :: x in s.finalizers ==> FinalizerFits(s.finalizers[x], x, r, w))
      && WatcherFits(s, r, w)
  }

  // ------------------------------------------------------------------ invariants, pair by pair

  ghost predicate HasPeer(f: Finalizer, p: ActorId) { f.peer.Some? && f.peer.value.actor == p }

  ghost predicate Owing(s: Shared, x: ActorId, p: ActorId) {
    x in s.finalizers && (p in s.finalizers[x].links || HasPeer(s.finalizers[x], p))
  }

  ghost predicate PairFits(s: Shared, x: ActorId, p: ActorId) {
    && (x in s.records && p in s.records && (p, x) !in s.history.orphans && (x, p) !in s.history.orphans ==>
          (p in s.records[x].links <==> x in s.records[p].links))
    && (p in s.records && x !in s.records && x in s.records[p].links ==>
          (x in s.finalizers && p in s.finalizers[x].links) || (p, x) in s.history.orphans)
    && Bit((x, p) in s.history.signals) + Bit(Owing(s, x, p)) == Bit((x, p) in s.history.owed)
    && (x in s.finalizers ==> !(p in s.finalizers[x].links && HasPeer(s.finalizers[x], p)))
    && ((x, p) in s.history.owed ==> x !in s.records && x in s.issued)
    && ((p, x) in s.history.orphans ==>
          p != x && p in s.records && x in s.records[p].links && (x in s.records ==> p !in s.records[x].links))
  }

  ghost predicate Base(s: Shared) {
    s.records.Keys !! s.finalizers.Keys && s.records.Keys <= s.issued && s.finalizers.Keys <= s.issued
  }

  ghost predicate Refs(s: Shared) { forall r: Ref :: RefFits(s, r) }

  ghost predicate Pairs(s: Shared) { forall x, p :: PairFits(s, x, p) }

  ghost predicate Inv(s: Shared) { Base(s) && Refs(s) && Pairs(s) }

  // ------------------------------------------------------------------ every lock section keeps them

  /** Nothing about monitors has changed. */
  ghost predicate RefsAsBefore(s: Shared, v: Shared) {
    && v.records.Keys == s.records.Keys && v.finalizers.Keys == s.finalizers.Keys
    && v.nextRef == s.nextRef && v.history.watches == s.history.watches
    && (forall a :: a in s.records ==>
          v.records[a].monitorsIn == s.records[a].monitorsIn && v.records[a].monitorsOut == s.records[a].monitorsOut)
    && (forall x :: x in s.finalizers ==>
          && v.finalizers[x].incoming == s.finalizers[x].incoming && v.finalizers[x].outgoing == s.finalizers[x].outgoing
          && v.finalizers[x].down == s.finalizers[x].down)
  }

  lemma RefsKept(s: Shared, v: Shared)
    requires RefsAsBefore(s, v) && Refs(s)
    ensures Refs(v)
  {
    forall r: Ref ensures RefFits(v, r) {
      assert RefFits(s, r);
    }
  }

  ghost predicate SameMention(e: Record, f: Record, r: Ref) {
    && (r in e.monitorsIn <==> r in f.monitorsIn) && (r in e.monitorsIn ==> e.monitorsIn[r] == f.monitorsIn[r])
    && (r in e.monitorsOut <==> r in f.monitorsOut) && (r in e.monitorsOut ==> e.monitorsOut[r] == f.monitorsOut[r])
  }

  ghost predicate SameChores(e: Finalizer, f: Finalizer, r: Ref) {
    && (r in e.incoming <==> r in f.incoming) && (r in e.incoming ==> e.incoming[r] == f.incoming[r])
    && (r in e.outgoing <==> r in f.outgoing) && (r in e.outgoing ==> e.outgoing[r] == f.outgoing[r])
    && (HasDown(e, r) <==> HasDown(f, r)) && (HasDown(e, r) ==> e.down == f.down)
  }

  /** Nothing about the reference `r` has changed. */
  ghost predicate SameAbout(s: Shared, v: Shared, r: Ref) {
    && v.records.Keys == s.records.Keys && v.finalizers.Keys == s.finalizers.Keys && s.nextRef <= v.nextRef
    && (r in s.history.watches <==> r in v.history.watches)
    && (r in s.history.watches ==> v.history.watches[r] == s.history.watches[r])
    && (forall a :: a in s.records ==> SameMention(s.records[a], v.records[a], r))
    && (forall x :: x in s.finalizers ==> SameChores(s.finalizers[x], v.finalizers[x], r))
  }

  lemma RefFrame(s: Shared, v: Shared, r: Ref)
    requires RefFits(s, r) && SameAbout(s, v, r)
    ensures RefFits(v, r)
  {
  }

  lemma SameAboutTransitive(s: Shared, v: Shared, u: Shared, r: Ref)
    requires SameAbout(s, v, r) && SameAbout(v, u, r)
    ensures SameAbout(s, u, r)
  {
  }

  lemma PutSameAbout(s: Shared, a: ActorId, e: Record, r: Ref)
    requires a in s.records && SameMention(s.records[a], e, r)
    ensures SameAbout(s, Put(s, a, e), r)
  {
  }

  lemma PutFinalizerSameAbout(s: Shared, a: ActorId, f: Finalizer, r: Ref)
    requires a in s.finalizers && SameChores(s.finalizers[a], f, r)
    ensures SameAbout(s, PutFinalizer(s, a, f), r)
  {
  }

  lemma NoteSameAbout(s: Shared, q: Ref, w: Watch, r: Ref)
    requires r != q
    ensures SameAbout(s, Note(s, q, w), r)
  {
  }

  lemma ForgetSameAbout(s: Shared, b: ActorId, q: Ref, r: Ref)
    requires r != q
    ensures SameAbout(s, Forget(s, b, q), r)
  {
    hide SameAbout, Note;
    NothingSameAbout(s, r);
    if b in s.records && q in s.records[b].monitorsIn {
      var v := Put(s, b, s.records[b].(monitorsIn := s.records[b].monitorsIn - {q}));
      var w := Watch(b, s.records[b].monitorsIn[q], Dropped);
      PutSameAbout(s, b, v.records[b], r);
      NoteSameAbout(v, q, w, r);
      SameAboutTransitive(s, v, Note(v, q, w), r);
    }
  }

  lemma NothingSameAbout(s: Shared, r: Ref)
    ensures SameAbout(s, s, r)
  {
  }

  /** Nothing about links has changed. */
  ghost predicate PairsAsBefore(s: Shared, v: Shared) {
    && v.records.Keys == s.records.Keys && v.finalizers.Keys == s.finalizers.Keys && v.issued == s.issued
    && v.history.owed == s.history.owed && v.history.signals == s.history.signals && v.history.orphans == s.history.orphans
    && (forall a :: a in s.records ==> v.records[a].links == s.records[a].links)
    && (forall x :: x in s.finalizers ==>
          v.finalizers[x].links == s.finalizers[x].links && v.finalizers[x].peer == s.finalizers[x].peer)
  }

  lemma PairsKept(s: Shared, v: Shared)
    requires PairsAsBefore(s, v) && Pairs(s)
    ensures Pairs(v)
  {
    forall x, p ensures PairFits(v, x, p) {
      assert PairFits(s, x, p);
    }
  }

  lemma LinkKeepsPairs(s: Shared, a: ActorId, b: ActorId)
    requires Base(s) && Pairs(s)
    ensures Pairs(Link(s, a, b)) && Base(Link(s, a, b))
  {
    var v := Link(s, a, b);
    forall x, p ensures PairFits(v, x, p) {
      assert PairFits(s, x, p) && PairFits(s, a, b);
    }
  }

  lemma LinkFrame(s: Shared, a: ActorId, b: ActorId)
    ensures RefsAsBefore(s, Link(s, a, b))
  {
  }

  lemma UnlinkFrame(s: Shared, a: ActorId, b: ActorId)
    ensures RefsAsBefore(s, Unlink(s, a, b))
  {
  }

  lemma LinkKeepsInv(s: Shared, a: ActorId, b: ActorId)
    requires Inv(s)
    ensures Inv(Link(s, a, b))
  {
    hide RefsAsBefore, Refs, Pairs, Base, Link;
    LinkFrame(s, a, b);
    RefsKept(s, Link(s, a, b));
    LinkKeepsPairs(s, a, b);
  }

  lemma UnlinkKeepsPairs(s: Shared, a: ActorId, b: ActorId)
    requires Base(s) && Pairs(s)
    ensures Pairs(Unlink(s, a, b)) && Base(Unlink(s, a, b))
  {
    var v := Unlink(s, a, b);
    forall x, p ensures PairFits(v, x, p) {
      assert PairFits(s, x, p) && PairFits(s, a, b);
    }
  }

  lemma UnlinkKeepsInv(s: Shared, a: ActorId, b: ActorId)
    requires Inv(s)
    ensures Inv(Unlink(s, a, b))
  {
    hide RefsAsBefore, Refs, Pairs, Base, Unlink;
    UnlinkFrame(s, a, b);
    RefsKept(s, Unlink(s, a, b));
    UnlinkKeepsPairs(s, a, b);
  }

  lemma UnrecordedReference(s: Shared, a: ActorId, b: ActorId, room: bool)
    requires RefFits(s, s.nextRef) && (a !in s.records || b !in s.records)
    ensures RefFits(Monitor(s, a, b, room), s.nextRef)
  {
  }

  lemma RecordedReference(s: Shared, a: ActorId, b: ActorId, room: bool)
    requires RefFits(s, s.nextRef) && a in s.records && b in s.records
    ensures RefFits(Monitor(s, a, b, room), s.nextRef)
  {
  }

  lemma NewReference(s: Shared, a: ActorId, b: ActorId, room: bool)
    requires RefFits(s, s.nextRef)
    ensures RefFits(Monitor(s, a, b, room), s.nextRef)
  {
    hide Monitor, RefFits;
    if a !in s.records || b !in s.records {
      UnrecordedReference(s, a, b, room);
    } else {
      RecordedReference(s, a, b, room);
    }
  }

  lemma BothNotedSameAbout(s: Shared, a: ActorId, b: ActorId, q: Ref, r: Ref)
    requires r != q && a in s.records && b in s.records
    ensures var v := Put(s, a, s.records[a].(monitorsOut := s.records[a].monitorsOut[q := b]));
      SameAbout(s, Note(Put(v, b, v.records[b].(monitorsIn := v.records[b].monitorsIn[q := a])), q, Watch(b, a, Active)), r)
  {
    hide SameAbout, Note;
    var v := Put(s, a, s.records[a].(monitorsOut := s.records[a].monitorsOut[q := b]));
    var u := Put(v, b, v.records[b].(monitorsIn := v.records[b].monitorsIn[q := a]));
    PutSameAbout(s, a, v.records[a], r);
    PutSameAbout(v, b, u.records[b], r);
    NoteSameAbout(u, q, Watch(b, a, Active), r);
    SameAboutTransitive(s, v, u, r);
    SameAboutTransitive(s, u, Note(u, q, Watch(b, a, Active)), r);
  }

  lemma MonitorTouchesOne(s: Shared, a: ActorId, b: ActorId, room: bool, r: Ref)
    requires r != s.nextRef
    ensures SameAbout(s, Monitor(s, a, b, room), r)
  {
    var q := s.nextRef;
    var u := s.(nextRef := q + 1);
    assert SameAbout(s, u, r);
    if a in s.records && b in s.records {
      BothNotedSameAbout(u, a, b, q, r);
      hide SameAbout, Note;
      SameAboutTransitive(s, u, Monitor(s, a, b, room), r);
    }
  }

  lemma MonitorKeepsRefs(s: Shared, a: ActorId, b: ActorId, room: bool)
    requires Refs(s)
    ensures Refs(Monitor(s, a, b, room))
  {
    hide Monitor, SameAbout, RefFits;
    var v := Monitor(s, a, b, room);
    assert RefFits(s, s.nextRef);
    NewReference(s, a, b, room);
    forall r: Ref ensures RefFits(v, r) {
      assert RefFits(s, r);
      if r != s.nextRef {
        MonitorTouchesOne(s, a, b, room, r);
        RefFrame(s, v, r);
      }
    }
  }

  lemma UnrecordedMonitorFrame(s: Shared, a: ActorId, b: ActorId, room: bool)
    requires a !in s.records || b !in s.records
    ensures PairsAsBefore(s, Monitor(s, a, b, room))
  {
  }

  lemma MonitorFrame(s: Shared, a: ActorId, b: ActorId, room: bool)
    ensures PairsAsBefore(s, Monitor(s, a, b, room))
  {
    if a !in s.records || b !in s.records {
      hide Monitor, PairsAsBefore;
      UnrecordedMonitorFrame(s, a, b, room);
    }
  }

  lemma MonitorKeepsBase(s: Shared, a: ActorId, b: ActorId, room: bool)
    requires Base(s)
    ensures Base(Monitor(s, a, b, room))
  {
  }

  lemma MonitorKeepsInv(s: Shared, a: ActorId, b: ActorId, room: bool)
    requires Inv(s)
    ensures Inv(Monitor(s, a, b, room))
  {
    hide PairsAsBefore, Refs, Pairs, Base, Monitor;
    MonitorFrame(s, a, b, room);
    MonitorKeepsBase(s, a, b, room);
    PairsKept(s, Monitor(s, a, b, room));
    MonitorKeepsRefs(s, a, b, room);
  }

  lemma DroppedReference(s: Shared, a: ActorId, r: Ref)
    requires RefFits(s, r)
    ensures RefFits(Demonitor(s, a, r), r)
  {
  }

  lemma DemonitorTouchesOne(s: Shared, a: ActorId, r: Ref, q: Ref)
    requires q != r
    ensures SameAbout(s, Demonitor(s, a, r), q)
  {
    hide SameAbout, Forget;
    NothingSameAbout(s, q);
    if a in s.records && r in s.records[a].monitorsOut {
      var b := s.records[a].monitorsOut[r];
      var v := Put(s, a, s.records[a].(monitorsOut := s.records[a].monitorsOut - {r}));
      PutSameAbout(s, a, v.records[a], q);
      ForgetSameAbout(v, b, r, q);
      SameAboutTransitive(s, v, Forget(v, b, r), q);
    }
  }

  lemma DemonitorKeepsRefs(s: Shared, a: ActorId, r: Ref)
    requires Refs(s)
    ensures Refs(Demonitor(s, a, r))
  {
    hide Demonitor, SameAbout, RefFits;
    var v := Demonitor(s, a, r);
    assert RefFits(s, r);
    DroppedReference(s, a, r);
    forall q: Ref ensures RefFits(v, q) {
      assert RefFits(s, q);
      if q != r {
        DemonitorTouchesOne(s, a, r, q);
        RefFrame(s, v, q);
      }
    }
  }

  lemma DemonitorFrame(s: Shared, a: ActorId, r: Ref)
    ensures PairsAsBefore(s, Demonitor(s, a, r))
    ensures Base(s) ==> Base(Demonitor(s, a, r))
  {
  }

  lemma DemonitorKeepsInv(s: Shared, a: ActorId, r: Ref)
    requires Inv(s)
    ensures Inv(Demonitor(s, a, r))
  {
    hide PairsAsBefore, Refs, Pairs, Base, Demonitor;
    DemonitorFrame(s, a, r);
    PairsKept(s, Demonitor(s, a, r));
    DemonitorKeepsRefs(s, a, r);
  }

  lemma SetTrapExitFrame(s: Shared, a: ActorId, enabled: bool)
    ensures RefsAsBefore(s, SetTrapExit(s, a, enabled)) && PairsAsBefore(s, SetTrapExit(s, a, enabled))
    ensures Base(s) ==> Base(SetTrapExit(s, a, enabled))
  {
  }

  lemma SetTrapExitKeepsInv(s: Shared, a: ActorId, enabled: bool)
    requires Inv(s)
    ensures Inv(SetTrapExit(s, a, enabled))
  {
    hide RefsAsBefore, PairsAsBefore, Refs, Pairs, Base, SetTrapExit;
    var v := SetTrapExit(s, a, enabled);
    SetTrapExitFrame(s, a, enabled);
    RefsKept(s, v);
    PairsKept(s, v);
  }

  /** A record without monitors under an unused id changes nothing about any reference. */
  lemma BirthKeepsRef(s: Shared, v: Shared, id: ActorId, r: Ref)
    requires RefFits(s, r) && id !in s.records && id !in s.finalizers && OnlyBorn(s, v, id)
    ensures RefFits(v, r)
  {
  }

  /** What a spawn does not touch. */
  ghost predicate OnlyBorn(s: Shared, v: Shared, id: ActorId) {
    && v.records.Keys == s.records.Keys + {id} && v.finalizers == s.finalizers && v.nextRef == s.nextRef
    && v.records[id].monitorsIn == map[] && v.records[id].monitorsOut == map[]
    && v.history.watches == s.history.watches
    && (forall a :: a in s.records ==>
          v.records[a].monitorsIn == s.records[a].monitorsIn && v.records[a].monitorsOut == s.records[a].monitorsOut)
  }

  lemma NewbornShape(s: Shared, id: ActorId, links: set<ActorId>, trapExit: bool)
    requires id !in s.records
    ensures OnlyBorn(s, Newborn(s, id, links, trapExit), id)
  {
  }

  /** Links and dead links may still change then. */
  lemma LinkedShape(s: Shared, v: Shared, id: ActorId, p: ActorId, links: set<ActorId>, orphans: set<(ActorId, ActorId)>)
    requires OnlyBorn(s, v, id) && p in v.records
    ensures OnlyBorn(s, Put(v, p, v.records[p].(links := links)).(history := v.history.(orphans := orphans)), id)
    ensures OnlyBorn(s, v.(history := v.history.(orphans := orphans)), id)
  {
  }

  lemma SpawnShape(s: Shared, id: ActorId, parent: Option<ActorId>, linked: bool, trapExit: bool)
    requires Base(s) && id !in s.issued
    ensures OnlyBorn(s, Spawn(s, id, parent, linked, trapExit), id)
  {
    hide OnlyBorn;
    NewbornShape(s, id, {}, trapExit);
    if linked && parent.Some? {
      var p := parent.value;
      var v := Newborn(s, id, {p}, trapExit);
      NewbornShape(s, id, {p}, trapExit);
      if p in s.records {
        LinkedShape(s, v, id, p, s.records[p].links + {id}, v.history.orphans - {(p, id)});
      } else {
        LinkedShape(s, v, id, id, {}, v.history.orphans + {(id, p)});
      }
    }
  }

  lemma SpawnKeepsRefs(s: Shared, id: ActorId, parent: Option<ActorId>, linked: bool, trapExit: bool)
    requires Base(s) && Refs(s)
    ensures Refs(Spawn(s, id, parent, linked, trapExit))
  {
    hide RefFits;
    if id !in s.issued {
      var v := Spawn(s, id, parent, linked, trapExit);
      SpawnShape(s, id, parent, linked, trapExit);
      hide Spawn, OnlyBorn;
      forall r: Ref ensures RefFits(v, r) {
        assert RefFits(s, r);
        BirthKeepsRef(s, v, id, r);
      }
    }
  }

  lemma NewbornKeepsPair(s: Shared, id: ActorId, trapExit: bool, x: ActorId, p: ActorId)
    requires Base(s) && PairFits(s, x, p) && PairFits(s, p, x) && id !in s.issued
    ensures PairFits(Newborn(s, id, {}, trapExit), x, p) && PairFits(Newborn(s, id, {id}, trapExit), x, p)
  {
  }

  lemma LinkedBirthKeepsPair(s: Shared, id: ActorId, parent: ActorId, trapExit: bool, x: ActorId, p: ActorId)
    requires Base(s) && PairFits(s, x, p) && PairFits(s, p, x) && id !in s.issued && parent in s.records
    ensures PairFits(Spawn(s, id, Some(parent), true, trapExit), x, p)
  {
  }

  lemma LateBirthKeepsPair(s: Shared, id: ActorId, parent: ActorId, trapExit: bool, x: ActorId, p: ActorId)
    requires Base(s) && PairFits(s, x, p) && PairFits(s, p, x) && id !in s.issued && parent !in s.records && parent != id
    ensures PairFits(Spawn(s, id, Some(parent), true, trapExit), x, p)
  {
  }

  lemma SpawnKeepsPair(s: Shared, id: ActorId, parent: Option<ActorId>, linked: bool, trapExit: bool, x: ActorId, p: ActorId)
    requires Base(s) && PairFits(s, x, p) && PairFits(s, p, x)
    ensures PairFits(Spawn(s, id, parent, linked, trapExit), x, p)
  {
    hide PairFits, Newborn;
    if id !in s.issued {
      NewbornKeepsPair(s, id, trapExit, x, p);
      if linked && parent.Some? && parent.value != id {
        if parent.value in s.records {
          LinkedBirthKeepsPair(s, id, parent.value, trapExit, x, p);
        } else {
          LateBirthKeepsPair(s, id, parent.value, trapExit, x, p);
        }
      }
    }
  }

  lemma SpawnKeepsPairs(s: Shared, id: ActorId, parent: Option<ActorId>, linked: bool, trapExit: bool)
    requires Base(s) && Pairs(s)
    ensures Pairs(Spawn(s, id, parent, linked, trapExit)) && Base(Spawn(s, id, parent, linked, trapExit))
  {
    hide PairFits;
    var v := Spawn(s, id, parent, linked, trapExit);
    forall x, p ensures PairFits(v, x, p) {
      assert PairFits(s, x, p) && PairFits(s, p, x);
      SpawnKeepsPair(s, id, parent, linked, trapExit, x, p);
    }
  }

  lemma SpawnKeepsInv(s: Shared, id: ActorId, parent: Option<ActorId>, linked: bool, trapExit: bool)
    requires Inv(s)
    ensures Inv(Spawn(s, id, parent, linked, trapExit))
  {
    hide Refs, Pairs, Base, Spawn;
    SpawnKeepsRefs(s, id, parent, linked, trapExit);
    SpawnKeepsPairs(s, id, parent, linked, trapExit);
  }

  lemma RefuseKeepsInv(s: Shared, id: ActorId)
    requires Inv(s)
    ensures Inv(Refuse(s, id))
  {
    var v := Refuse(s, id);
    assert RefsAsBefore(s, v) && Base(v);
    hide RefsAsBefore, Refs, Base, RefFits;
    RefsKept(s, v);
    forall x, p ensures PairFits(v, x, p) {
      assert PairFits(s, x, p);
    }
  }

  // --- the finalizer's monitors

  lemma TakeBackFrame(s: Shared, a: ActorId, r: Ref)
    ensures PairsAsBefore(s, TakeBack(s, a, r))
    ensures Base(s) ==> Base(TakeBack(s, a, r))
  {
  }

  lemma TakeBackTouchesOne(s: Shared, a: ActorId, r: Ref, q: Ref)
    requires q != r
    ensures SameAbout(s, TakeBack(s, a, r), q)
  {
    hide SameAbout, Forget;
    NothingSameAbout(s, q);
    if a in s.finalizers && r in s.finalizers[a].outgoing {
      var f := s.finalizers[a];
      var v := PutFinalizer(s, a, f.(outgoing := f.outgoing - {r}));
      PutFinalizerSameAbout(s, a, v.finalizers[a], q);
      ForgetSameAbout(v, f.outgoing[r], r, q);
      SameAboutTransitive(s, v, TakeBack(s, a, r), q);
    }
  }

  lemma TakenBackReference(s: Shared, a: ActorId, r: Ref)
    requires Base(s) && RefFits(s, r)
    ensures RefFits(TakeBack(s, a, r), r)
  {
  }

  lemma TakeBackKeepsInv(s: Shared, a: ActorId, r: Ref)
    requires Inv(s)
    ensures Inv(TakeBack(s, a, r))
  {
    hide PairsAsBefore, Pairs, Base, TakeBack, RefFits, SameAbout;
    var v := TakeBack(s, a, r);
    TakeBackFrame(s, a, r);
    PairsKept(s, v);
    assert RefFits(s, r);
    TakenBackReference(s, a, r);
    forall q: Ref ensures RefFits(v, q) {
      assert RefFits(s, q);
      if q != r {
        TakeBackTouchesOne(s, a, r, q);
        RefFrame(s, v, q);
      }
    }
  }

  lemma ForgetWatcherFrame(s: Shared, a: ActorId, r: Ref)
    ensures PairsAsBefore(s, ForgetWatcher(s, a, r))
    ensures Base(s) ==> Base(ForgetWatcher(s, a, r))
  {
  }

  lemma ForgetWatcherTouchesOne(s: Shared, a: ActorId, r: Ref, q: Ref)
    requires Base(s) && q != r
    ensures SameAbout(s, ForgetWatcher(s, a, r), q)
  {
    hide SameAbout;
    NothingSameAbout(s, q);
    var v := ForgetWatcher(s, a, r);
    if v != s {
      var f := s.finalizers[a];
      var w := f.incoming[r];
      var u := PutFinalizer(s, a, f.(incoming := f.incoming - {r}, down := Some((r, w))));
      PutFinalizerSameAbout(s, a, u.finalizers[a], q);
      NothingSameAbout(u, q);
      if w in u.records { PutSameAbout(u, w, v.records[w], q); }
      SameAboutTransitive(s, u, v, q);
    }
  }

  lemma ForgottenReference(s: Shared, a: ActorId, r: Ref)
    requires Base(s) && RefFits(s, r)
    ensures RefFits(ForgetWatcher(s, a, r), r)
  {
  }

  lemma ForgetWatcherKeepsInv(s: Shared, a: ActorId, r: Ref)
    requires Inv(s)
    ensures Inv(ForgetWatcher(s, a, r))
  {
    hide PairsAsBefore, Pairs, ForgetWatcher, RefFits, SameAbout;
    var v := ForgetWatcher(s, a, r);
    ForgetWatcherFrame(s, a, r);
    PairsKept(s, v);
    assert RefFits(s, r);
    ForgottenReference(s, a, r);
    forall q: Ref ensures RefFits(v, q) {
      assert RefFits(s, q);
      if q != r {
        ForgetWatcherTouchesOne(s, a, r, q);
        RefFrame(s, v, q);
      }
    }
  }

  lemma SendDownFrame(s: Shared, a: ActorId, room: bool)
    ensures PairsAsBefore(s, SendDown(s, a, room))
    ensures Base(s) ==> Base(SendDown(s, a, room))
  {
  }

  lemma SendDownTouchesOne(s: Shared, a: ActorId, room: bool, q: Ref)
    requires a in s.finalizers && s.finalizers[a].down.Some? && s.finalizers[a].down.value.0 != q
    ensures SameAbout(s, SendDown(s, a, room), q)
  {
  }

  lemma ToldReference(s: Shared, a: ActorId, room: bool)
    requires a in s.finalizers && s.finalizers[a].down.Some? && Base(s) && RefFits(s, s.finalizers[a].down.value.0)
    ensures RefFits(SendDown(s, a, room), s.finalizers[a].down.value.0)
  {
  }

  lemma SendDownKeepsInv(s: Shared, a: ActorId, room: bool)
    requires Inv(s)
    ensures Inv(SendDown(s, a, room))
  {
    hide PairsAsBefore, Pairs, Base, RefFits, SameAbout;
    var v := SendDown(s, a, room);
    SendDownFrame(s, a, room);
    PairsKept(s, v);
    if a in s.finalizers && s.finalizers[a].down.Some? {
      var r := s.finalizers[a].down.value.0;
      assert RefFits(s, r);
      ToldReference(s, a, room);
      hide SendDown;
      forall q: Ref ensures RefFits(v, q) {
        assert RefFits(s, q);
        if q != r {
          SendDownTouchesOne(s, a, room, q);
          RefFrame(s, v, q);
        }
      }
    }
  }

  // --- the finalizer's links

  lemma AbsentLinkFrame(s: Shared, a: ActorId, p: ActorId)
    requires p !in s.records
    ensures RefsAsBefore(s, DropLink(s, a, p))
  {
  }

  lemma PresentLinkFrame(s: Shared, a: ActorId, p: ActorId)
    requires p in s.records
    ensures RefsAsBefore(s, DropLink(s, a, p))
  {
  }

  lemma DropLinkFrame(s: Shared, a: ActorId, p: ActorId)
    ensures RefsAsBefore(s, DropLink(s, a, p))
  {
    hide RefsAsBefore, DropLink;
    if p in s.records { PresentLinkFrame(s, a, p); } else { AbsentLinkFrame(s, a, p); }
  }

  lemma DropLinkKeepsBase(s: Shared, a: ActorId, p: ActorId)
    requires Base(s)
    ensures Base(DropLink(s, a, p))
  {
  }

  lemma DropLinkKeepsPairs(s: Shared, a: ActorId, p: ActorId)
    requires Base(s) && Pairs(s)
    ensures Pairs(DropLink(s, a, p))
  {
    var v := DropLink(s, a, p);
    forall x, y ensures PairFits(v, x, y) {
      assert PairFits(s, x, y) && PairFits(s, a, p);
    }
  }

  lemma DropLinkKeepsInv(s: Shared, a: ActorId, p: ActorId)
    requires Inv(s)
    ensures Inv(DropLink(s, a, p))
  {
    hide RefsAsBefore, Refs, Pairs, Base, DropLink;
    DropLinkFrame(s, a, p);
    DropLinkKeepsBase(s, a, p);
    RefsKept(s, DropLink(s, a, p));
    DropLinkKeepsPairs(s, a, p);
  }

  lemma SignalledKeepsPairs(s: Shared, a: ActorId, p: ActorId, outcome: Outcome)
    requires Base(s) && Pairs(s) && a in s.finalizers && HasPeer(s.finalizers[a], p)
    ensures Pairs(Signalled(s, a, p, outcome))
  {
    var v := Signalled(s, a, p, outcome);
    forall x, y ensures PairFits(v, x, y) {
      assert PairFits(s, x, y);
    }
  }

  lemma SignalledFrame(s: Shared, a: ActorId, p: ActorId, outcome: Outcome)
    requires a in s.finalizers
    ensures RefsAsBefore(s, Signalled(s, a, p, outcome))
    ensures Base(s) ==> Base(Signalled(s, a, p, outcome))
  {
  }

  lemma SignalledKeepsInv(s: Shared, a: ActorId, p: ActorId, outcome: Outcome)
    requires Inv(s) && a in s.finalizers && HasPeer(s.finalizers[a], p)
    ensures Inv(Signalled(s, a, p, outcome))
  {
    hide RefsAsBefore, Refs, Pairs, Base, Signalled;
    SignalledFrame(s, a, p, outcome);
    RefsKept(s, Signalled(s, a, p, outcome));
    SignalledKeepsPairs(s, a, p, outcome);
  }

  /** Reading a trap flag only fixes what will be done. */
  lemma ClassifiedKeepsPairs(s: Shared, a: ActorId, p: ActorId, d: ExitDisposition)
    requires Pairs(s) && a in s.finalizers && HasPeer(s.finalizers[a], p)
    ensures Pairs(PutFinalizer(s, a, s.finalizers[a].(peer := Some(Peer(p, Some(d))))))
  {
    var v := PutFinalizer(s, a, s.finalizers[a].(peer := Some(Peer(p, Some(d)))));
    forall x, y ensures PairFits(v, x, y) {
      assert PairFits(s, x, y);
    }
  }

  lemma ReadTrapKeepsInv(s: Shared, a: ActorId)
    requires Inv(s)
    ensures Inv(ReadTrap(s, a))
  {
    if a in s.finalizers && s.finalizers[a].peer.Some? && s.finalizers[a].peer.value.disposition == None {
      var p := s.finalizers[a].peer.value.actor;
      if p !in s.records {
        hide Inv;
        SignalledKeepsInv(s, a, p, Absent);
      } else {
        var d := ClassifyExitSignal(s.records[p].trapExit, ExitSignal(a, s.finalizers[a].linkReason, true));
        assert RefsAsBefore(s, ReadTrap(s, a)) && Base(ReadTrap(s, a));
        hide RefsAsBefore, Refs, Pairs, Base, ClassifyExitSignal;
        RefsKept(s, ReadTrap(s, a));
        ClassifiedKeepsPairs(s, a, p, d);
      }
    }
  }

  lemma OverflowFrame(s: Shared, a: ActorId, overflow: Option<(ActorId, string)>)
    requires a in s.finalizers
    ensures var v := PutFinalizer(s, a, s.finalizers[a].(overflow := overflow));
      RefsAsBefore(s, v) && PairsAsBefore(s, v) && (Base(s) ==> Base(v))
  {
  }

  lemma OverflowKeepsInv(s: Shared, a: ActorId, overflow: Option<(ActorId, string)>)
    requires Inv(s) && a in s.finalizers
    ensures Inv(PutFinalizer(s, a, s.finalizers[a].(overflow := overflow)))
  {
    hide RefsAsBefore, PairsAsBefore, Refs, Pairs, Base, PutFinalizer;
    var v := PutFinalizer(s, a, s.finalizers[a].(overflow := overflow));
    OverflowFrame(s, a, overflow);
    RefsKept(s, v);
    PairsKept(s, v);
  }

  lemma DeliverKeepsInv(s: Shared, a: ActorId, p: ActorId, notice: Envelope, what: string, room: bool)
    requires Inv(s) && a in s.finalizers
    ensures Inv(Deliver(s, a, p, notice, what, room))
  {
    var v := Deliver(s, a, p, notice, what, room);
    if room {
      assert RefsAsBefore(s, v) && PairsAsBefore(s, v) && Base(v);
      hide RefsAsBefore, PairsAsBefore, Refs, Pairs, Base, Deliver;
      RefsKept(s, v);
      PairsKept(s, v);
    } else {
      hide Inv, PutFinalizer;
      OverflowKeepsInv(s, a, Some((p, what)));
    }
  }

  lemma ForceOverflowKeepsInv(s: Shared, a: ActorId)
    requires Inv(s)
    ensures Inv(ForceOverflow(s, a))
  {
    hide Inv;
    if a in s.finalizers && s.finalizers[a].overflow.Some? {
      var (p, what) := s.finalizers[a].overflow.value;
      OverflowKeepsInv(s, a, None);
      var v := PutFinalizer(s, a, s.finalizers[a].(overflow := None));
      if p in v.records { ForcedKeepsInv(v, p, Error(MailboxOverflow(p, what))); }
    }
  }

  lemma ForcedKeepsInv(s: Shared, p: ActorId, reason: ExitReason)
    requires Inv(s) && p in s.records
    ensures Inv(Force(s, p, reason))
  {
    var v := Force(s, p, reason);
    assert RefsAsBefore(s, v) && PairsAsBefore(s, v) && Base(v);
    hide RefsAsBefore, PairsAsBefore, Refs, Pairs, Base;
    RefsKept(s, v);
    PairsKept(s, v);
  }

  lemma ActKeepsInv(s: Shared, a: ActorId, room: bool)
    requires Inv(s)
    ensures Inv(Act(s, a, room))
  {
    hide Inv;
    if a in s.finalizers && s.finalizers[a].peer.Some? && s.finalizers[a].peer.value.disposition.Some? {
      var f := s.finalizers[a];
      var p := f.peer.value.actor;
      forall outcome ensures Inv(Signalled(s, a, p, outcome)) { SignalledKeepsInv(s, a, p, outcome); }
      if p in s.records {
        ForcedKeepsInv(Signalled(s, a, p, Killed), p, f.linkReason);
        DeliverKeepsInv(Signalled(s, a, p, if room then Received else Overflowed), a, p, Exit(ExitSignal(a, f.linkReason, true)), "exit", room);
      }
    }
  }

  // --- the finalizer's end

  lemma EndTaskKeepsRefs(s: Shared, a: ActorId)
    requires Base(s) && Refs(s)
    ensures Refs(EndTask(s, a))
  {
    var v := EndTask(s, a);
    forall r: Ref ensures RefFits(v, r) {
      assert RefFits(s, r);
    }
  }

  lemma EndTaskKeepsPairs(s: Shared, a: ActorId)
    requires Base(s) && Pairs(s)
    ensures Pairs(EndTask(s, a)) && Base(EndTask(s, a))
  {
    var v := EndTask(s, a);
    forall x, p ensures PairFits(v, x, p) {
      assert PairFits(s, x, p);
    }
  }

  lemma EndTaskKeepsInv(s: Shared, a: ActorId)
    requires Inv(s)
    ensures Inv(EndTask(s, a))
  {
    hide Refs, Pairs, Base, EndTask;
    EndTaskKeepsRefs(s, a);
    EndTaskKeepsPairs(s, a);
  }

  // --- removing a record

  lemma RemoveKeepsUnused(s: Shared, a: ActorId, reason: ExitReason, requested: bool, r: Ref)
    requires Base(s) && Unused(s, r)
    ensures Unused(Remove(s, a, reason, requested), r)
  {
  }

  lemma RemoveKeepsFinalizers(s: Shared, a: ActorId, reason: ExitReason, requested: bool, r: Ref)
    requires Base(s) && RefFits(s, r) && r in s.history.watches
    ensures var v := Remove(s, a, reason, requested);
      r in v.history.watches && forall x :: x in v.finalizers ==> FinalizerFits(v.finalizers[x], x, r, v.history.watches[r])
  {
    hide Unused, WatcherFits;
  }

  lemma RemoveKeepsWatcher(s: Shared, a: ActorId, reason: ExitReason, requested: bool, r: Ref)
    requires Base(s) && RefFits(s, r) && r in s.history.watches
    ensures var v := Remove(s, a, reason, requested);
      r in v.history.watches && WatcherFits(v, r, v.history.watches[r])
  {
    hide Unused, FinalizerFits;
  }

  lemma RemoveKeepsUsed(s: Shared, a: ActorId, reason: ExitReason, requested: bool, r: Ref)
    requires Base(s) && RefFits(s, r) && r in s.history.watches
    ensures RefFits(Remove(s, a, reason, requested), r)
  {
    hide Unused, FinalizerFits, WatcherFits;
    RemoveKeepsFinalizers(s, a, reason, requested, r);
    RemoveKeepsWatcher(s, a, reason, requested, r);
  }

  lemma RemoveKeepsRef(s: Shared, a: ActorId, reason: ExitReason, requested: bool, r: Ref)
    requires Base(s) && RefFits(s, r)
    ensures RefFits(Remove(s, a, reason, requested), r)
  {
    if r in s.history.watches {
      RemoveKeepsUsed(s, a, reason, requested, r);
    } else {
      hide Base, Unused;
      RemoveKeepsUnused(s, a, reason, requested, r);
    }
  }

  lemma RemoveKeepsPair(s: Shared, a: ActorId, reason: ExitReason, requested: bool, x: ActorId, p: ActorId)
    requires Base(s) && PairFits(s, x, p) && PairFits(s, p, x)
    ensures PairFits(Remove(s, a, reason, requested), x, p)
  {
  }

  lemma RemoveKeepsInv(s: Shared, a: ActorId, reason: ExitReason, requested: bool)
    requires Inv(s)
    ensures Inv(Remove(s, a, reason, requested))
  {
    hide RefFits, PairFits, Remove;
    var v := Remove(s, a, reason, requested);
    forall r: Ref ensures RefFits(v, r) {
      assert RefFits(s, r);
      RemoveKeepsRef(s, a, reason, requested, r);
    }
    forall x, p ensures PairFits(v, x, p) {
      assert PairFits(s, x, p) && PairFits(s, p, x);
      RemoveKeepsPair(s, a, reason, requested, x, p);
    }
    RemoveKeepsBase(s, a, reason, requested);
  }

  lemma RemoveKeepsBase(s: Shared, a: ActorId, reason: ExitReason, requested: bool)
    requires Base(s)
    ensures Base(Remove(s, a, reason, requested))
  {
  }

  // ------------------------------------------------------------------ any interleaving

  datatype Section =
    | DoLink(a: ActorId, b: ActorId)
    | DoUnlink(a: ActorId, b: ActorId)
    | DoMonitor(a: ActorId, b: ActorId, room: bool)
    | DoDemonitor(a: ActorId, r: Ref)
    | DoSetTrapExit(a: ActorId, enabled: bool)
    | DoSpawn(id: ActorId, parent: Option<ActorId>, linked: bool, trapExit: bool)
    | DoRefuse(id: ActorId)
    | DoRemove(a: ActorId, reason: ExitReason, requested: bool)
    | DoTakeBack(a: ActorId, r: Ref)
    | DoForgetWatcher(a: ActorId, r: Ref)
    | DoSendDown(a: ActorId, room: bool)
    | DoForceOverflow(a: ActorId)
    | DoDropLink(a: ActorId, p: ActorId)
    | DoReadTrap(a: ActorId)
    | DoAct(a: ActorId, room: bool)
    | DoEndTask(a: ActorId)

  function Apply(s: Shared, step: Section): Shared {
    match step
    case DoLink(a, b) => Link(s, a, b)
    case DoUnlink(a, b) => Unlink(s, a, b)
    case DoMonitor(a, b, room) => Monitor(s, a, b, room)
    case DoDemonitor(a, r) => Demonitor(s, a, r)
    case DoSetTrapExit(a, enabled) => SetTrapExit(s, a, enabled)
    case DoSpawn(id, parent, linked, trapExit) => Spawn(s, id, parent, linked, trapExit)
    case DoRefuse(id) => Refuse(s, id)
    case DoRemove(a, reason, requested) => Remove(s, a, reason, requested)
    case DoTakeBack(a, r) => TakeBack(s, a, r)
    case DoForgetWatcher(a, r) => ForgetWatcher(s, a, r)
    case DoSendDown(a, room) => SendDown(s, a, room)
    case DoForceOverflow(a) => ForceOverflow(s, a)
    case DoDropLink(a, p) => DropLink(s, a, p)
    case DoReadTrap(a) => ReadTrap(s, a)
    case DoAct(a, room) => Act(s, a, room)
    case DoEndTask(a) => EndTask(s, a)
  }

  function Run(s: Shared, steps: seq<Section>): Shared
    decreases |steps|
  {
    if steps == [] then s else Run(Apply(s, steps[0]), steps[1..])
  }

  lemma ApplyKeepsInv(s: Shared, step: Section)
    requires Inv(s)
    ensures Inv(Apply(s, step))
  {
    hide Inv, Link, Unlink, Monitor, Demonitor, SetTrapExit, Spawn, Refuse, Remove, TakeBack, ForgetWatcher, SendDown, ForceOverflow, DropLink, ReadTrap, Act, EndTask;
    match step
    case DoLink(a, b) => LinkKeepsInv(s, a, b);
    case DoUnlink(a, b) => UnlinkKeepsInv(s, a, b);
    case DoMonitor(a, b, room) => MonitorKeepsInv(s, a, b, room);
    case DoDemonitor(a, r) => DemonitorKeepsInv(s, a, r);
    case DoSetTrapExit(a, enabled) => SetTrapExitKeepsInv(s, a, enabled);
    case DoSpawn(id, parent, linked, trapExit) => SpawnKeepsInv(s, id, parent, linked, trapExit);
    case DoRefuse(id) => RefuseKeepsInv(s, id);
    case DoRemove(a, reason, requested) => RemoveKeepsInv(s, a, reason, requested);
    case DoTakeBack(a, r) => TakeBackKeepsInv(s, a, r);
    case DoForgetWatcher(a, r) => ForgetWatcherKeepsInv(s, a, r);
    case DoSendDown(a, room) => SendDownKeepsInv(s, a, room);
    case DoForceOverflow(a) => ForceOverflowKeepsInv(s, a);
    case DoDropLink(a, p) => DropLinkKeepsInv(s, a, p);
    case DoReadTrap(a) => ReadTrapKeepsInv(s, a);
    case DoAct(a, room) => ActKeepsInv(s, a, room);
    case DoEndTask(a) => EndTaskKeepsInv(s, a);
  }

  lemma {:induction false} RunKeepsInv(s: Shared, steps: seq<Section>)
    requires Inv(s)
    ensures Inv(Run(s, steps))
    decreases |steps|
  {
    hide Inv, Apply;
    if steps != [] {
      ApplyKeepsInv(s, steps[0]);
      RunKeepsInv(Apply(s, steps[0]), steps[1..]);
    }
  }

  // --- what is owed stays owed, and most sections leave the history of references alone

  /** The other sections do not write the history of any reference. */
  lemma OthersKeepWatches(s: Shared, step: Section)
    requires !step.DoMonitor? && !step.DoDemonitor? && !step.DoTakeBack? && !step.DoSendDown? && !step.DoRemove?
    ensures Apply(s, step).history.watches == s.history.watches
  {
    hide ForgetWatcher, ForceOverflow, DropLink, ReadTrap, Act;
    match step
    case DoForgetWatcher(a, r) => ForgettingKeepsWatches(s, a, r);
    case DoForceOverflow(a) => ForgettingKeepsWatches(s, a, 0);
    case DoDropLink(a, p) => SignallingKeepsWatches(s, a, p, true);
    case DoReadTrap(a) => SignallingKeepsWatches(s, a, a, true);
    case DoAct(a, room) => SignallingKeepsWatches(s, a, a, room);
    case _ =>
  }

  lemma ForgettingKeepsWatches(s: Shared, a: ActorId, r: Ref)
    ensures ForgetWatcher(s, a, r).history.watches == s.history.watches
    ensures ForceOverflow(s, a).history.watches == s.history.watches
  {
  }

  lemma SignallingKeepsWatches(s: Shared, a: ActorId, p: ActorId, room: bool)
    ensures DropLink(s, a, p).history.watches == s.history.watches
    ensures ReadTrap(s, a).history.watches == s.history.watches
    ensures Act(s, a, room).history.watches == s.history.watches
  {
  }

  /** No end is recorded, and nothing captured. */
  ghost predicate SameEnds(s: Shared, v: Shared) { v.completed == s.completed && v.history.owed == s.history.owed }

  lemma RunningKeepsEnds(s: Shared, a: ActorId, b: ActorId, room: bool, r: Ref)
    ensures SameEnds(s, Link(s, a, b)) && SameEnds(s, Unlink(s, a, b)) && SameEnds(s, Monitor(s, a, b, room)) && SameEnds(s, Demonitor(s, a, r))
  {
  }

  lemma SpawningKeepsEnds(s: Shared, id: ActorId, parent: Option<ActorId>, linked: bool, trapExit: bool)
    ensures SameEnds(s, Spawn(s, id, parent, linked, trapExit)) && SameEnds(s, Refuse(s, id)) && SameEnds(s, SetTrapExit(s, id, trapExit))
  {
  }

  lemma TellingKeepsEnds(s: Shared, a: ActorId, r: Ref, room: bool)
    ensures SameEnds(s, TakeBack(s, a, r)) && SameEnds(s, ForgetWatcher(s, a, r)) && SameEnds(s, SendDown(s, a, room))
    ensures SameEnds(s, ForceOverflow(s, a)) && SameEnds(s, EndTask(s, a))
  {
  }

  lemma SignallingKeepsEnds(s: Shared, a: ActorId, p: ActorId, room: bool)
    ensures SameEnds(s, DropLink(s, a, p)) && SameEnds(s, ReadTrap(s, a)) && SameEnds(s, Act(s, a, room))
  {
  }

  /** Only the removal of a record does that. */
  lemma OthersKeepEnds(s: Shared, step: Section)
    requires !step.DoRemove?
    ensures SameEnds(s, Apply(s, step))
  {
    hide SameEnds, Link, Unlink, Monitor, Demonitor, SetTrapExit, Spawn, Refuse, TakeBack, ForgetWatcher, SendDown, ForceOverflow, DropLink,
      ReadTrap, Act, EndTask;
    match step
    case DoLink(a, b) => RunningKeepsEnds(s, a, b, true, 0);
    case DoUnlink(a, b) => RunningKeepsEnds(s, a, b, true, 0);
    case DoMonitor(a, b, room) => RunningKeepsEnds(s, a, b, room, 0);
    case DoDemonitor(a, r) => RunningKeepsEnds(s, a, a, true, r);
    case DoSetTrapExit(a, enabled) => SpawningKeepsEnds(s, a, None, false, enabled);
    case DoSpawn(id, parent, linked, trapExit) => SpawningKeepsEnds(s, id, parent, linked, trapExit);
    case DoRefuse(id) => SpawningKeepsEnds(s, id, None, false, true);
    case DoTakeBack(a, r) => TellingKeepsEnds(s, a, r, true);
    case DoForgetWatcher(a, r) => TellingKeepsEnds(s, a, r, true);
    case DoSendDown(a, room) => TellingKeepsEnds(s, a, 0, room);
    case DoForceOverflow(a) => TellingKeepsEnds(s, a, 0, true);
    case DoDropLink(a, p) => SignallingKeepsEnds(s, a, p, true);
    case DoReadTrap(a) => SignallingKeepsEnds(s, a, a, true);
    case DoAct(a, room) => SignallingKeepsEnds(s, a, a, room);
    case DoEndTask(a) => TellingKeepsEnds(s, a, 0, true);
  }

  lemma ApplyKeepsOwed(s: Shared, step: Section)
    ensures s.history.owed <= Apply(s, step).history.owed
  {
    if !step.DoRemove? {
      hide Apply;
      OthersKeepEnds(s, step);
    }
  }

  // --- what the invariants mean

  ghost predicate LinkedBothWays(s: Shared, a: ActorId, b: ActorId)
    requires a in s.records && b in s.records
  {
    b in s.records[a].links <==> a in s.records[b].links
  }

  ghost predicate MonitoredBothWays(s: Shared, a: ActorId, b: ActorId)
    requires a in s.records && b in s.records
  {
    forall r :: (r in s.records[a].monitorsOut && s.records[a].monitorsOut[r] == b)
           <==> (r in s.records[b].monitorsIn && s.records[b].monitorsIn[r] == a)
  }

  /**
   * At every lock release, monitors are paired among live records, and links are symmetric, unless one
   * of the two was born linked to the other before the other was in the table.
   */
  lemma RelationsAreMutual(s: Shared, a: ActorId, b: ActorId)
    requires Inv(s) && a in s.records && b in s.records
    ensures MonitoredBothWays(s, a, b)
    ensures LinkedBothWays(s, a, b) <==> (a, b) !in s.history.orphans && (b, a) !in s.history.orphans
  {
    assert PairFits(s, a, b) && PairFits(s, b, a);
    forall r: Ref
      ensures (r in s.records[a].monitorsOut && s.records[a].monitorsOut[r] == b)
          <==> (r in s.records[b].monitorsIn && s.records[b].monitorsIn[r] == a)
    {
      assert RefFits(s, r);
    }
  }

  /** Every link made at birth is to a parent that has been spawned, if not necessarily to one that still lives. */
  ghost predicate ParentsIssued(s: Shared, steps: seq<Section>)
    decreases |steps|
  {
    steps == [] ||
    ((match steps[0]
      case DoSpawn(id, Some(p), true, _) => p in s.issued || p == id
      case _ => true)
     && ParentsIssued(Apply(s, steps[0]), steps[1..]))
  }

  /** Whoever is missing a link back has gone for good. */
  ghost predicate OrphansOfTheDead(s: Shared) {
    forall o :: o in s.history.orphans ==> o.1 in s.issued && o.1 !in s.records
  }

  /** Nobody comes or goes, and no link becomes one-sided. */
  ghost predicate SameTable(s: Shared, v: Shared) {
    v.records.Keys == s.records.Keys && s.issued <= v.issued && v.history.orphans <= s.history.orphans
  }

  lemma MonitoringKeepsTable(s: Shared, a: ActorId, b: ActorId, room: bool, r: Ref)
    ensures SameTable(s, Monitor(s, a, b, room)) && SameTable(s, Demonitor(s, a, r)) && SameTable(s, TakeBack(s, a, r))
  {
  }

  lemma TellingKeepsTable(s: Shared, a: ActorId, r: Ref, room: bool)
    ensures SameTable(s, ForgetWatcher(s, a, r)) && SameTable(s, SendDown(s, a, room)) && SameTable(s, ForceOverflow(s, a))
  {
  }

  lemma SignallingKeepsTable(s: Shared, a: ActorId, p: ActorId, room: bool)
    ensures SameTable(s, DropLink(s, a, p)) && SameTable(s, ReadTrap(s, a)) && SameTable(s, Act(s, a, room)) && SameTable(s, EndTask(s, a))
  {
  }

  lemma ApplyKeepsTable(s: Shared, step: Section)
    requires !step.DoSpawn? && !step.DoRemove?
    ensures SameTable(s, Apply(s, step))
  {
    hide Monitor, Demonitor, TakeBack, ForgetWatcher, SendDown, ForceOverflow, DropLink, ReadTrap, Act, EndTask;
    match step
    case DoMonitor(a, b, room) => MonitoringKeepsTable(s, a, b, room, 0);
    case DoDemonitor(a, r) => MonitoringKeepsTable(s, a, a, true, r);
    case DoTakeBack(a, r) => MonitoringKeepsTable(s, a, a, true, r);
    case DoForgetWatcher(a, r) => TellingKeepsTable(s, a, r, true);
    case DoSendDown(a, room) => TellingKeepsTable(s, a, 0, room);
    case DoForceOverflow(a) => TellingKeepsTable(s, a, 0, true);
    case DoDropLink(a, p) => SignallingKeepsTable(s, a, p, true);
    case DoReadTrap(a) => SignallingKeepsTable(s, a, a, true);
    case DoAct(a, room) => SignallingKeepsTable(s, a, a, room);
    case DoEndTask(a) => SignallingKeepsTable(s, a, a, true);
    case _ =>
  }

  lemma ApplyKeepsOrphansOfTheDead(s: Shared, step: Section)
    requires OrphansOfTheDead(s) && ParentsIssued(s, [step])
    ensures OrphansOfTheDead(Apply(s, step))
  {
    if !step.DoSpawn? && !step.DoRemove? {
      hide Apply;
      ApplyKeepsTable(s, step);
    }
  }

  /** Then links among live records are symmetric after every run. */
  lemma {:induction false} LinksStayMutual(s: Shared, steps: seq<Section>, a: ActorId, b: ActorId)
    requires Inv(s) && OrphansOfTheDead(s) && ParentsIssued(s, steps)
    ensures var v := Run(s, steps); a in v.records && b in v.records ==> LinkedBothWays(v, a, b)
    decreases |steps|
  {
    hide Inv, Apply;
    if steps == [] {
      if a in s.records && b in s.records { RelationsAreMutual(s, a, b); }
    } else {
      ApplyKeepsInv(s, steps[0]);
      assert [steps[0]][1..] == [];
      ApplyKeepsOrphansOfTheDead(s, steps[0]);
      LinksStayMutual(Apply(s, steps[0]), steps[1..], a, b);
    }
  }

  /** It takes a caller that names a parent before it exists: the child's link to it is one-sided. */
  lemma ParentSpawnedLater(s: Shared, c: ActorId, p: ActorId, trapExit: bool)
    requires Inv(s) && p !in s.issued && c !in s.issued && c != p
    ensures var v := Spawn(Spawn(s, c, Some(p), true, trapExit), p, None, false, trapExit);
      c in v.records && p in v.records && !LinkedBothWays(v, c, p)
  {
    hide Inv;
  }

  /** Once its finalizer has ended, an actor is mentioned only by children born linked to it too late. */
  lemma EndedIsForgotten(s: Shared, a: ActorId, b: ActorId)
    requires Inv(s) && a !in s.records && a !in s.finalizers && b in s.records
    ensures a in s.records[b].links <==> (b, a) in s.history.orphans
    ensures forall r :: r in s.records[b].monitorsOut ==> s.records[b].monitorsOut[r] != a
    ensures forall r :: r in s.records[b].monitorsIn ==> s.records[b].monitorsIn[r] != a
  {
    assert PairFits(s, a, b);
    forall r: Ref
      ensures r in s.records[b].monitorsOut ==> s.records[b].monitorsOut[r] != a
      ensures r in s.records[b].monitorsIn ==> s.records[b].monitorsIn[r] != a
    {
      assert RefFits(s, r);
    }
  }

  const NOBODY := Shared(map[], map[], map[], {}, 1, History(map[], multiset{}, {}, {}, map[], {}))

  lemma NobodyIsConsistent()
    ensures Inv(NOBODY)
  {
  }

  /** The child's link to a parent that has gone, and whose finalizer does not know of it. */
  ghost predicate DeadLink(s: Shared, c: ActorId, p: ActorId) {
    && c in s.issued && p in s.issued && p !in s.records && (p in s.finalizers ==> c !in s.finalizers[p].links)
    && (c in s.records ==> p in s.records[c].links)
  }

  /** What keeps such a link as it is: the parent stays away, and nobody takes a link from a live record or adds to a finalizer. */
  ghost predicate KeepsLinks(s: Shared, v: Shared, c: ActorId, p: ActorId) {
    && s.issued <= v.issued && (p !in s.records && p in s.issued ==> p !in v.records)
    && (c in v.records && c in s.issued ==> c in s.records && (p in s.records[c].links ==> p in v.records[c].links))
    && (p in v.finalizers && p !in s.records ==> p in s.finalizers && v.finalizers[p].links <= s.finalizers[p].links)
  }

  lemma RunningKeepsLinks(s: Shared, step: Section, c: ActorId, p: ActorId)
    requires p !in s.records && p in s.issued && !step.DoRemove? && !step.DoSpawn?
    requires step.DoLink? || step.DoUnlink? || step.DoMonitor? || step.DoDemonitor? || step.DoSetTrapExit? || step.DoRefuse?
    ensures KeepsLinks(s, Apply(s, step), c, p)
  {
  }

  lemma MembershipKeepsLinks(s: Shared, step: Section, c: ActorId, p: ActorId)
    requires p !in s.records && p in s.issued && (step.DoRemove? || step.DoSpawn?)
    ensures KeepsLinks(s, Apply(s, step), c, p)
  {
  }

  lemma TellingKeepsLinks(s: Shared, a: ActorId, r: Ref, room: bool, c: ActorId, p: ActorId)
    requires p !in s.records && p in s.issued
    ensures KeepsLinks(s, TakeBack(s, a, r), c, p) && KeepsLinks(s, ForgetWatcher(s, a, r), c, p)
    ensures KeepsLinks(s, SendDown(s, a, room), c, p)
  {
  }

  lemma EndingKeepsLinks(s: Shared, a: ActorId, c: ActorId, p: ActorId)
    requires p !in s.records && p in s.issued
    ensures KeepsLinks(s, ForceOverflow(s, a), c, p) && KeepsLinks(s, EndTask(s, a), c, p)
  {
  }

  lemma SignallingKeepsLinks(s: Shared, a: ActorId, q: ActorId, room: bool, c: ActorId, p: ActorId)
    requires DeadLink(s, c, p)
    ensures KeepsLinks(s, DropLink(s, a, q), c, p) && KeepsLinks(s, ReadTrap(s, a), c, p) && KeepsLinks(s, Act(s, a, room), c, p)
  {
    DroppingKeepsLinks(s, a, q, c, p);
    hide DropLink;
  }

  lemma DroppingKeepsLinks(s: Shared, a: ActorId, q: ActorId, c: ActorId, p: ActorId)
    requires DeadLink(s, c, p)
    ensures KeepsLinks(s, DropLink(s, a, q), c, p)
  {
  }

  lemma ApplyKeepsDeadLink(s: Shared, step: Section, c: ActorId, p: ActorId)
    requires DeadLink(s, c, p)
    ensures DeadLink(Apply(s, step), c, p)
  {
    assert KeepsLinks(s, Apply(s, step), c, p) by {
      hide KeepsLinks, DeadLink, TakeBack, ForgetWatcher, SendDown, ForceOverflow, DropLink, ReadTrap, Act, EndTask;
      DeadParent(s, c, p);
      match step
      case DoRemove(_, _, _) => MembershipKeepsLinks(s, step, c, p);
      case DoSpawn(_, _, _, _) => MembershipKeepsLinks(s, step, c, p);
      case DoTakeBack(a, r) => TellingKeepsLinks(s, a, r, true, c, p);
      case DoForgetWatcher(a, r) => TellingKeepsLinks(s, a, r, true, c, p);
      case DoSendDown(a, room) => TellingKeepsLinks(s, a, 0, room, c, p);
      case DoForceOverflow(a) => EndingKeepsLinks(s, a, c, p);
      case DoEndTask(a) => EndingKeepsLinks(s, a, c, p);
      case DoDropLink(a, q) => SignallingKeepsLinks(s, a, q, true, c, p);
      case DoReadTrap(a) => SignallingKeepsLinks(s, a, a, true, c, p);
      case DoAct(a, room) => SignallingKeepsLinks(s, a, a, room, c, p);
      case _ => RunningKeepsLinks(s, step, c, p);
    }
    hide Apply;
  }

  lemma DeadParent(s: Shared, c: ActorId, p: ActorId)
    requires DeadLink(s, c, p)
    ensures p in s.issued && p !in s.records
  {
  }

  lemma {:induction false} RunKeepsDeadLink(s: Shared, steps: seq<Section>, c: ActorId, p: ActorId)
    requires DeadLink(s, c, p)
    ensures DeadLink(Run(s, steps), c, p)
    decreases |steps|
  {
    hide DeadLink, Apply;
    if steps != [] {
      ApplyKeepsDeadLink(s, steps[0], c, p);
      RunKeepsDeadLink(Apply(s, steps[0]), steps[1..], c, p);
    }
  }

  /**
   * Such a child exists: spawned under a parent that has gone, it is born with a link that nobody drops
   * as long as it lives, whatever else happens.
   */
  lemma LateChildKeepsDeadLink(s: Shared, c: ActorId, p: ActorId, trapExit: bool, steps: seq<Section>)
    requires Inv(s) && p in s.issued && p !in s.records && c !in s.issued && (p in s.finalizers ==> c !in s.finalizers[p].links)
    ensures var born := Spawn(s, c, Some(p), true, trapExit);
      && Inv(born) && c in born.records && born.records[c].links == {p} && (c, p) in born.history.orphans
      && (c in Run(born, steps).records ==> p in Run(born, steps).records[c].links)
  {
    var born := Spawn(s, c, Some(p), true, trapExit);
    assert DeadLink(born, c, p);
    hide Inv, Run;
    SpawnKeepsInv(s, c, Some(p), true, trapExit);
    RunKeepsDeadLink(born, steps, c, p);
  }
}
