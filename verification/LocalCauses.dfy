/** Why each actor of an exit cascade ends, why the others do not, and what the log says of it. */
module LocalCauses {
  import opened Types
  import opened Mailboxes
  import opened ExitSignals
  import opened LocalState
  import opened LocalCascade

  // ------------------------------------------------------------------ what the ended tell the others

  /** All who have ended, those still being worked off included. */
  ghost function Over(a: World, b: World, gone: map<ActorId, Verdict>): set<ActorId> { Finished(a, b) + gone.Keys }

  /** The reason an ended actor passes on to its links. */
  ghost function Told(a: World, b: World, gone: map<ActorId, Verdict>, y: ActorId): ExitReason {
    if y in gone then gone[y].link
    else if y in b.completed then ShutdownLinkReason(y in a.tasks, b.completed[y])
    else Normal
  }

  ghost function RefsTo(m: map<Ref, ActorId>, dead: set<ActorId>): set<Ref> { set r | r in m && m[r] in dead }

  /** How many notices the end of everyone in `dead` brings to an actor. */
  ghost function Owed(x: Actor, dead: set<ActorId>): nat {
    |RefsTo(x.monitorsOut, dead)| + if x.trapExit then |x.links * dead| else 0
  }

  /** More notices than its mailbox has room for. */
  ghost predicate Crowded(x: Actor, dead: set<ActorId>) {
    x.mailbox.capacity != USIZE_MAX && |x.mailbox.queue| + Owed(x, dead) > x.mailbox.capacity
  }

  // ------------------------------------------------------------------ why an actor ends

  /** A link told the reason, or there was no room for the exit, or for the down message of a reference. */
  datatype Cause = ByLink(teller: ActorId) | NoRoomForExit(teller: ActorId) | NoRoomForDown(teller: ActorId, reference: Ref)

  /** `x` was recorded as ended before `y`, which set off its end and is recorded when that is worked off. */
  ghost predicate Within(a: World, b: World, x: ActorId, y: ActorId) {
    && x in b.completed && y in b.completed
    && exists i, j :: |a.log| <= i < j < |b.log| && b.log[i] == ExitEvent(x, b.completed[x]) && b.log[j] == ExitEvent(y, b.completed[y])
  }

  ghost predicate Caused(a: World, b: World, gone: map<ActorId, Verdict>, x: ActorId, cause: Cause) {
    && x in a.actors && x in b.completed && cause.teller in Over(a, b, gone)
    && (cause.teller in gone || Within(a, b, x, cause.teller))
    && var e, told := a.actors[x], Told(a, b, gone, cause.teller);
       match cause
       case ByLink(y) => y in e.links && Dies(e.trapExit, told) && b.completed[x] == FinalReason(e, told)
       case NoRoomForExit(y) =>
         && y in e.links && e.trapExit && !Dies(e.trapExit, told) && Crowded(e, Over(a, b, gone))
         && b.completed[x] == FinalReason(e, OverflowReason(x, "exit"))
       case NoRoomForDown(y, r) =>
         && r in e.monitorsOut && e.monitorsOut[r] == y && Crowded(e, Over(a, b, gone))
         && b.completed[x] == FinalReason(e, OverflowReason(x, "down"))
  }

  ghost predicate HasCause(a: World, b: World, gone: map<ActorId, Verdict>, x: ActorId) {
    exists cause :: Caused(a, b, gone, x, cause)
  }

  /** No link that was dropped told a survivor a reason to end, and what came to it fitted. */
  ghost predicate Spared(a: World, b: World, gone: map<ActorId, Verdict>, x: ActorId)
    requires x in a.actors && x in b.actors
  {
    var e, f := a.actors[x], b.actors[x];
    && (forall y :: y in e.links && y !in f.links ==> !Dies(e.trapExit, Told(a, b, gone, y)))
    && (|f.mailbox.queue| > |e.mailbox.queue| && e.mailbox.capacity != USIZE_MAX ==> |f.mailbox.queue| <= e.mailbox.capacity)
  }

  /** What is owed is delivered, one for one. */
  ghost predicate Balanced(x: Actor, y: Actor, dead: set<ActorId>) {
    forall d: set<ActorId> :: dead <= d ==> |y.mailbox.queue| + Owed(y, d) == |x.mailbox.queue| + Owed(x, d)
  }

  // ------------------------------------------------------------------ what the log says

  function Times(log: seq<Event>, event: Event): nat { multiset(log)[event] }

  /** `w` watched `d` through `r` when the cascade began. */
  ghost predicate Watched(a: World, w: ActorId, d: ActorId, r: Ref) {
    d in a.actors && w != d && r in a.actors[d].monitorsIn && a.actors[d].monitorsIn[r] == w
  }

  /**
   * One down event for each reference to an ended actor, with its reason; if the watcher ends as well
   * there may be none. One crash report for each who ended abnormally. Nothing else of these kinds.
   */
  ghost predicate Entered(a: World, b: World, gone: map<ActorId, Verdict>, event: Event) {
    var before, after := Times(a.log, event), Times(b.log, event);
    match event
    case DownEvent(w, d, r, reason) =>
      d in gone ||
      if d in Finished(a, b) && d in b.completed && reason == b.completed[d] && Watched(a, w, d, r) then
        before <= after <= before + 1 && (w !in Over(a, b, gone) ==> after == before + 1)
      else after == before
    case CrashEvent(x, reason) =>
      after == before + Bit(x in Finished(a, b) && x in b.completed && reason == b.completed[x] && reason != Normal && reason != Shutdown)
    case _ => true
  }

  ghost predicate EnteredAll(a: World, b: World, gone: map<ActorId, Verdict>) {
    forall event :: Entered(a, b, gone, event)
  }

  /** Exactly one down event for each reference held on `d`, by others, with its reason. */
  ghost predicate Announced(before: seq<Event>, after: seq<Event>, d: ActorId, held: map<Ref, ActorId>, reason: ExitReason) {
    forall event: Event :: event.DownEvent? && event.actor == d ==>
      Times(after, event) == Times(before, event)
        + Bit(event.reason == reason && event.watcher != d && event.reference in held && held[event.reference] == event.watcher)
  }

  // ------------------------------------------------------------------ together

  ghost predicate EndsHaveCauses(a: World, b: World, gone: map<ActorId, Verdict>, roots: set<ActorId>) {
    forall x :: x in Finished(a, b) && x !in roots ==> HasCause(a, b, gone, x)
  }

  ghost predicate OthersSpared(a: World, b: World, gone: map<ActorId, Verdict>) {
    forall x :: x in b.actors ==> x in a.actors && Spared(a, b, gone, x) && Balanced(a.actors[x], b.actors[x], Over(a, b, gone))
  }

  /** All who ended, save the roots, had a cause; the others had none; and the log tells of the ends. */
  ghost predicate CausesFollow(a: World, b: World, gone: map<ActorId, Verdict>, roots: set<ActorId>) {
    EndsHaveCauses(a, b, gone, roots) && OthersSpared(a, b, gone) && EnteredAll(a, b, gone)
  }

  lemma CausesReflexive(a: World, gone: map<ActorId, Verdict>, roots: set<ActorId>)
    ensures CausesFollow(a, a, gone, roots)
  {
    assert Finished(a, a) == {};
  }

  // ------------------------------------------------------------------ one cascade after another

  lemma {:induction false} SmallerSet<T>(s: set<T>, t: set<T>)
    requires s <= t
    ensures |s| <= |t|
  {
    assert t == s + (t - s);
  }

  lemma OwedGrows(x: Actor, d1: set<ActorId>, d2: set<ActorId>)
    requires d1 <= d2
    ensures Owed(x, d1) <= Owed(x, d2) && (Crowded(x, d1) ==> Crowded(x, d2))
  {
    SmallerSet(RefsTo(x.monitorsOut, d1), RefsTo(x.monitorsOut, d2));
    SmallerSet(x.links * d1, x.links * d2);
  }

  lemma WithinLater(a: World, b: World, c: World, x: ActorId, y: ActorId)
    requires Within(a, b, x, y) && TablesFollow(b, c) && b.log <= c.log
    requires x in b.completed && y in b.completed
    ensures Within(a, c, x, y)
  {
    var i, j :| |a.log| <= i < j < |b.log| && b.log[i] == ExitEvent(x, b.completed[x]) && b.log[j] == ExitEvent(y, b.completed[y]);
    assert c.log[i] == b.log[i] && c.log[j] == b.log[j];
  }

  lemma WithinEarlier(a: World, b: World, c: World, x: ActorId, y: ActorId)
    requires Within(b, c, x, y) && a.log <= b.log
    ensures Within(a, c, x, y)
  {
  }

  lemma ToldLater(a: World, b: World, c: World, gone: map<ActorId, Verdict>, y: ActorId)
    requires TablesFollow(a, b) && TablesFollow(b, c) && y in Over(a, b, gone)
    ensures Told(a, c, gone, y) == Told(a, b, gone, y)
  {
  }

  lemma ToldEarlier(a: World, b: World, c: World, gone: map<ActorId, Verdict>, y: ActorId)
    requires TablesFollow(a, b) && TablesFollow(b, c) && y in Over(b, c, gone) && gone.Keys !! a.actors.Keys
    ensures Told(a, c, gone, y) == Told(b, c, gone, y)
  {
  }

  lemma CausedLater(a: World, b: World, c: World, gone: map<ActorId, Verdict>, x: ActorId, cause: Cause)
    requires TablesFollow(a, b) && TablesFollow(b, c) && b.log <= c.log && Caused(a, b, gone, x, cause)
    ensures Caused(a, c, gone, x, cause)
  {
    hide Crowded, Owed, Within, FinalReason, Dies;
    ToldLater(a, b, c, gone, cause.teller);
    TablesTransitive(a, b, c);
    OwedGrows(a.actors[x], Over(a, b, gone), Over(a, c, gone));
    if cause.teller !in gone {
      hide *;
      WithinIsRecorded(a, b, x, cause.teller);
      WithinLater(a, b, c, x, cause.teller);
    }
  }

  lemma WithinIsRecorded(a: World, b: World, x: ActorId, y: ActorId)
    requires Within(a, b, x, y)
    ensures x in b.completed && y in b.completed
  {
  }

  lemma CausedEarlier(a: World, b: World, c: World, gone: map<ActorId, Verdict>, x: ActorId, cause: Cause)
    requires TablesFollow(a, b) && TablesFollow(b, c) && a.log <= b.log && gone.Keys !! a.actors.Keys
    requires Caused(b, c, gone, x, cause)
    requires x in a.actors && Same(a.actors[x], b.actors[x]) && LinksFollow(a.actors[x], b.actors[x], Finished(a, b), gone.Keys)
    requires Balanced(a.actors[x], b.actors[x], Over(a, b, gone))
    ensures Caused(a, c, gone, x, cause)
  {
    hide Owed, Within, Dies;
    ToldEarlier(a, b, c, gone, cause.teller);
    TablesTransitive(a, b, c);
    OwedGrows(b.actors[x], Over(b, c, gone), Over(a, c, gone));
    assert Over(a, b, gone) <= Over(a, c, gone);
    if cause.teller !in gone {
      WithinEarlier(a, b, c, x, cause.teller);
    }
  }

  lemma EndsTransitive(a: World, b: World, c: World, gone: map<ActorId, Verdict>, roots: set<ActorId>)
    requires Evolves(a, b, gone) && Evolves(b, c, gone) && gone.Keys !! a.actors.Keys
    requires EndsHaveCauses(a, b, gone, roots) && EndsHaveCauses(b, c, gone, roots) && OthersSpared(a, b, gone)
    ensures EndsHaveCauses(a, c, gone, roots)
  {
    hide TablesFollow, LinksFollow, NoticesFollow, MailFollows, Same, LogAt, Caused, Spared, Balanced, Over, Finished;
    TablesTransitive(a, b, c);
    forall x | x in Finished(a, c) && x !in roots ensures HasCause(a, c, gone, x) {
      if x in Finished(a, b) {
        var cause :| Caused(a, b, gone, x, cause);
        CausedLater(a, b, c, gone, x, cause);
      } else {
        FinishedIn(b, c);
        var cause :| Caused(b, c, gone, x, cause);
        CausedEarlier(a, b, c, gone, x, cause);
      }
    }
  }

  lemma BalancedTransitive(x: Actor, y: Actor, z: Actor, d1: set<ActorId>, d2: set<ActorId>, d: set<ActorId>)
    requires Balanced(x, y, d1) && Balanced(y, z, d2) && d1 <= d && d2 <= d
    ensures Balanced(x, z, d)
  {
  }

  lemma SparedTransitive(a: World, b: World, c: World, gone: map<ActorId, Verdict>, x: ActorId)
    requires TablesFollow(a, b) && TablesFollow(b, c) && gone.Keys !! a.actors.Keys
    requires x in a.actors && x in b.actors && x in c.actors
    requires Same(a.actors[x], b.actors[x])
    requires LinksFollow(a.actors[x], b.actors[x], Finished(a, b), gone.Keys)
    requires LinksFollow(b.actors[x], c.actors[x], Finished(b, c), gone.Keys)
    requires |a.actors[x].mailbox.queue| <= |b.actors[x].mailbox.queue|
    requires Spared(a, b, gone, x) && Spared(b, c, gone, x)
    ensures Spared(a, c, gone, x)
  {
    hide TablesFollow, Told, Dies;
    var e, f, g := a.actors[x], b.actors[x], c.actors[x];
    forall y | y in e.links && y !in g.links ensures !Dies(e.trapExit, Told(a, c, gone, y)) {
      if y in f.links {
        ToldEarlier(a, b, c, gone, y);
      } else {
        ToldLater(a, b, c, gone, y);
      }
    }
  }

  lemma OthersTransitive(a: World, b: World, c: World, gone: map<ActorId, Verdict>)
    requires TablesFollow(a, b) && TablesFollow(b, c) && gone.Keys !! a.actors.Keys
    requires SurvivorsFollow(a, b, gone) && SurvivorsFollow(b, c, gone)
    requires OthersSpared(a, b, gone) && OthersSpared(b, c, gone)
    ensures OthersSpared(a, c, gone)
  {
    hide TablesFollow, LinksFollow, NoticesFollow, Same, LogAt, Spared, Balanced, CascadeMail, Over;
    forall x | x in c.actors
      ensures x in a.actors && Spared(a, c, gone, x) && Balanced(a.actors[x], c.actors[x], Over(a, c, gone))
    {
      SparedTransitive(a, b, c, gone, x);
      OverGrows(a, b, c, gone);
      BalancedTransitive(a.actors[x], b.actors[x], c.actors[x], Over(a, b, gone), Over(b, c, gone), Over(a, c, gone));
    }
  }

  lemma OverGrows(a: World, b: World, c: World, gone: map<ActorId, Verdict>)
    requires TablesFollow(a, b) && TablesFollow(b, c)
    ensures Over(a, b, gone) <= Over(a, c, gone) && Over(b, c, gone) <= Over(a, c, gone)
  {
    TablesTransitive(a, b, c);
  }

  /** Where an actor stands after two cascades in a row. */
  lemma FinishedTwice(a: World, b: World, c: World, gone: map<ActorId, Verdict>, x: ActorId)
    requires TablesFollow(a, b) && TablesFollow(b, c)
    ensures x in Finished(a, c) <==> x in Finished(a, b) || x in Finished(b, c)
    ensures x in Over(a, c, gone) <==> x in Over(a, b, gone) || x in Over(b, c, gone)
    ensures x in Finished(b, c) ==> x in b.actors && x in a.actors && x !in Finished(a, b)
    ensures x in Finished(a, b) ==> x in b.completed && x in c.completed && c.completed[x] == b.completed[x]
  {
    TablesTransitive(a, b, c);
  }

  lemma CrashTransitive(a: World, b: World, c: World, gone: map<ActorId, Verdict>, event: Event)
    requires TablesFollow(a, b) && TablesFollow(b, c) && event.CrashEvent?
    requires Entered(a, b, gone, event) && Entered(b, c, gone, event)
    ensures Entered(a, c, gone, event)
  {
    hide Times, TablesFollow, Finished, Watched, Over;
    FinishedTwice(a, b, c, gone, event.actor);
  }

  lemma WatchedStill(a: World, b: World, gone: map<ActorId, Verdict>, w: ActorId, d: ActorId, r: Ref)
    requires SurvivorsFollow(a, b, gone) && d in b.actors
    ensures Watched(b, w, d, r) ==> Watched(a, w, d, r)
    ensures Watched(a, w, d, r) && w !in Over(a, b, gone) ==> Watched(b, w, d, r)
  {
    hide NoticesFollow, MailFollows, Same;
    assert LinksFollow(a.actors[d], b.actors[d], Finished(a, b), gone.Keys);
  }

  lemma DownTransitive(a: World, b: World, c: World, gone: map<ActorId, Verdict>, event: Event)
    requires TablesFollow(a, b) && TablesFollow(b, c) && SurvivorsFollow(a, b, gone) && event.DownEvent?
    requires Entered(a, b, gone, event) && Entered(b, c, gone, event)
    ensures Entered(a, c, gone, event)
  {
    hide Times, TablesFollow, SurvivorsFollow, Finished, Watched, Over;
    FinishedTwice(a, b, c, gone, event.actor);
    FinishedTwice(a, b, c, gone, event.watcher);
    if event.actor in b.actors { WatchedStill(a, b, gone, event.watcher, event.actor, event.reference); }
  }

  lemma OtherwiseEntered(a: World, b: World, gone: map<ActorId, Verdict>, event: Event)
    requires !event.DownEvent? && !event.CrashEvent?
    ensures Entered(a, b, gone, event)
  {
  }

  lemma EnteredAllTransitive(a: World, b: World, c: World, gone: map<ActorId, Verdict>)
    requires TablesFollow(a, b) && TablesFollow(b, c) && SurvivorsFollow(a, b, gone) && gone.Keys !! a.actors.Keys
    requires EnteredAll(a, b, gone) && EnteredAll(b, c, gone)
    ensures EnteredAll(a, c, gone)
  {
    hide Entered, TablesFollow, SurvivorsFollow;
    forall event ensures Entered(a, c, gone, event) {
      match event
      case DownEvent(_, _, _, _) => DownTransitive(a, b, c, gone, event);
      case CrashEvent(_, _) => CrashTransitive(a, b, c, gone, event);
      case _ => OtherwiseEntered(a, c, gone, event);
    }
  }

  lemma CausesTransitive(a: World, b: World, c: World, gone: map<ActorId, Verdict>, roots: set<ActorId>)
    requires Evolves(a, b, gone) && Evolves(b, c, gone) && gone.Keys !! a.actors.Keys
    requires CausesFollow(a, b, gone, roots) && CausesFollow(b, c, gone, roots)
    ensures CausesFollow(a, c, gone, roots)
  {
    hide TablesFollow, SurvivorsFollow, LogFollows, EndsHaveCauses, OthersSpared, EnteredAll;
    EndsTransitive(a, b, c, gone, roots);
    OthersTransitive(a, b, c, gone);
    EnteredAllTransitive(a, b, c, gone);
  }

  // ------------------------------------------------------------------ steps that end nobody

  lemma NothingHappened(x: Actor, w: World, v: World, gone: map<ActorId, Verdict>, y: ActorId, dead: set<ActorId>)
    requires y in w.actors && y in v.actors && w.actors[y] == v.actors[y] == x
    ensures Spared(w, v, gone, y) && Balanced(x, x, dead)
  {
  }

  /** A step on one actor of which the log says nothing. */
  lemma QuietTouch(w: World, v: World, y: ActorId, id: ActorId, gone: map<ActorId, Verdict>, roots: set<ActorId>)
    requires Touches(w, v, y, id) && v.log == w.log
    requires Spared(w, v, gone, y) && Balanced(w.actors[y], v.actors[y], gone.Keys)
    ensures CausesFollow(w, v, gone, roots)
  {
    hide Forgets, Spared, Balanced, Times;
    assert Finished(w, v) == {} && Over(w, v, gone) == gone.Keys;
    forall x | x in v.actors ensures Spared(w, v, gone, x) && Balanced(w.actors[x], v.actors[x], Over(w, v, gone)) {
      if x != y { NothingHappened(w.actors[x], w, v, gone, x, Over(w, v, gone)); }
    }
  }

  lemma DropIncomingSpares(w: World, y: ActorId, r: Ref, id: ActorId, gone: map<ActorId, Verdict>, roots: set<ActorId>)
    requires Inv(w) && y in w.actors && id !in w.actors && id in gone
    requires r in w.actors[y].monitorsIn && w.actors[y].monitorsIn[r] == id
    ensures CausesFollow(w, DropIncoming(w, y, r), gone, roots)
  {
    InvAt(w, y);
    DropIncomingTouches(w, y, r, id);
    hide Inv, Touches, CausesFollow, Schedulable;
    QuietTouch(w, DropIncoming(w, y, r), y, id, gone, roots);
  }

  /** One down message for one reference. */
  lemma DownBalances(x: Actor, y: Actor, e: Envelope, r: Ref, dead: set<ActorId>)
    requires r in x.monitorsOut && x.monitorsOut[r] in dead && y.monitorsOut == x.monitorsOut - {r}
    requires y.mailbox == x.mailbox.Push(e) && y.links == x.links && y.trapExit == x.trapExit
    ensures Balanced(x, y, dead)
  {
    forall d: set<ActorId> | dead <= d ensures |y.mailbox.queue| + Owed(y, d) == |x.mailbox.queue| + Owed(x, d) {
      assert RefsTo(y.monitorsOut, d) == RefsTo(x.monitorsOut, d) - {r};
      assert r in RefsTo(x.monitorsOut, d);
    }
  }

  /** One exit message for one link. */
  lemma ExitBalances(x: Actor, y: Actor, e: Envelope, id: ActorId, dead: set<ActorId>)
    requires id in x.links && id in dead && y.links == x.links - {id} && x.trapExit && y.trapExit
    requires y.mailbox == x.mailbox.Push(e) && y.monitorsOut == x.monitorsOut
    ensures Balanced(x, y, dead)
  {
    forall d: set<ActorId> | dead <= d ensures |y.mailbox.queue| + Owed(y, d) == |x.mailbox.queue| + Owed(x, d) {
      assert y.links * d == x.links * d - {id};
      assert id in x.links * d;
    }
  }

  lemma DownSpares(w: World, y: ActorId, r: Ref, id: ActorId, gone: map<ActorId, Verdict>, roots: set<ActorId>)
    requires Inv(w) && y in w.actors && id !in w.actors && id in gone
    requires r in w.actors[y].monitorsOut && w.actors[y].monitorsOut[r] == id
    requires !w.actors[y].mailbox.IsFullFor(Down(r, id, gone[id].final))
    ensures CausesFollow(w, Deliver(DropOutgoing(w, y, r), y, Down(r, id, gone[id].final)), gone, roots)
  {
    hide Inv, Touches, Schedulable, Deliver, PushEnvelope, CausesFollow, Balanced, Told;
    var e := Down(r, id, gone[id].final);
    var u := DropOutgoing(w, y, r);
    InvAt(w, y);
    DropOutgoingTouches(w, y, r, id);
    DeliverTouches(w, u, y, e, id);
    DeliverKeepsRelations(u, y, e);
    DownBalances(w.actors[y], Deliver(u, y, e).actors[y], e, r, gone.Keys);
    QuietTouch(w, Deliver(u, y, e), y, id, gone, roots);
  }

  lemma ExitSpares(w: World, y: ActorId, id: ActorId, gone: map<ActorId, Verdict>, roots: set<ActorId>)
    requires Inv(w) && y in w.actors && id !in w.actors && id in gone
    requires id in w.actors[y].links && w.actors[y].trapExit && !Dies(true, gone[id].link)
    requires !w.actors[y].mailbox.IsFullFor(Exit(ExitSignal(id, gone[id].link, true)))
    ensures CausesFollow(w, Deliver(DropLink(w, y, id), y, Exit(ExitSignal(id, gone[id].link, true))), gone, roots)
  {
    hide Inv, Touches, Schedulable, Deliver, PushEnvelope, CausesFollow, Balanced;
    var e := Exit(ExitSignal(id, gone[id].link, true));
    var u := DropLink(w, y, id);
    InvAt(w, y);
    DropLinkTouches(w, y, id);
    DeliverTouches(w, u, y, e, id);
    DeliverKeepsRelations(u, y, e);
    ExitBalances(w.actors[y], Deliver(u, y, e).actors[y], e, id, gone.Keys);
    QuietTouch(w, Deliver(u, y, e), y, id, gone, roots);
  }

  lemma IgnoredLinkSpares(w: World, y: ActorId, id: ActorId, gone: map<ActorId, Verdict>, roots: set<ActorId>)
    requires Inv(w) && y in w.actors && id !in w.actors && id in gone
    requires !w.actors[y].trapExit && !Dies(false, gone[id].link)
    ensures CausesFollow(w, DropLink(w, y, id), gone, roots)
  {
    InvAt(w, y);
    DropLinkTouches(w, y, id);
    hide Inv, Touches, CausesFollow, Schedulable;
    QuietTouch(w, DropLink(w, y, id), y, id, gone, roots);
  }

  // ------------------------------------------------------------------ down events of the one being worked off

  lemma TimesAppended(log: seq<Event>, event: Event, other: Event)
    ensures Times(log + [event], other) == Times(log, other) + Bit(event == other)
  {
  }

  lemma WithinAppended(a: World, b: World, event: Event, x: ActorId, y: ActorId)
    requires Within(a, b, x, y)
    ensures Within(a, Append(b, event), x, y)
  {
    var i, j :| |a.log| <= i < j < |b.log| && b.log[i] == ExitEvent(x, b.completed[x]) && b.log[j] == ExitEvent(y, b.completed[y]);
    assert Append(b, event).log[i] == b.log[i] && Append(b, event).log[j] == b.log[j];
  }

  lemma AppendKeepsCause(a: World, b: World, gone: map<ActorId, Verdict>, event: Event, x: ActorId)
    requires HasCause(a, b, gone, x)
    ensures HasCause(a, Append(b, event), gone, x)
  {
    hide Within, Crowded, FinalReason, Dies;
    var cause :| Caused(a, b, gone, x, cause);
    if cause.teller !in gone { WithinAppended(a, b, event, x, cause.teller); }
    assert Caused(a, Append(b, event), gone, x, cause);
  }

  lemma AppendKeepsCauses(a: World, b: World, gone: map<ActorId, Verdict>, roots: set<ActorId>, event: Event)
    requires CausesFollow(a, b, gone, roots) && event.DownEvent? && event.actor in gone
    ensures CausesFollow(a, Append(b, event), gone, roots)
  {
    var c := Append(b, event);
    assert Finished(a, c) == Finished(a, b);
    hide Times, HasCause, Finished, Balanced, Watched;
    forall x | x in Finished(a, c) && x !in roots ensures HasCause(a, c, gone, x) {
      AppendKeepsCause(a, b, gone, event, x);
    }
    forall other ensures Entered(a, c, gone, other) {
      assert Entered(a, b, gone, other);
      TimesAppended(b.log, event, other);
    }
  }

  /** A cascade of others has nothing to say about `d`. */
  lemma SilentAbout(v: World, u: World, roots: set<ActorId>, d: ActorId, reason: ExitReason)
    requires CausesFollow(v, u, map[], roots) && d !in v.actors
    ensures Announced(v.log, u.log, d, map[], reason)
  {
    hide Times, EndsHaveCauses, OthersSpared, Watched;
    var nobody: map<ActorId, Verdict> := map[];
    assert nobody.Keys == {};
    forall event: Event | event.DownEvent? && event.actor == d ensures Times(u.log, event) == Times(v.log, event) {
      assert Entered(v, u, nobody, event);
    }
  }

  lemma NothingAnnounced(log: seq<Event>, d: ActorId, reason: ExitReason)
    ensures Announced(log, log, d, map[], reason)
  {
  }

  lemma OneAnnounced(before: seq<Event>, log: seq<Event>, d: ActorId, w: ActorId, r: Ref, reason: ExitReason)
    requires Announced(before, log, d, map[], reason) && w != d
    ensures Announced(before, log + [DownEvent(w, d, r, reason)], d, map[r := w], reason)
  {
    hide Times;
    var event := DownEvent(w, d, r, reason);
    forall other: Event | other.DownEvent? && other.actor == d
      ensures Times(log + [event], other) == Times(before, other) + Bit(other == event)
    {
      TimesAppended(log, event, other);
    }
  }

  lemma NoMoreAnnounced(l0: seq<Event>, l1: seq<Event>, l2: seq<Event>, d: ActorId, held: map<Ref, ActorId>, reason: ExitReason)
    requires Announced(l0, l1, d, held, reason) && Announced(l1, l2, d, map[], reason)
    ensures Announced(l0, l2, d, held, reason)
  {
    hide Times;
  }

  /** One reference less to be announced. */
  lemma OneMoreAnnounced(l0: seq<Event>, l1: seq<Event>, l2: seq<Event>, d: ActorId, held: map<Ref, ActorId>, rest: map<Ref, ActorId>,
      r: Ref, reason: ExitReason)
    requires r in rest && r in held && held[r] == rest[r] && Announced(l0, l1, d, held - rest.Keys, reason)
    requires if rest[r] == d then l2 == l1 else Announced(l1, l2, d, map[r := rest[r]], reason)
    ensures Announced(l0, l2, d, held - (rest - {r}).Keys, reason)
  {
    hide Times;
    assert (rest - {r}).Keys == rest.Keys - {r};
    var told, more := held - rest.Keys, held - (rest - {r}).Keys;
    assert forall k :: k in more <==> k in told || k == r;
  }

  // ------------------------------------------------------------------ one that ends while another is worked off

  lemma CausedBeforeTouch(w: World, v: World, u: World, y: ActorId, id: ActorId, gone: map<ActorId, Verdict>, x: ActorId)
    requires Touches(w, v, y, id) && v.log == w.log && TablesFollow(v, u) && gone.Keys !! w.actors.Keys && x != y
    requires HasCause(v, u, map[], x)
    ensures HasCause(w, u, gone, x)
  {
    hide Forgets, FinalReason, Dies, Within, TablesFollow;
    var cause :| Caused(v, u, map[], x, cause);
    assert Finished(w, u) == Finished(v, u);
    var nobody: map<ActorId, Verdict> := map[];
    assert nobody.Keys == {};
    OwedGrows(w.actors[x], Over(v, u, nobody), Over(w, u, gone));
    assert Within(v, u, x, cause.teller) ==> Within(w, u, x, cause.teller) by { hide Touches; WithinSameStart(w, v, u, x, cause.teller); }
    assert Caused(w, u, gone, x, cause);
  }

  lemma WithinSameStart(w: World, v: World, u: World, x: ActorId, y: ActorId)
    requires v.log == w.log
    ensures Within(v, u, x, y) ==> Within(w, u, x, y)
  {
  }

  lemma SparedBeforeTouch(w: World, v: World, u: World, y: ActorId, id: ActorId, gone: map<ActorId, Verdict>, x: ActorId)
    requires Touches(w, v, y, id) && gone.Keys !! w.actors.Keys && x in u.actors && x in v.actors && x != y
    requires LinksFollow(v.actors[x], u.actors[x], Finished(v, u), {})
    requires Spared(v, u, map[], x) && Balanced(v.actors[x], u.actors[x], Over(v, u, map[]))
    ensures x in w.actors && Spared(w, u, gone, x) && Balanced(w.actors[x], u.actors[x], Over(w, u, gone))
  {
    hide Forgets, Dies, Owed;
    assert Finished(w, u) == Finished(v, u);
    var nobody: map<ActorId, Verdict> := map[];
    assert nobody.Keys == {} && Over(v, u, nobody) <= Over(w, u, gone);
  }

  lemma EnteredBeforeTouch(w: World, v: World, u: World, y: ActorId, id: ActorId, gone: map<ActorId, Verdict>, event: Event)
    requires Touches(w, v, y, id) && v.log == w.log && gone.Keys !! w.actors.Keys
    requires v.actors[y].monitorsIn == w.actors[y].monitorsIn && Entered(v, u, map[], event)
    ensures Entered(w, u, gone, event)
  {
    hide Forgets, Times;
    assert Finished(w, u) == Finished(v, u);
  }

  /** An actor that drops what it holds on `id` and then ends for `cause`. */
  lemma TouchedThenCaused(w: World, v: World, u: World, y: ActorId, id: ActorId, gone: map<ActorId, Verdict>, cause: Cause)
    requires Touches(w, v, y, id) && v.log == w.log && v.actors[y].monitorsIn == w.actors[y].monitorsIn
    requires Evolves(v, u, map[]) && CausesFollow(v, u, map[], {y}) && y !in u.actors && gone.Keys !! w.actors.Keys
    requires Caused(w, u, gone, y, cause)
    ensures CausesFollow(w, u, gone, {})
  {
    hide Touches, TablesFollow, NoticesFollow, MailFollows, LinksFollow, LogFollows, Same, Spared, Balanced, Caused, Entered;
    var nobody: map<ActorId, Verdict> := map[];
    assert nobody.Keys == {};
    TouchSameKeys(w, v, u, y, id);
    hide Finished;
    forall x | x in Finished(w, u) ensures HasCause(w, u, gone, x) {
      if x != y { CausedBeforeTouch(w, v, u, y, id, gone, x); }
    }
    forall x | x in u.actors
      ensures x in w.actors && Spared(w, u, gone, x) && Balanced(w.actors[x], u.actors[x], Over(w, u, gone))
    {
      SparedBeforeTouch(w, v, u, y, id, gone, x);
    }
    forall event ensures Entered(w, u, gone, event) {
      EnteredBeforeTouch(w, v, u, y, id, gone, event);
    }
  }

  lemma TouchSameKeys(w: World, v: World, u: World, y: ActorId, id: ActorId)
    requires Touches(w, v, y, id)
    ensures Finished(w, u) == Finished(v, u) && v.actors.Keys == w.actors.Keys
  {
    assert Finished(w, u) == Finished(v, u);
  }

  lemma LinkIsCause(w: World, u: World, gone: map<ActorId, Verdict>, y: ActorId, id: ActorId)
    requires y in w.actors && id in gone && id in w.actors[y].links && y in u.completed
    requires Dies(w.actors[y].trapExit, gone[id].link) && u.completed[y] == FinalReason(w.actors[y], gone[id].link)
    ensures Caused(w, u, gone, y, ByLink(id))
  {
  }

  lemma NoRoomForExitIsCause(w: World, u: World, gone: map<ActorId, Verdict>, y: ActorId, id: ActorId)
    requires y in w.actors && id in gone && id in w.actors[y].links && y in u.completed
    requires w.actors[y].trapExit && !Dies(true, gone[id].link)
    requires w.actors[y].mailbox.IsFullFor(Exit(ExitSignal(id, gone[id].link, true)))
    requires u.completed[y] == FinalReason(w.actors[y], OverflowReason(y, "exit"))
    ensures Caused(w, u, gone, y, NoRoomForExit(id))
  {
    assert id in w.actors[y].links * Over(w, u, gone);
  }

  lemma NoRoomForDownIsCause(w: World, u: World, gone: map<ActorId, Verdict>, y: ActorId, id: ActorId, r: Ref)
    requires y in w.actors && id in gone && r in w.actors[y].monitorsOut && w.actors[y].monitorsOut[r] == id && y in u.completed
    requires w.actors[y].mailbox.IsFullFor(Down(r, id, gone[id].final))
    requires u.completed[y] == FinalReason(w.actors[y], OverflowReason(y, "down"))
    ensures Caused(w, u, gone, y, NoRoomForDown(id, r))
  {
    assert r in RefsTo(w.actors[y].monitorsOut, Over(w, u, gone));
  }

  // ------------------------------------------------------------------ closing the books

  /** An exit event that was not there before is somewhere in the new part. */
  lemma {:induction false} NewExit(before: seq<Event>, after: seq<Event>, x: ActorId)
    requires before <= after && |Exits(before, x)| < |Exits(after, x)|
    ensures exists i :: |before| <= i < |after| && after[i] == Exits(after, x)[|Exits(after, x)| - 1]
    decreases |after|
  {
    assert before != after;
    var front, last := after[..|after| - 1], after[|after| - 1];
    assert before <= front;
    if last.ExitEvent? && last.actor == x {
      assert Exits(after, x) == Exits(front, x) + [last];
    } else {
      assert Exits(after, x) == Exits(front, x);
      NewExit(before, front, x);
      var i :| |before| <= i < |front| && front[i] == Exits(after, x)[|Exits(after, x)| - 1];
      assert after[i] == front[i];
    }
  }

  lemma ExitIsLogged(a: World, b: World, x: ActorId)
    requires LogFollows(a, b) && x in Finished(a, b)
    ensures x in b.completed && exists i :: |a.log| <= i < |b.log| && b.log[i] == ExitEvent(x, b.completed[x])
  {
    hide Exits, Trail;
    assert LogAt(a, b, x);
    NewExit(a.log, b.log, x);
  }

  lemma ClosingIsLast(u: World, n: World, id: ActorId, final: ExitReason, x: ActorId)
    requires LogFollows(u, n) && x in Finished(u, n) && x != id
    ensures Within(u, BooksClosed(n, id, final), x, id)
  {
    hide LogFollows, Finished;
    ExitIsLogged(u, n, x);
    var v := BooksClosed(n, id, final);
    var i :| |u.log| <= i < |n.log| && n.log[i] == ExitEvent(x, n.completed[x]);
    var j := |n.log| + if id in n.tasks then 1 else 0;
    assert v.log[i] == n.log[i] && v.log[j] == ExitEvent(id, final);
  }

  lemma ClosedWithin(u: World, n: World, id: ActorId, final: ExitReason, x: ActorId, y: ActorId)
    requires Within(u, n, x, y) && x != id && y != id
    ensures Within(u, BooksClosed(n, id, final), x, y)
  {
    var i, j :| |u.log| <= i < j < |n.log| && n.log[i] == ExitEvent(x, n.completed[x]) && n.log[j] == ExitEvent(y, n.completed[y]);
    var v := BooksClosed(n, id, final);
    assert v.log[i] == n.log[i] && v.log[j] == n.log[j];
  }

  /** What the ended have told does not depend on whether the books of the last one are closed. */
  lemma ClosedTold(w: World, e: Actor, n: World, final: ExitReason, gone: map<ActorId, Verdict>, y: ActorId)
    requires gone == map[e.id := Verdict(final, ShutdownLinkReason(e.id in w.tasks, final))]
    ensures Told(Put(w, e), BooksClosed(n, e.id, final), map[], y) == Told(WithoutTimeouts(w, e.id), n, gone, y)
  {
  }

  lemma ClosedOver(w: World, e: Actor, n: World, final: ExitReason, gone: map<ActorId, Verdict>)
    requires e.id !in w.actors && e.id !in n.actors && gone.Keys == {e.id}
    ensures var v := BooksClosed(n, e.id, final);
      && Over(Put(w, e), v, map[]) == Over(WithoutTimeouts(w, e.id), n, gone) == Finished(Put(w, e), v)
      && Finished(Put(w, e), v) == Finished(WithoutTimeouts(w, e.id), n) + {e.id}
  {
    var nobody: map<ActorId, Verdict> := map[];
    assert nobody.Keys == {};
    hide FinalEvents;
    assert Finished(Put(w, e), BooksClosed(n, e.id, final)) == Finished(WithoutTimeouts(w, e.id), n) + {e.id};
  }

  lemma ClosedCause(w: World, e: Actor, n: World, final: ExitReason, gone: map<ActorId, Verdict>, x: ActorId)
    requires e.id !in w.actors && e.id !in n.actors && x != e.id
    requires gone == map[e.id := Verdict(final, ShutdownLinkReason(e.id in w.tasks, final))]
    requires LogFollows(WithoutTimeouts(w, e.id), n) && x in Finished(WithoutTimeouts(w, e.id), n)
    requires HasCause(WithoutTimeouts(w, e.id), n, gone, x)
    ensures HasCause(Put(w, e), BooksClosed(n, e.id, final), map[], x)
  {
    hide LogFollows, Within, Crowded, FinalReason, Dies, Told, Over, Finished, FinalEvents;
    var u, v := WithoutTimeouts(w, e.id), BooksClosed(n, e.id, final);
    var cause :| Caused(u, n, gone, x, cause);
    ClosedTold(w, e, n, final, gone, cause.teller);
    ClosedOver(w, e, n, final, gone);
    if cause.teller in gone {
      ClosingIsLast(u, n, e.id, final, x);
    } else {
      ClosedWithin(u, n, e.id, final, x, cause.teller);
    }
    WithinSameStart(Put(w, e), u, v, x, cause.teller);
    assert Caused(Put(w, e), v, map[], x, cause);
  }

  lemma ClosedSpared(w: World, e: Actor, n: World, final: ExitReason, gone: map<ActorId, Verdict>, x: ActorId)
    requires e.id !in w.actors && e.id !in n.actors && x in n.actors && x in w.actors
    requires gone == map[e.id := Verdict(final, ShutdownLinkReason(e.id in w.tasks, final))]
    requires Spared(WithoutTimeouts(w, e.id), n, gone, x)
    ensures Spared(Put(w, e), BooksClosed(n, e.id, final), map[], x)
  {
    hide Told, Dies, FinalEvents;
    forall y ensures Told(Put(w, e), BooksClosed(n, e.id, final), map[], y) == Told(WithoutTimeouts(w, e.id), n, gone, y) {
      ClosedTold(w, e, n, final, gone, y);
    }
  }

  lemma TimesTogether(l: seq<Event>, m: seq<Event>, event: Event)
    ensures Times(l + m, event) == Times(l, event) + Times(m, event)
  {
  }

  lemma FinalTimes(w: World, id: ActorId, final: ExitReason, event: Event)
    ensures event.DownEvent? ==> Times(FinalEvents(w, id, final), event) == 0
    ensures event.CrashEvent? ==>
      Times(FinalEvents(w, id, final), event) == Bit(event.actor == id && event.reason == final && final != Normal && final != Shutdown)
  {
  }

  lemma ClosedEntered(w: World, e: Actor, n: World, final: ExitReason, gone: map<ActorId, Verdict>, event: Event)
    requires e.id !in w.actors && e.id !in n.actors && gone.Keys == {e.id}
    requires Entered(WithoutTimeouts(w, e.id), n, gone, event) && Announced(w.log, n.log, e.id, e.monitorsIn, final)
    ensures Entered(Put(w, e), BooksClosed(n, e.id, final), map[], event)
  {
    hide FinalEvents, Times;
    ClosedOver(w, e, n, final, gone);
    TimesTogether(n.log, FinalEvents(n, e.id, final), event);
    FinalTimes(n, e.id, final, event);
    hide Over, Finished;
    FinishedIn(WithoutTimeouts(w, e.id), n);
  }

  /** Once everyone has been told, the end of an actor reads as one cascade with that actor as its root. */
  lemma CausesClose(w: World, e: Actor, n: World, final: ExitReason, gone: map<ActorId, Verdict>)
    requires e.id !in w.actors && e.id !in n.actors
    requires gone == map[e.id := Verdict(final, ShutdownLinkReason(e.id in w.tasks, final))]
    requires Evolves(WithoutTimeouts(w, e.id), n, gone) && CausesFollow(WithoutTimeouts(w, e.id), n, gone, {})
    requires Announced(w.log, n.log, e.id, e.monitorsIn, final)
    ensures CausesFollow(Put(w, e), BooksClosed(n, e.id, final), map[], {e.id})
  {
    hide TablesFollow, SurvivorsFollow, LogFollows, Spared, Balanced, Entered, HasCause, Over, Announced, Finished, FinalEvents;
    var u, v := WithoutTimeouts(w, e.id), BooksClosed(n, e.id, final);
    ClosedOver(w, e, n, final, gone);
    forall x | x in Finished(Put(w, e), v) && x != e.id ensures HasCause(Put(w, e), v, map[], x) {
      ClosedCause(w, e, n, final, gone, x);
    }
    forall x | x in v.actors
      ensures x in Put(w, e).actors && Spared(Put(w, e), v, map[], x)
      ensures Balanced(Put(w, e).actors[x], v.actors[x], Over(Put(w, e), v, map[]))
    {
      ClosedSpared(w, e, n, final, gone, x);
    }
    forall event ensures Entered(Put(w, e), v, map[], event) {
      ClosedEntered(w, e, n, final, gone, event);
    }
  }

  // ------------------------------------------------------------------ what this says of a whole cascade

  /** A link to someone who ended told `x` to end. */
  ghost predicate ToldToEnd(a: World, b: World, x: ActorId)
    requires x in a.actors
  {
    exists y :: y in Finished(a, b) && y in a.actors[x].links && Dies(a.actors[x].trapExit, Told(a, b, map[], y))
  }

  /** Something was to be told to `x`, and it was too much. */
  ghost predicate Overrun(a: World, b: World, x: ActorId)
    requires x in a.actors
  {
    Owed(a.actors[x], Finished(a, b)) > 0 && Crowded(a.actors[x], Finished(a, b))
  }

  lemma SurvivorIsSpared(a: World, b: World, roots: set<ActorId>, x: ActorId)
    requires Evolves(a, b, map[]) && CausesFollow(a, b, map[], roots) && x in b.actors
    ensures x in a.actors && !ToldToEnd(a, b, x) && !Overrun(a, b, x)
  {
    hide TablesFollow, LogFollows, NoticesFollow, MailFollows, Dies, Told, EndsHaveCauses, EnteredAll;
    var nobody: map<ActorId, Verdict> := map[];
    assert nobody.Keys == {};
    var e, f, dead := a.actors[x], b.actors[x], Finished(a, b);
    assert Over(a, b, nobody) == dead;
    assert Spared(a, b, nobody, x) && Balanced(e, f, dead);
    assert LinksFollow(e, f, dead, {});
    assert RefsTo(f.monitorsOut, dead) == {} && f.links * dead == {};
    assert |f.mailbox.queue| + Owed(f, dead) == |e.mailbox.queue| + Owed(e, dead);
  }

  lemma CausedWasToldOrOverrun(a: World, b: World, x: ActorId)
    requires HasCause(a, b, map[], x)
    ensures x in a.actors && (ToldToEnd(a, b, x) || Overrun(a, b, x))
  {
    hide Dies, Told, Within;
    var nobody: map<ActorId, Verdict> := map[];
    assert nobody.Keys == {};
    var cause :| Caused(a, b, nobody, x, cause);
    var e, dead := a.actors[x], Finished(a, b);
    assert Over(a, b, nobody) == dead;
    match cause
    case ByLink(y) =>
    case NoRoomForExit(y) => assert y in e.links * dead;
    case NoRoomForDown(y, r) => assert r in RefsTo(e.monitorsOut, dead);
  }

  /**
   * Any cascade, plain or not: those who end are the roots, and exactly those whom a link to one who
   * ended told to end, or for whom the notices of those who ended are too much.
   */
  lemma CascadeIsStable(a: World, b: World, roots: set<ActorId>)
    requires Evolves(a, b, map[]) && CausesFollow(a, b, map[], roots) && roots <= Finished(a, b)
    ensures forall x :: x in a.actors ==> (x in Finished(a, b) <==> x in roots || ToldToEnd(a, b, x) || Overrun(a, b, x))
  {
    hide Evolves, HasCause, OthersSpared, EnteredAll, ToldToEnd, Overrun;
    forall x | x in a.actors ensures x in Finished(a, b) <==> x in roots || ToldToEnd(a, b, x) || Overrun(a, b, x) {
      if x in b.actors {
        SurvivorIsSpared(a, b, roots, x);
      } else if x !in roots {
        CausedWasToldOrOverrun(a, b, x);
      }
    }
  }

  ghost predicate CausedBy(a: World, b: World, x: ActorId, y: ActorId) {
    exists cause :: Caused(a, b, map[], x, cause) && cause.teller == y
  }

  /** From `x` along the causes to one of the roots. */
  ghost predicate LeadsBack(a: World, b: World, chain: seq<ActorId>, x: ActorId, roots: set<ActorId>) {
    && chain != [] && chain[0] == x && chain[|chain| - 1] in roots
    && forall i :: 0 < i < |chain| ==> CausedBy(a, b, chain[i - 1], chain[i])
  }

  lemma {:induction false} ExitsGrow(before: seq<Event>, after: seq<Event>, x: ActorId)
    requires before <= after
    ensures |Exits(before, x)| <= |Exits(after, x)|
    ensures (exists i :: |before| <= i < |after| && after[i].ExitEvent? && after[i].actor == x) ==> |Exits(before, x)| < |Exits(after, x)|
    decreases |after|
  {
    if before != after {
      var front := after[..|after| - 1];
      assert before <= front;
      ExitsGrow(before, front, x);
      forall i | |before| <= i < |after| && after[i].ExitEvent? && after[i].actor == x && i < |front| ensures front[i] == after[i] {
      }
    }
  }

  /** Nobody's end is recorded twice. */
  lemma RecordedOnce(a: World, b: World, x: ActorId, i: nat, j: nat)
    requires LogFollows(a, b) && x in Finished(a, b) && |a.log| <= i < |b.log| && |a.log| <= j < |b.log|
    requires b.log[i].ExitEvent? && b.log[i].actor == x && b.log[j].ExitEvent? && b.log[j].actor == x
    ensures i == j
  {
    if i != j {
      var lo, hi := if i < j then i else j, if i < j then j else i;
      assert LogAt(a, b, x);
      var middle := b.log[..hi];
      assert middle[lo] == b.log[lo];
      ExitsGrow(a.log, middle, x);
      ExitsGrow(middle, b.log, x);
    }
  }

  /** Whoever ends does so at the end of a chain of causes that began with a root. */
  lemma {:induction false} CausesLeadBack(a: World, b: World, roots: set<ActorId>, x: ActorId, i: nat)
    requires LogFollows(a, b) && EndsHaveCauses(a, b, map[], roots) && x in Finished(a, b) && x in b.completed
    requires |a.log| <= i < |b.log| && b.log[i] == ExitEvent(x, b.completed[x])
    ensures exists chain :: LeadsBack(a, b, chain, x, roots)
    decreases |b.log| - i
  {
    hide LogFollows, Crowded, Dies, FinalReason;
    if x in roots {
      assert LeadsBack(a, b, [x], x, roots);
    } else {
      var nobody: map<ActorId, Verdict> := map[];
      assert nobody.Keys == {};
      assert HasCause(a, b, nobody, x);
      var cause :| Caused(a, b, nobody, x, cause);
      var y := cause.teller;
      assert CausedBy(a, b, x, y);
      var k, j :| |a.log| <= k < j < |b.log| && b.log[k] == ExitEvent(x, b.completed[x]) && b.log[j] == ExitEvent(y, b.completed[y]);
      RecordedOnce(a, b, x, i, k);
      CausesLeadBack(a, b, roots, y, j);
      var chain :| LeadsBack(a, b, chain, y, roots);
      hide Caused, CausedBy;
      assert LeadsBack(a, b, [x] + chain, x, roots);
    }
  }

  lemma EveryEndLeadsBack(a: World, b: World, roots: set<ActorId>, x: ActorId)
    requires LogFollows(a, b) && CausesFollow(a, b, map[], roots) && x in Finished(a, b)
    ensures exists chain :: LeadsBack(a, b, chain, x, roots)
  {
    hide LogFollows, OthersSpared, EnteredAll, EndsHaveCauses, LeadsBack, Finished;
    ExitIsLogged(a, b, x);
    var i :| |a.log| <= i < |b.log| && b.log[i] == ExitEvent(x, b.completed[x]);
    CausesLeadBack(a, b, roots, x, i);
  }
}
