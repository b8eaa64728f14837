/** What holds over a whole run of the local runtime, beside the relations between actors. */
module LocalBooks {
  import opened Types
  import opened Mailboxes
  import opened ExitSignals
  import opened LocalState
  import opened LocalCascade

  /** History: the ids and references handed out so far, the calls answered, the timeouts delivered. */
  datatype Book = Book(
    issued: set<ActorId>,
    nextRef: Ref,
    answered: set<(ActorId, Ref)>,
    fired: multiset<(ActorId, Ref)>)

  // ------------------------------------------------------------------ per actor

  ghost predicate Range(m: map<Ref, ActorId>, book: Book) {
    forall r :: r in m ==> m[r] in book.issued && r < book.nextRef
  }

  /** An actor mentions only ids and references that have been handed out. */
  ghost predicate Known(a: Actor, book: Book) {
    a.id in book.issued && a.links <= book.issued && Range(a.monitorsIn, book) && Range(a.monitorsOut, book)
  }

  /** The life of one call timeout: armed, then delivered at most once; an answered call has none. */
  ghost predicate TimeoutFits(a: Actor, r: Ref, armed: bool, book: Book) {
    var queued := Count(a.mailbox.queue, TimeoutFor(r));
    && (armed ==> r < book.nextRef && book.fired[(a.id, r)] == 0 && (a.id, r) !in book.answered && queued == 0)
    && queued <= book.fired[(a.id, r)]
    && ((a.id, r) in book.answered ==> queued == 0)
  }

  ghost predicate TimeoutsFit(a: Actor, armed: set<(ActorId, Ref)>, book: Book) {
    forall r: Ref :: TimeoutFits(a, r, (a.id, r) in armed, book)
  }

  ghost predicate Fine(a: Actor, armed: set<(ActorId, Ref)>, book: Book) {
    Known(a, book) && TimeoutsFit(a, armed, book)
  }

  // ------------------------------------------------------------------ managed shutdown

  predicate IsRequest(e: Event) { e.ShutdownEvent? && e.phase == Requested && e.cause == None }

  ghost predicate Requests(t: seq<Event>) { forall i :: 0 <= i < |t| ==> IsRequest(t[i]) }

  predicate Matches(e: Event, tracker: Tracker) {
    e.ShutdownEvent? && e.requester == tracker.requester && e.policy == tracker.policy
  }

  predicate IsTimeout(e: Event, tracker: Tracker) {
    Matches(e, tracker) && e.phase == TimedOut && e.cause == Some(Kill)
  }

  /** A live actor: requests only, and it is tracked under the last of them. */
  ghost predicate LiveTrail(t: seq<Event>, tracked: Option<Tracker>) {
    Requests(t) && (t != [] <==> tracked.Some?) && (t != [] ==> Matches(t[|t| - 1], tracked.value))
  }

  /** Requests, then at most one timeout, then one completion; the last two are for the last request. */
  ghost predicate EndsAfter(t: seq<Event>, n: nat) {
    && 0 < n < |t| <= n + 2
    && Requests(t[..n])
    && var tracker := Tracker(t[n - 1].requester, t[n - 1].policy);
    && Matches(t[|t| - 1], tracker) && t[|t| - 1].phase == Completed && t[|t| - 1].cause.Some?
    && (|t| == n + 2 ==> IsTimeout(t[n], tracker))
  }

  /** A dead actor: nothing at all, or a closed sequence of shutdown events. */
  ghost predicate ClosedTrail(t: seq<Event>) { t == [] || exists n: nat :: EndsAfter(t, n) }

  function Tracked(w: World, x: ActorId): Option<Tracker> {
    if x in w.tasks then Some(w.tasks[x]) else None
  }

  ghost predicate TrailFits(w: World, out: set<ActorId>, x: ActorId) {
    var t := Trail(w.log, x);
    && (x in w.actors || x in out ==> LiveTrail(t, Tracked(w, x)))
    && (x in w.completed ==> ClosedTrail(t))
    && (x !in w.actors && x !in out ==> x !in w.tasks && (x !in w.completed ==> t == []))
  }

  /** The log and the trackers, with `out` the actors that are out of the table for their turn. */
  ghost predicate LogFits(w: World, out: set<ActorId>) {
    forall x :: TrailFits(w, out, x)
  }

  // ------------------------------------------------------------------ the whole run

  ghost predicate BookFits(w: World, book: Book) {
    && w.completed.Keys <= book.issued
    && (forall p :: p in w.callTimeouts || p in book.answered || p in book.fired ==> p.0 in book.issued && p.1 < book.nextRef)
    && (forall p :: book.fired[p] <= 1)
  }

  ghost predicate AllFine(w: World, book: Book) {
    forall x :: x in w.actors ==> w.actors[x].id == x && Fine(w.actors[x], w.callTimeouts, book)
  }

  ghost predicate Kept(w: World, out: set<ActorId>, book: Book) {
    AllFine(w, book) && LogFits(w, out) && BookFits(w, book)
  }

  /** Between driver steps. */
  ghost predicate Sound(w: World, book: Book) {
    Inv(w) && Kept(w, {}, book)
  }

  ghost predicate Enqueued(a: Actor, runQueue: seq<ActorId>) { a.scheduled ==> a.id in runQueue }

  /** During the turn of `cur`, which is out of the table. */
  ghost predicate Driving(w: World, cur: Actor, book: Book) {
    && Inv(w) && Fits(w, cur) && Agree(cur, cur) && Enqueued(cur, w.runQueue)
    && Fine(cur, w.callTimeouts, book)
    && Kept(w, {cur.id}, book)
  }

  // ------------------------------------------------------------------ cascades keep all of it

  /** Less is still fine: fewer links and monitors, fewer armed timers, the same queued timeouts. */
  ghost predicate Lessens(x: Actor, y: Actor) {
    && y.id == x.id && y.links <= x.links
    && (forall r :: r in y.monitorsOut ==> r in x.monitorsOut && y.monitorsOut[r] == x.monitorsOut[r])
    && (forall r :: r in y.monitorsIn ==> r in x.monitorsIn && y.monitorsIn[r] == x.monitorsIn[r])
    && (forall r :: Count(y.mailbox.queue, TimeoutFor(r)) == Count(x.mailbox.queue, TimeoutFor(r)))
  }

  lemma FineLessens(x: Actor, y: Actor, armed: set<(ActorId, Ref)>, still: set<(ActorId, Ref)>, book: Book)
    requires Fine(x, armed, book) && Lessens(x, y) && still <= armed
    ensures Fine(y, still, book)
  {
    hide Count;
    forall r: Ref ensures TimeoutFits(y, r, (y.id, r) in still, book) {
      assert TimeoutFits(x, r, (x.id, r) in armed, book);
    }
  }

  lemma ClosingEnds(t: seq<Event>, tracker: Tracker, x: ActorId, final: ExitReason)
    requires LiveTrail(t, Some(tracker))
    ensures ClosedTrail(t + [Closing(tracker, x, final)])
  {
    var u := t + [Closing(tracker, x, final)];
    assert u[..|t|] == t;
    assert EndsAfter(u, |t|);
  }

  lemma TrailFollows(a: World, b: World, out: set<ActorId>, x: ActorId)
    requires TrailFits(a, out, x) && LogAt(a, b, x) && TablesFollow(a, b) && out !! a.actors.Keys
    ensures TrailFits(b, out, x)
  {
    hide Trail, Exits, LiveTrail, ClosedTrail;
    if x in Finished(a, b) {
      if x in a.tasks {
        ClosingEnds(Trail(a.log, x), a.tasks[x], x, b.completed[x]);
      } else {
        NoTrail(Trail(a.log, x));
      }
    }
  }

  lemma NoTrail(t: seq<Event>)
    ensures LiveTrail(t, None) ==> t == [] && ClosedTrail(t)
  {
  }

  lemma AllFineFollows(a: World, b: World, book: Book)
    requires AllFine(a, book) && TablesFollow(a, b) && SurvivorsFollow(a, b, map[])
    ensures AllFine(b, book)
  {
    hide Fine, MailFollows;
    var nobody: map<ActorId, Verdict> := map[];
    assert nobody.Keys == {};
    forall x | x in b.actors ensures b.actors[x].id == x && Fine(b.actors[x], b.callTimeouts, book) {
      assert LinksFollow(a.actors[x], b.actors[x], Finished(a, b), {});
      FineLessens(a.actors[x], b.actors[x], a.callTimeouts, b.callTimeouts, book);
    }
  }

  lemma BookFollows(a: World, b: World, book: Book)
    requires BookFits(a, book) && AllFine(a, book) && TablesFollow(a, b)
    ensures BookFits(b, book)
  {
    forall x | x in b.completed ensures x in book.issued {
      assert x in a.completed || x in a.actors;
    }
  }

  lemma LogFitsFollows(a: World, b: World, out: set<ActorId>)
    requires LogFits(a, out) && LogFollows(a, b) && TablesFollow(a, b) && out !! a.actors.Keys
    ensures LogFits(b, out)
  {
    hide TrailFits, LogAt, TablesFollow;
    forall x ensures TrailFits(b, out, x) { TrailFollows(a, b, out, x); }
  }

  lemma KeptFollows(a: World, b: World, out: set<ActorId>, book: Book)
    requires Kept(a, out, book) && Evolves(a, b, map[]) && out !! a.actors.Keys
    ensures Kept(b, out, book)
  {
    hide LogFits, AllFine, BookFits, SurvivorsFollow, LogFollows, TablesFollow;
    LogFitsFollows(a, b, out);
    AllFineFollows(a, b, book);
    BookFollows(a, b, book);
  }

  /** A cascade during a turn leaves the running actor as it was. */
  lemma FitsFollows(a: World, b: World, cur: Actor)
    requires Fits(a, cur) && Evolves(a, b, map[])
    ensures Fits(b, cur)
  {
    hide NoticesFollow, MailFollows, LogFollows;
    var nobody: map<ActorId, Verdict> := map[];
    assert nobody.Keys == {};
    forall y | y in b.actors ensures Agree(cur, b.actors[y]) {
      assert Agree(cur, a.actors[y]);
      assert LinksFollow(a.actors[y], b.actors[y], Finished(a, b), {});
      AgreeFollows(cur, a.actors[y], b.actors[y], Finished(a, b));
    }
  }

  lemma AgreeFollows(cur: Actor, x: Actor, y: Actor, dead: set<ActorId>)
    requires Agree(cur, x) && LinksFollow(x, y, dead, {}) && cur.id !in dead && y.id == x.id
    ensures Agree(cur, y)
  {
  }

  lemma DrivingFollows(a: World, b: World, cur: Actor, book: Book)
    requires Driving(a, cur, book) && Evolves(a, b, map[]) && Inv(b)
    ensures Driving(b, cur, book)
  {
    assert a.runQueue <= b.runQueue && TablesFollow(a, b);
    assert Fine(cur, b.callTimeouts, book) by {
      FineLessens(cur, cur, a.callTimeouts, b.callTimeouts, book);
    }
    assert cur.id !in a.actors;
    hide Inv, Kept, Fine, Evolves, TablesFollow, Agree;
    FitsFollows(a, b, cur);
    KeptFollows(a, b, {cur.id}, book);
  }
}
