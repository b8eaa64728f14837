/** Sends, call timeouts and shutdown requests as steps on the world, and what each preserves. */
module LocalSteps {
  import opened Types
  import opened Mailboxes
  import opened ExitSignals
  import opened LocalState
  import opened LocalCascade
  import opened LocalBooks

  datatype SendResult = Sent | Backpressure | NoProcess

  function TimeoutEntry(reference: Ref): Mailboxes.Queued -> bool {
    (q: Queued) => q.envelope == CallTimeout(reference)
  }

  /** The actor without its first queued timeout for this reference. */
  function Cleared(a: Actor, reference: Ref): Actor {
    a.(mailbox := Receive(a.mailbox, TimeoutEntry(reference)).1)
  }

  /** Withdraws a call timeout: its timer, and its envelope if it is already queued. */
  function Disarm(w: World, actor: ActorId, reference: Ref): World {
    var v := w.(callTimeouts := w.callTimeouts - {(actor, reference)});
    if actor !in v.actors then v else v.(actors := v.actors[actor := Cleared(v.actors[actor], reference)])
  }

  function BeforePush(w: World, actor: ActorId, e: Envelope): World {
    if e.Reply? then Disarm(w, actor, e.reference) else w
  }

  function SendOutcome(w: World, actor: ActorId, e: Envelope): SendResult {
    var v := BeforePush(w, actor, e);
    if actor !in v.actors then NoProcess
    else if v.actors[actor].mailbox.IsFullFor(e) then Backpressure else Sent
  }

  /** A refused reply has still withdrawn the timeout. */
  function AfterSend(w: World, actor: ActorId, e: Envelope): World {
    var v := BeforePush(w, actor, e);
    if SendOutcome(w, actor, e) == Sent then Deliver(v, actor, e) else v
  }

  /** An accepted reply to a call that was really made is remembered. */
  ghost function BookAfterSend(w: World, actor: ActorId, e: Envelope, book: Book): Book {
    if SendOutcome(w, actor, e) == Sent && e.Reply? && e.reference < book.nextRef
    then book.(answered := book.answered + {(actor, e.reference)}) else book
  }

  lemma OnlyAnswersGrow(w: World, actor: ActorId, e: Envelope, book: Book)
    ensures var later := BookAfterSend(w, actor, e, book);
      later == book.(answered := later.answered) && book.answered <= later.answered
  {
  }

  // ------------------------------------------------------------------ steps that leave relations alone

  ghost predicate SameRelations(x: Actor, y: Actor) {
    y.id == x.id && y.links == x.links && y.monitorsIn == x.monitorsIn && y.monitorsOut == x.monitorsOut
  }

  /** Only mailboxes, schedules and call timeouts change, and whoever has work stays scheduled. */
  ghost predicate Quiet(w: World, v: World) {
    && v.actors.Keys == w.actors.Keys && v.completed == w.completed && v.tasks == w.tasks && v.log == w.log
    && v.callTimeouts <= w.callTimeouts && w.runQueue <= v.runQueue
    && forall x :: x in v.actors ==> SameRelations(w.actors[x], v.actors[x]) && Schedulable(v.actors[x], v.runQueue)
  }

  lemma QuietKeepsInv(w: World, v: World)
    requires Inv(w) && Quiet(w, v)
    ensures Inv(v)
  {
    hide Agree, Schedulable;
    forall a, b | a in v.actors && b in v.actors ensures Agree(v.actors[a], v.actors[b]) {
      AgreeAsBefore(w.actors[a], v.actors[a], w.actors[b], v.actors[b]);
    }
  }

  lemma QuietKeepsFits(w: World, v: World, cur: Actor)
    requires Fits(w, cur) && Quiet(w, v)
    ensures Fits(v, cur)
  {
    hide Agree, Schedulable;
    forall y | y in v.actors ensures Agree(cur, v.actors[y]) {
      AgreeAsBefore(cur, cur, w.actors[y], v.actors[y]);
    }
  }

  lemma SameLogFits(w: World, v: World, out: set<ActorId>)
    requires LogFits(w, out)
    requires v.actors.Keys == w.actors.Keys && v.completed == w.completed && v.tasks == w.tasks && v.log == w.log
    ensures LogFits(v, out)
  {
    hide LiveTrail, ClosedTrail, Trail;
    forall x ensures TrailFits(v, out, x) { assert TrailFits(w, out, x); }
  }

  lemma QuietKeeps(w: World, v: World, out: set<ActorId>, book: Book, later: Book)
    requires Inv(w) && Quiet(w, v) && Kept(w, out, book)
    requires AllFine(v, later) && BookFits(v, later)
    ensures Inv(v) && Kept(v, out, later)
  {
    assert v.actors.Keys == w.actors.Keys && v.completed == w.completed && v.tasks == w.tasks && v.log == w.log;
    hide Inv, Quiet, AllFine, LogFits, BookFits;
    QuietKeepsInv(w, v);
    SameLogFits(w, v, out);
  }

  lemma QuietKeepsDriving(w: World, v: World, cur: Actor, book: Book, later: Book)
    requires Driving(w, cur, book) && Quiet(w, v)
    requires AllFine(v, later) && BookFits(v, later) && Fine(cur, v.callTimeouts, later)
    ensures Driving(v, cur, later)
  {
    assert w.runQueue <= v.runQueue && (cur.scheduled ==> cur.id in w.runQueue);
    hide Inv, Quiet, Fits, Agree, Fine, AllFine, BookFits, Kept;
    QuietKeeps(w, v, {cur.id}, book, later);
    QuietKeepsFits(w, v, cur);
  }

  // --- delivery of anything but a call timeout

  lemma DeliverIsQuiet(w: World, y: ActorId, e: Envelope)
    requires Inv(w) && y in w.actors && !w.actors[y].mailbox.IsFullFor(e)
    ensures Quiet(w, Deliver(w, y, e))
  {
    InvAt(w, y);
    DeliveryShape(w, y, e);
    hide Deliver, Schedulable, Agree;
    var v := Deliver(w, y, e);
    forall x | x in v.actors ensures SameRelations(w.actors[x], v.actors[x]) && Schedulable(v.actors[x], v.runQueue) {
      if x != y { StaysSchedulable(w.actors[x], w.runQueue, v.runQueue); }
    }
  }

  lemma DeliverKeepsFine(w: World, y: ActorId, e: Envelope, book: Book)
    requires AllFine(w, book) && y in w.actors && !w.actors[y].mailbox.IsFullFor(e) && !e.CallTimeout?
    ensures AllFine(Deliver(w, y, e), book)
  {
    CountPush(w.actors[y].mailbox, e);
    DeliverKeepsRelations(w, y, e);
    var v := Deliver(w, y, e);
    assert v.actors[y].mailbox == w.actors[y].mailbox.Push(e);
    hide Fine, Deliver, Count;
    FineLessens(w.actors[y], v.actors[y], w.callTimeouts, v.callTimeouts, book);
  }

  // --- withdrawing a call timeout

  lemma {:induction false} CountSplit(q: seq<Mailboxes.Queued>, i: nat, n: Notice)
    requires i < |q|
    ensures Count(q, n) == Count(q[..i] + q[i + 1..], n) + Bit(Carries(q[i].envelope, n))
  {
    if i == |q| - 1 {
      assert q[..i] + q[i + 1..] == q[..|q| - 1];
    } else {
      var front := q[..|q| - 1];
      CountSplit(front, i, n);
      var rest := q[..i] + q[i + 1..];
      assert rest[..|rest| - 1] == front[..i] + front[i + 1..];
    }
  }

  lemma {:induction false} CountNone(q: seq<Mailboxes.Queued>, n: Notice)
    requires forall i :: 0 <= i < |q| ==> !Carries(q[i].envelope, n)
    ensures Count(q, n) == 0
  {
    if q != [] { CountNone(q[..|q| - 1], n); }
  }

  /** Clearing removes one queued timeout for that reference, if there is one, and nothing else. */
  lemma ClearedCounts(a: Actor, reference: Ref)
    ensures var b := Cleared(a, reference);
      && SameRelations(a, b)
      && (forall n :: n != TimeoutFor(reference) ==> Count(b.mailbox.queue, n) == Count(a.mailbox.queue, n))
      && Count(b.mailbox.queue, TimeoutFor(reference)) == Monus(Count(a.mailbox.queue, TimeoutFor(reference)), 1)
      && (b.mailbox.queue != [] ==> a.mailbox.queue != [])
  {
    var q := a.mailbox.queue;
    var b := Cleared(a, reference);
    var found := FirstMatch(q, TimeoutEntry(reference));
    if found.None? {
      assert forall i :: 0 <= i < |q| ==> !TimeoutEntry(reference)(q[i]);
      CountNone(q, TimeoutFor(reference));
    } else {
      var i := found.value;
      assert TimeoutEntry(reference)(q[i]);
      forall n ensures Count(q, n) == Count(b.mailbox.queue, n) + Bit(n == TimeoutFor(reference)) {
        CountSplit(q, i, n);
      }
    }
  }

  lemma ClearedStaysSchedulable(a: Actor, r: Ref, runQueue: seq<ActorId>)
    requires Schedulable(a, runQueue)
    ensures SameRelations(a, Cleared(a, r)) && Schedulable(Cleared(a, r), runQueue)
  {
    ClearedCounts(a, r);
  }

  lemma DisarmIsQuiet(w: World, actor: ActorId, r: Ref)
    requires Inv(w)
    ensures Quiet(w, Disarm(w, actor, r))
  {
    hide Agree, Schedulable, Cleared;
    var v := Disarm(w, actor, r);
    if actor in w.actors { ClearedStaysSchedulable(w.actors[actor], r, w.runQueue); }
    assert forall x :: x in v.actors ==> SameRelations(w.actors[x], v.actors[x]) && Schedulable(v.actors[x], v.runQueue);
  }

  /** The cleared actor is fine, and stays so when its call is marked as answered. */
  lemma ClearedIsFine(a: Actor, r: Ref, armed: set<(ActorId, Ref)>, book: Book)
    requires Fine(a, armed, book) && (forall p :: book.fired[p] <= 1)
    ensures var still := armed - {(a.id, r)};
      && Fine(Cleared(a, r), still, book)
      && Fine(Cleared(a, r), still, book.(answered := book.answered + {(a.id, r)}))
  {
    ClearedCounts(a, r);
    hide Count;
    var b := Cleared(a, r);
    var still := armed - {(a.id, r)};
    var marked := book.(answered := book.answered + {(a.id, r)});
    forall s: Ref
      ensures TimeoutFits(b, s, (b.id, s) in still, book) && TimeoutFits(b, s, (b.id, s) in still, marked)
    {
      assert TimeoutFits(a, s, (a.id, s) in armed, book);
    }
    assert Known(b, marked);
  }

  /** Someone else's timeout and answer do not matter. */
  lemma OthersStayFine(a: Actor, p: (ActorId, Ref), armed: set<(ActorId, Ref)>, book: Book)
    requires Fine(a, armed, book) && p.0 != a.id
    ensures Fine(a, armed - {p}, book)
    ensures Fine(a, armed - {p}, book.(answered := book.answered + {p}))
    ensures Fine(a, armed - {p}, book.(fired := book.fired + multiset{p}))
    ensures Fine(a, armed + {p}, book)
  {
    hide Count;
    forall s: Ref
      ensures TimeoutFits(a, s, (a.id, s) in armed - {p}, book)
      ensures TimeoutFits(a, s, (a.id, s) in armed - {p}, book.(answered := book.answered + {p}))
      ensures TimeoutFits(a, s, (a.id, s) in armed - {p}, book.(fired := book.fired + multiset{p}))
      ensures TimeoutFits(a, s, (a.id, s) in armed + {p}, book)
    {
      assert TimeoutFits(a, s, (a.id, s) in armed, book);
    }
  }

  lemma DisarmKeepsFine(w: World, actor: ActorId, r: Ref, book: Book)
    requires AllFine(w, book) && BookFits(w, book)
    ensures AllFine(Disarm(w, actor, r), book)
    ensures AllFine(Disarm(w, actor, r), book.(answered := book.answered + {(actor, r)}))
  {
    hide Fine, Cleared;
    var v := Disarm(w, actor, r);
    forall x | x in v.actors
      ensures v.actors[x].id == x
      ensures Fine(v.actors[x], v.callTimeouts, book)
      ensures Fine(v.actors[x], v.callTimeouts, book.(answered := book.answered + {(actor, r)}))
    {
      if x == actor {
        ClearedCounts(w.actors[x], r);
        ClearedIsFine(w.actors[x], r, w.callTimeouts, book);
      } else {
        OthersStayFine(w.actors[x], (actor, r), w.callTimeouts, book);
      }
    }
  }

  // --- any send

  lemma QuietTransitive(w: World, v: World, u: World)
    requires Quiet(w, v) && Quiet(v, u)
    ensures Quiet(w, u)
  {
    hide Schedulable;
  }

  lemma SendIsQuiet(w: World, actor: ActorId, e: Envelope)
    requires Inv(w)
    ensures Quiet(w, AfterSend(w, actor, e))
  {
    NothingIsQuiet(w);
    hide Quiet, Inv, Disarm, Deliver;
    var v := BeforePush(w, actor, e);
    if e.Reply? { DisarmIsQuiet(w, actor, e.reference); }
    QuietKeepsInv(w, v);
    if SendOutcome(w, actor, e) == Sent {
      DeliverIsQuiet(v, actor, e);
      QuietTransitive(w, v, Deliver(v, actor, e));
    }
  }

  lemma NothingIsQuiet(w: World)
    requires Inv(w)
    ensures Quiet(w, w)
  {
    hide Agree, Schedulable;
  }

  lemma DisarmKeepsBook(w: World, actor: ActorId, r: Ref, book: Book)
    requires BookFits(w, book) && AllFine(w, book)
    ensures BookFits(Disarm(w, actor, r), book)
    ensures actor in w.actors && r < book.nextRef ==> BookFits(Disarm(w, actor, r), book.(answered := book.answered + {(actor, r)}))
    ensures Disarm(w, actor, r).actors.Keys == w.actors.Keys
  {
    hide TimeoutsFit;
    if actor in w.actors { assert Fine(w.actors[actor], w.callTimeouts, book); }
  }

  lemma DeliverKeepsBook(w: World, y: ActorId, e: Envelope, book: Book)
    requires BookFits(w, book) && y in w.actors && !w.actors[y].mailbox.IsFullFor(e)
    ensures BookFits(Deliver(w, y, e), book)
  {
    DeliverKeepsRelations(w, y, e);
    hide Deliver;
  }

  /** Before the push: the state is fine for the later book already. */
  lemma BeforePushKeepsFine(w: World, actor: ActorId, e: Envelope, book: Book)
    requires AllFine(w, book) && BookFits(w, book)
    ensures AllFine(BeforePush(w, actor, e), BookAfterSend(w, actor, e, book))
    ensures BookFits(BeforePush(w, actor, e), BookAfterSend(w, actor, e, book))
  {
    hide AllFine, BookFits, Disarm;
    if e.Reply? {
      DisarmKeepsFine(w, actor, e.reference, book);
      DisarmKeepsBook(w, actor, e.reference, book);
    }
  }

  lemma SendKeepsFine(w: World, actor: ActorId, e: Envelope, book: Book)
    requires AllFine(w, book) && BookFits(w, book) && !e.CallTimeout?
    ensures AllFine(AfterSend(w, actor, e), BookAfterSend(w, actor, e, book))
    ensures BookFits(AfterSend(w, actor, e), BookAfterSend(w, actor, e, book))
  {
    hide AllFine, BookFits, BeforePush, Deliver, BookAfterSend;
    BeforePushKeepsFine(w, actor, e, book);
    var v := BeforePush(w, actor, e);
    if SendOutcome(w, actor, e) == Sent {
      DeliverKeepsFine(v, actor, e, BookAfterSend(w, actor, e, book));
      DeliverKeepsBook(v, actor, e, BookAfterSend(w, actor, e, book));
    }
  }

  /** Between steps, any send keeps the whole state sound. */
  lemma SendKeepsSound(w: World, actor: ActorId, e: Envelope, book: Book)
    requires Sound(w, book) && !e.CallTimeout?
    ensures Sound(AfterSend(w, actor, e), BookAfterSend(w, actor, e, book))
  {
    hide Inv, AllFine, BookFits, LogFits, AfterSend, BookAfterSend, Quiet;
    SendIsQuiet(w, actor, e);
    SendKeepsFine(w, actor, e, book);
    QuietKeeps(w, AfterSend(w, actor, e), {}, book, BookAfterSend(w, actor, e, book));
  }

  lemma AfterSendTimeouts(w: World, actor: ActorId, e: Envelope)
    ensures AfterSend(w, actor, e).callTimeouts == if e.Reply? then w.callTimeouts - {(actor, e.reference)} else w.callTimeouts
  {
  }

  lemma SendKeepsDriving(w: World, cur: Actor, actor: ActorId, e: Envelope, book: Book)
    requires Driving(w, cur, book) && !e.CallTimeout? && actor != cur.id
    ensures Driving(AfterSend(w, actor, e), cur, BookAfterSend(w, actor, e, book))
  {
    AfterSendTimeouts(w, actor, e);
    hide Inv, Fits, Agree, AllFine, Fine, BookFits, LogFits, AfterSend, SendOutcome, Quiet;
    SendIsQuiet(w, actor, e);
    SendKeepsFine(w, actor, e, book);
    OthersStayFine(cur, (actor, if e.Reply? then e.reference else 0), w.callTimeouts, book);
    QuietKeepsDriving(w, AfterSend(w, actor, e), cur, book, BookAfterSend(w, actor, e, book));
  }

  /** Once a reply has been accepted, its timeout is neither armed nor queued. */
  lemma AnsweredHasNoTimeout(w: World, x: ActorId, r: Ref, book: Book)
    requires AllFine(w, book) && x in w.actors && (x, r) in book.answered
    ensures (x, r) !in w.callTimeouts
    ensures forall i :: 0 <= i < |w.actors[x].mailbox.queue| ==> w.actors[x].mailbox.queue[i].envelope != CallTimeout(r)
  {
    assert TimeoutFits(w.actors[x], r, (x, r) in w.callTimeouts, book);
    CountZero(w.actors[x].mailbox.queue, TimeoutFor(r));
  }

  lemma {:induction false} CountZero(q: seq<Mailboxes.Queued>, n: Notice)
    requires Count(q, n) == 0
    ensures forall i :: 0 <= i < |q| ==> !Carries(q[i].envelope, n)
  {
    if q != [] { CountZero(q[..|q| - 1], n); }
  }

  /** A reply that finds no room is refused, yet the call it answers has lost its timeout. */
  lemma RefusedReplyStillDisarms(w: World, x: ActorId, r: Ref, book: Book)
    requires Sound(w, book) && x in w.actors && SendOutcome(w, x, Reply(r)) == Backpressure
    ensures var v := AfterSend(w, x, Reply(r));
      && (x, r) !in v.callTimeouts && x in v.actors
      && forall i :: 0 <= i < |v.actors[x].mailbox.queue| ==> v.actors[x].mailbox.queue[i].envelope != CallTimeout(r)
  {
    var v := AfterSend(w, x, Reply(r));
    hide Inv, LogFits;
    assert TimeoutFits(w.actors[x], r, (x, r) in w.callTimeouts, book) by { assert Fine(w.actors[x], w.callTimeouts, book); }
    ClearedCounts(w.actors[x], r);
    assert v.actors[x] == Cleared(w.actors[x], r);
    CountZero(v.actors[x].mailbox.queue, TimeoutFor(r));
  }

  /** The timer of a call is armed, or its timeout is queued already. */
  ghost predicate HasTimeout(w: World, x: ActorId, r: Ref) {
    (x, r) in w.callTimeouts
    || (x in w.actors && exists i :: 0 <= i < |w.actors[x].mailbox.queue| && w.actors[x].mailbox.queue[i].envelope == CallTimeout(r))
  }

  /** A refused send leaves everything as it was, unless it is a reply to a call that has a timeout: that is withdrawn. */
  lemma RefusedSendIsHarmlessUnless(w: World, x: ActorId, e: Envelope)
    requires SendOutcome(w, x, e) != Sent
    ensures AfterSend(w, x, e) == w <==> !(e.Reply? && HasTimeout(w, x, e.reference))
  {
    if e.Reply? {
      var v := AfterSend(w, x, e);
      assert (x, e.reference) !in v.callTimeouts;
      if x in w.actors {
        var q, p := w.actors[x].mailbox.queue, TimeoutEntry(e.reference);
        var found := FirstMatch(q, p);
        if found.Some? {
          assert q[found.value].envelope == CallTimeout(e.reference);
          assert |v.actors[x].mailbox.queue| == |q| - 1;
        } else {
          assert forall i :: 0 <= i < |q| ==> !p(q[i]);
          assert v.actors == w.actors;
        }
      }
      if !HasTimeout(w, x, e.reference) {
        assert w.callTimeouts - {(x, e.reference)} == w.callTimeouts;
      }
    }
  }

  /** A caller with an armed timeout and a full mailbox. */
  function FullCaller(x: ActorId): World {
    var a := Actor(x, Box(1, [Queued(0, User(0))], 1, 0), {}, map[], map[], false, false, Runnable, true, true, false, false);
    World(map[x := a], map[], map[], {(x, 0)}, {}, [x], [])
  }

  /** It is a sound state, and there the reply is refused and the call will never time out. */
  lemma RefusedReplyLosesTheTimeout(x: ActorId)
    ensures var w := FullCaller(x);
      && Sound(w, Book({x}, 1, {}, multiset{}))
      && SendOutcome(w, x, Reply(0)) == Backpressure && (x, 0) in w.callTimeouts && (x, 0) !in AfterSend(w, x, Reply(0)).callTimeouts
      && AfterSend(w, x, Reply(0)).actors == w.actors
  {
    var w, book := FullCaller(x), Book({x}, 1, {}, multiset{});
    var q := w.actors[x].mailbox.queue;
    assert q[..0] == [];
    assert forall n: Notice :: Count(q, n) == 0 by {
      forall n: Notice ensures Count(q, n) == 0 { assert Count(q[..0], n) == 0; }
    }
    assert forall y: ActorId :: Trail(w.log, y) == [];
    assert NoMatch(q, TimeoutEntry(0));
    hide Trail, Count;
    assert Fine(w.actors[x], w.callTimeouts, book);
  }

  // --- a call timeout fires

  function Expire(w: World, actor: ActorId, r: Ref): World { w.(callTimeouts := w.callTimeouts - {(actor, r)}) }

  lemma ExpireKeepsSound(w: World, actor: ActorId, r: Ref, book: Book)
    requires Sound(w, book)
    ensures Sound(Expire(w, actor, r), book)
  {
    var v := Expire(w, actor, r);
    assert Inv(v) by { hide Agree, Schedulable; }
    hide Inv, Fine, TrailFits;
    SameLogFits(w, v, {});
    forall x | x in v.actors ensures Fine(v.actors[x], v.callTimeouts, book) {
      FineLessens(w.actors[x], v.actors[x], w.callTimeouts, v.callTimeouts, book);
    }
  }

  lemma FiredIsFine(a: Actor, b: Actor, r: Ref, armed: set<(ActorId, Ref)>, book: Book)
    requires Fine(a, armed, book) && (a.id, r) in armed
    requires SameRelations(a, b) && b.mailbox == a.mailbox.Push(CallTimeout(r))
    ensures Fine(b, armed - {(a.id, r)}, book.(fired := book.fired + multiset{(a.id, r)}))
    ensures book.fired[(a.id, r)] == 0 && r < book.nextRef && (a.id, r) !in book.answered
  {
    CountPush(a.mailbox, CallTimeout(r));
    hide Count;
    assert TimeoutFits(a, r, true, book);
    var later := book.(fired := book.fired + multiset{(a.id, r)});
    forall s: Ref ensures TimeoutFits(b, s, (b.id, s) in armed - {(a.id, r)}, later) {
      assert TimeoutFits(a, s, (a.id, s) in armed, book);
    }
    assert Known(b, later);
  }

  /** Delivered and disarmed, everyone is fine under the later book. */
  lemma FireKeepsFine(w: World, actor: ActorId, r: Ref, book: Book)
    requires AllFine(w, book) && (actor, r) in w.callTimeouts && actor in w.actors
    requires !w.actors[actor].mailbox.IsFullFor(CallTimeout(r))
    ensures AllFine(Deliver(Expire(w, actor, r), actor, CallTimeout(r)), book.(fired := book.fired + multiset{(actor, r)}))
    ensures book.fired[(actor, r)] == 0 && r < book.nextRef && (actor, r) !in book.answered && actor in book.issued
  {
    hide Deliver;
    DeliverKeepsRelations(Expire(w, actor, r), actor, CallTimeout(r));
    var v := Deliver(Expire(w, actor, r), actor, CallTimeout(r));
    assert Known(w.actors[actor], book);
    hide Fine;
    FiredIsFine(w.actors[actor], v.actors[actor], r, w.callTimeouts, book);
    forall x | x in v.actors
      ensures v.actors[x].id == x && Fine(v.actors[x], v.callTimeouts, book.(fired := book.fired + multiset{(actor, r)}))
    {
      if x != actor { OthersStayFine(w.actors[x], (actor, r), w.callTimeouts, book); }
    }
  }

  /** An armed timeout is delivered at most once: firing disarms it and is written down. */
  lemma FireKeepsSound(w: World, actor: ActorId, r: Ref, book: Book)
    requires Sound(w, book) && (actor, r) in w.callTimeouts && actor in w.actors
    requires !w.actors[actor].mailbox.IsFullFor(CallTimeout(r))
    ensures Sound(Deliver(Expire(w, actor, r), actor, CallTimeout(r)), book.(fired := book.fired + multiset{(actor, r)}))
    ensures book.fired[(actor, r)] == 0 && (actor, r) !in book.answered
  {
    hide Inv, AllFine, LogFits, Deliver, Quiet;
    var u := Expire(w, actor, r);
    ExpireKeepsSound(w, actor, r, book);
    DeliverIsQuiet(u, actor, CallTimeout(r));
    DeliverKeepsRelations(u, actor, CallTimeout(r));
    FireKeepsFine(w, actor, r, book);
    QuietKeeps(u, Deliver(u, actor, CallTimeout(r)), {}, book, book.(fired := book.fired + multiset{(actor, r)}));
  }

  lemma ArmedHasNotFired(w: World, actor: ActorId, r: Ref, book: Book)
    requires Sound(w, book) && (actor, r) in w.callTimeouts && actor in w.actors
    ensures book.fired[(actor, r)] == 0 && (actor, r) !in book.answered
  {
    hide Inv, LogFits, BookFits;
    assert Fine(w.actors[actor], w.callTimeouts, book) && w.actors[actor].id == actor;
    assert TimeoutFits(w.actors[actor], r, true, book);
  }

  // --- a managed shutdown is requested

  function RequestEvent(actor: ActorId, t: Tracker): Event {
    ShutdownEvent(t.requester, actor, t.policy, Requested, None)
  }

  /** The earlier tracker, if any, is replaced, and the request is logged. */
  function Track(w: World, actor: ActorId, t: Tracker): World {
    w.(tasks := w.tasks[actor := t], log := w.log + [RequestEvent(actor, t)])
  }

  lemma TrackTrail(w: World, out: set<ActorId>, actor: ActorId, t: Tracker, x: ActorId)
    requires TrailFits(w, out, x) && actor in w.actors && actor !in w.completed
    ensures TrailFits(Track(w, actor, t), out, x)
  {
    TrailConcat(w.log, [RequestEvent(actor, t)], x);
    TrailOfOne(RequestEvent(actor, t), x);
    hide Trail, LiveTrail, ClosedTrail;
    if x == actor {
      RequestedLives(Trail(w.log, x), Tracked(w, x), actor, t);
    } else {
      assert Trail(w.log, x) + [] == Trail(w.log, x);
    }
  }

  lemma RequestedLives(t: seq<Event>, before: Option<Tracker>, actor: ActorId, tracker: Tracker)
    requires LiveTrail(t, before)
    ensures LiveTrail(t + [RequestEvent(actor, tracker)], Some(tracker))
  {
  }

  lemma TrackKeeps(w: World, out: set<ActorId>, actor: ActorId, t: Tracker, book: Book)
    requires Inv(w) && Kept(w, out, book) && actor in w.actors
    ensures Inv(Track(w, actor, t)) && Kept(Track(w, actor, t), out, book)
  {
    assert Inv(Track(w, actor, t)) && actor !in w.completed by { hide Agree, Schedulable; }
    hide Inv, Fine, TrailFits;
    forall x ensures TrailFits(Track(w, actor, t), out, x) { TrackTrail(w, out, actor, t, x); }
  }

  lemma TrackKeepsDriving(w: World, cur: Actor, actor: ActorId, t: Tracker, book: Book)
    requires Driving(w, cur, book) && actor in w.actors
    ensures Driving(Track(w, actor, t), cur, book)
  {
    assert Fits(Track(w, actor, t), cur) by { hide Agree; }
    hide Inv, Kept, Agree, Fine, Fits;
    TrackKeeps(w, {cur.id}, actor, t, book);
  }

  // --- a managed shutdown times out: the actor is killed before anyone sees the state again

  function TimeoutEvent(actor: ActorId, t: Tracker): Event {
    ShutdownEvent(t.requester, actor, t.policy, TimedOut, Some(Kill))
  }

  lemma TimedOutEnds(t: seq<Event>, tracker: Tracker, x: ActorId, final: ExitReason)
    requires LiveTrail(t, Some(tracker))
    ensures ClosedTrail(t + [TimeoutEvent(x, tracker)] + [Closing(tracker, x, final)])
  {
    var u := t + [TimeoutEvent(x, tracker)] + [Closing(tracker, x, final)];
    assert u[..|t|] == t;
    assert EndsAfter(u, |t|);
  }

  lemma TimedOutTrail(w: World, b: World, actor: ActorId, x: ActorId)
    requires TrailFits(w, {}, x) && actor in w.tasks && actor in w.actors
    requires var a := Append(w, TimeoutEvent(actor, w.tasks[actor]));
      TablesFollow(a, b) && LogAt(a, b, x) && actor !in b.actors
    ensures TrailFits(b, {}, x)
  {
    var event := TimeoutEvent(actor, w.tasks[actor]);
    var a := Append(w, event);
    TrailConcat(w.log, [event], x);
    TrailOfOne(event, x);
    hide Trail, Exits, LiveTrail, ClosedTrail;
    if x == actor {
      TimedOutEnds(Trail(w.log, x), w.tasks[x], x, b.completed[x]);
    } else {
      assert Trail(a.log, x) == Trail(w.log, x) + [] == Trail(w.log, x);
      assert TrailFits(a, {}, x);
      TrailFollows(a, b, {}, x);
    }
  }

  lemma TimedOutKeeps(w: World, b: World, actor: ActorId, book: Book)
    requires Kept(w, {}, book) && actor in w.tasks && actor in w.actors
    requires Evolves(Append(w, TimeoutEvent(actor, w.tasks[actor])), b, map[]) && actor !in b.actors
    ensures Kept(b, {}, book)
  {
    var a := Append(w, TimeoutEvent(actor, w.tasks[actor]));
    assert AllFine(a, book) by { hide Fine; }
    assert LogFits(b, {}) by {
      hide TrailFits, LogAt, AllFine, BookFits, SurvivorsFollow, TablesFollow;
      forall x ensures TrailFits(b, {}, x) { TimedOutTrail(w, b, actor, x); }
    }
    assert BookFits(a, book);
    hide AllFine, BookFits, LogFits, TablesFollow, SurvivorsFollow, LogFollows;
    AllFineFollows(a, b, book);
    BookFollows(a, b, book);
  }
}
