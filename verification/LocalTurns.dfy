/** What a running actor may do during its turn, while it is out of the table. */
module LocalTurns {
  import opened Types
  import opened Mailboxes
  import opened Receiving
  import opened ExitSignals
  import opened LocalState
  import opened LocalCascade
  import opened LocalBooks
  import opened LocalSteps
  import opened LocalReach

  // ------------------------------------------------------------------ only the running actor changes

  /** The running actor may change as it likes, as long as it still fits. */
  lemma SoloKeepsDriving(w: World, cur: Actor, next: Actor, runQueue: seq<ActorId>, book: Book, later: Book)
    requires Driving(w, cur, book) && next.id == cur.id && Agree(next, next) && Enqueued(next, runQueue)
    requires forall y :: y in w.actors ==> Agree(next, w.actors[y])
    requires w.runQueue <= runQueue
    requires Fine(next, w.callTimeouts, later) && AllFine(w, later) && BookFits(w, later)
    ensures Driving(w.(runQueue := runQueue), next, later)
  {
    var v := w.(runQueue := runQueue);
    assert Inv(v) by { QueueGrows(w, runQueue); }
    hide Inv, Agree, Fine;
    SameLogFits(w, v, {cur.id});
    assert AllFine(v, later);
  }

  lemma QueueGrows(w: World, runQueue: seq<ActorId>)
    requires Inv(w) && w.runQueue <= runQueue
    ensures Inv(w.(runQueue := runQueue))
  {
    hide Agree;
  }

  /** A change that leaves the actor's relations alone. */
  lemma QuietTurn(w: World, cur: Actor, next: Actor, runQueue: seq<ActorId>, book: Book)
    requires Driving(w, cur, book) && SameRelations(cur, next) && Enqueued(next, runQueue) && w.runQueue <= runQueue
    requires Fine(next, w.callTimeouts, book)
    ensures Driving(w.(runQueue := runQueue), next, book)
  {
    AgreeAsBefore(cur, next, cur, next);
    assert Kept(w, {cur.id}, book) && forall y :: y in w.actors ==> Agree(cur, w.actors[y]);
    hide Driving, Agree, AllFine, BookFits, LogFits, Fine;
    forall y | y in w.actors ensures Agree(next, w.actors[y]) {
      AgreeAsBefore(cur, next, w.actors[y], w.actors[y]);
    }
    SoloKeepsDriving(w, cur, next, runQueue, book, book);
  }

  // --- mail from and to the running actor itself

  /** A send to oneself goes straight into the mailbox and withdraws nothing. */
  function SelfSend(w: World, cur: Actor, e: Envelope): (SendResult, World, Actor) {
    match PushEnvelope(cur, e)
    case MailboxFull => (Backpressure, w, cur)
    case Pushed(next, enqueue) =>
      (Sent, if enqueue then w.(runQueue := w.runQueue + [cur.id]) else w, next)
  }

  lemma SelfSendShape(w: World, cur: Actor, e: Envelope)
    requires Enqueued(cur, w.runQueue)
    ensures var (result, v, next) := SelfSend(w, cur, e);
      && (result == Sent <==> !cur.mailbox.IsFullFor(e))
      && (result != Sent ==> v == w && next == cur)
      && (result == Sent ==> next.mailbox == cur.mailbox.Push(e))
      && SameRelations(cur, next) && Enqueued(next, v.runQueue) && w.runQueue <= v.runQueue && v == w.(runQueue := v.runQueue)
      && next.initialized == cur.initialized
  {
  }

  lemma PushStaysFine(x: Actor, y: Actor, e: Envelope, armed: set<(ActorId, Ref)>, book: Book)
    requires Fine(x, armed, book) && SameRelations(x, y) && y.mailbox == x.mailbox.Push(e) && !e.CallTimeout?
    ensures Fine(y, armed, book)
  {
    CountPush(x.mailbox, e);
    hide Fine, Count;
    FineLessens(x, y, armed, armed, book);
  }

  lemma SelfSendKeepsDriving(w: World, cur: Actor, e: Envelope, book: Book)
    requires Driving(w, cur, book) && !e.CallTimeout?
    ensures var (_, v, next) := SelfSend(w, cur, e); Driving(v, next, book)
  {
    assert Enqueued(cur, w.runQueue) && Fine(cur, w.callTimeouts, book);
    hide Driving, SelfSend, Fine, Agree, Inv, Kept, Fits;
    SelfSendShape(w, cur, e);
    var (result, v, next) := SelfSend(w, cur, e);
    if result == Sent {
      PushStaysFine(cur, next, e, w.callTimeouts, book);
      QuietTurn(w, cur, next, v.runQueue, book);
    }
  }

  /** Mail the runtime sends to the running actor: with no room for it, the turn ends the actor. */
  function SelfNotice(w: World, cur: Actor, e: Envelope, delivering: string): (Option<ExitReason>, World, Actor) {
    var (result, v, next) := SelfSend(w, cur, e);
    (if result == Sent then None else Some(OverflowReason(cur.id, delivering)), v, next)
  }

  // --- links and monitors with another actor in the table

  /** Except for the entries about `id`, `y` mentions exactly what `x` does. */
  ghost predicate ChangedAbout(x: Actor, y: Actor, id: ActorId) {
    && y.id == x.id && y.links - {id} == x.links - {id}
    && ChangedMonitors(x.monitorsIn, y.monitorsIn, id) && ChangedMonitors(x.monitorsOut, y.monitorsOut, id)
  }

  ghost predicate ChangedMonitors(m: map<Ref, ActorId>, n: map<Ref, ActorId>, id: ActorId) {
    && (forall r :: r in n && n[r] != id ==> r in m && m[r] == n[r])
    && (forall r :: r in m && m[r] != id ==> r in n && n[r] == m[r])
  }

  lemma ChangedKeepsAgree(x: Actor, y: Actor, z: Actor, id: ActorId)
    requires ChangedAbout(x, y, id) && z.id != id
    ensures Agree(x, z) ==> Agree(y, z)
    ensures Agree(z, x) ==> Agree(z, y)
  {
    assert forall i :: i != id ==> (i in y.links <==> i in y.links - {id});
    assert forall i :: i != id ==> (i in x.links <==> i in x.links - {id});
  }

  ghost predicate SameState(x: Actor, y: Actor) {
    y == x.(links := y.links, monitorsIn := y.monitorsIn, monitorsOut := y.monitorsOut)
  }

  /** Everyone in the table agrees with everyone, and with the running actor. */
  ghost predicate AllAgree(actors: map<ActorId, Actor>, cur: Actor) {
    && Agree(cur, cur)
    && (forall z :: z in actors ==> actors[z].id == z && z != cur.id && Agree(cur, actors[z]))
    && (forall p, q :: p in actors && q in actors ==> Agree(actors[p], actors[q]))
  }

  /** The running actor and one other change what they know of each other, and still agree. */
  lemma PairKeepsAgreement(actors: map<ActorId, Actor>, cur: Actor, next: Actor, y: ActorId, b: Actor)
    requires AllAgree(actors, cur) && y in actors
    requires ChangedAbout(cur, next, y) && ChangedAbout(actors[y], b, cur.id) && Agree(next, b)
    ensures AllAgree(actors[y := b], next)
  {
    var after := actors[y := b];
    assert next.id == cur.id && b.id == y;
    hide Agree, ChangedAbout;
    ChangedKeepsAgree(cur, next, cur, y);
    ChangedKeepsAgree(cur, next, next, y);
    forall z | z in after ensures Agree(next, after[z]) {
      if z != y { ChangedKeepsAgree(cur, next, actors[z], y); }
    }
    forall p, q | p in after && q in after ensures Agree(after[p], after[q]) {
      if p == y {
        ChangedKeepsAgree(actors[y], b, actors[q], cur.id);
        if q == y { ChangedKeepsAgree(actors[y], b, b, cur.id); }
      } else if q == y {
        ChangedKeepsAgree(actors[y], b, actors[p], cur.id);
      }
    }
  }

  lemma FitsMeansAgreement(w: World, cur: Actor)
    requires Inv(w) && Fits(w, cur) && Agree(cur, cur)
    ensures AllAgree(w.actors, cur) && cur.id !in w.completed && w.actors.Keys !! w.completed.Keys
    ensures forall z :: z in w.actors ==> Schedulable(w.actors[z], w.runQueue)
  {
    hide Agree, Schedulable;
  }

  lemma AgreementMeansFits(w: World, cur: Actor)
    requires AllAgree(w.actors, cur) && cur.id !in w.completed && w.actors.Keys !! w.completed.Keys
    requires forall z :: z in w.actors ==> Schedulable(w.actors[z], w.runQueue)
    ensures Inv(w) && Fits(w, cur) && Agree(cur, cur)
  {
    hide Agree, Schedulable;
  }

  lemma SameStateSchedulable(x: Actor, y: Actor, runQueue: seq<ActorId>)
    requires Schedulable(x, runQueue) && SameState(x, y)
    ensures Schedulable(y, runQueue)
  {
  }

  lemma PairKeepsInv(w: World, cur: Actor, next: Actor, y: ActorId, b: Actor)
    requires Inv(w) && Fits(w, cur) && Agree(cur, cur) && y in w.actors && b.id == y && next.id == cur.id
    requires ChangedAbout(cur, next, y) && ChangedAbout(w.actors[y], b, cur.id) && Agree(next, b)
    requires SameState(w.actors[y], b)
    ensures Inv(Put(w, b)) && Fits(Put(w, b), next) && Agree(next, next)
  {
    hide Inv, Fits, Agree, ChangedAbout, Schedulable, AllAgree, SameState;
    FitsMeansAgreement(w, cur);
    PairKeepsAgreement(w.actors, cur, next, y, b);
    SameStateSchedulable(w.actors[y], b, w.runQueue);
    AgreementMeansFits(Put(w, b), next);
  }

  lemma SameMailStaysFine(x: Actor, y: Actor, armed: set<(ActorId, Ref)>, book: Book, later: Book)
    requires Fine(x, armed, book) && Known(y, later) && y.id == x.id && y.mailbox == x.mailbox
    requires later == book.(nextRef := later.nextRef, issued := later.issued) && book.nextRef <= later.nextRef
    ensures Fine(y, armed, later)
  {
    hide Count, Known;
    forall r: Ref ensures TimeoutFits(y, r, (y.id, r) in armed, later) {
      assert TimeoutFits(x, r, (x.id, r) in armed, book);
    }
  }

  /** Handing out more ids and references disturbs nobody. */
  ghost predicate Later(book: Book, later: Book) {
    && later == book.(nextRef := later.nextRef, issued := later.issued)
    && book.nextRef <= later.nextRef && book.issued <= later.issued
  }

  lemma LaterStaysFine(w: World, book: Book, later: Book)
    requires AllFine(w, book) && BookFits(w, book) && Later(book, later)
    ensures AllFine(w, later) && BookFits(w, later)
  {
    hide TimeoutsFit;
    forall x | x in w.actors ensures Fine(w.actors[x], w.callTimeouts, later) {
      assert Fine(w.actors[x], w.callTimeouts, book);
      SameMailStaysFine(w.actors[x], w.actors[x], w.callTimeouts, book, later);
    }
  }

  lemma PairKeepsDriving(w: World, cur: Actor, next: Actor, y: ActorId, b: Actor, book: Book, later: Book)
    requires Driving(w, cur, book) && y in w.actors && Later(book, later)
    requires ChangedAbout(cur, next, y) && ChangedAbout(w.actors[y], b, cur.id) && Agree(next, b)
    requires SameState(cur, next) && SameState(w.actors[y], b)
    requires Known(next, later) && Known(b, later) && b.id == y && next.id == cur.id
    ensures Driving(Put(w, b), next, later)
  {
    hide Inv, Fits, Agree, ChangedAbout, Known, LogFits, Fine, BookFits, AllFine;
    var v := Put(w, b);
    PairKeepsInv(w, cur, next, y, b);
    LaterStaysFine(w, book, later);
    SameMailStaysFine(cur, next, w.callTimeouts, book, later);
    PairKeepsFine(w, y, b, book, later);
    SameLogFits(w, v, {cur.id});
  }

  lemma PairKeepsFine(w: World, y: ActorId, b: Actor, book: Book, later: Book)
    requires AllFine(w, book) && BookFits(w, book) && y in w.actors && Later(book, later)
    requires b.id == y && b.mailbox == w.actors[y].mailbox && Known(b, later)
    ensures AllFine(Put(w, b), later) && BookFits(Put(w, b), later)
  {
    LaterStaysFine(w, book, later);
    assert w.actors[y].id == y && Fine(w.actors[y], w.callTimeouts, book);
    hide Fine, Known;
    SameMailStaysFine(w.actors[y], b, w.callTimeouts, book, later);
  }

  // --- link

  datatype LinkResult = Done | NoSuchProcess | AlreadyLinked | NotLinked

  function LinkTarget(b: Actor, id: ActorId): Actor { b.(links := b.links + {id}) }

  function LinkUp(w: World, cur: Actor, other: ActorId): (LinkResult, World, Actor) {
    if other == cur.id then (Done, w, cur)
    else if other !in w.actors then (NoSuchProcess, w, cur)
    else if other in cur.links then (AlreadyLinked, w, cur)
    else (Done, w.(actors := w.actors[other := LinkTarget(w.actors[other], cur.id)]), cur.(links := cur.links + {other}))
  }

  lemma LinkKeepsDriving(w: World, cur: Actor, other: ActorId, book: Book)
    requires Driving(w, cur, book)
    ensures var (_, v, next) := LinkUp(w, cur, other); Driving(v, next, book)
  {
    if other != cur.id && other in w.actors && other !in cur.links {
      var next := cur.(links := cur.links + {other});
      var b := LinkTarget(w.actors[other], cur.id);
      KnownHere(w, cur, other, book);
      LinkShape(cur, w.actors[other]);
      hide Driving, Agree, Known, ChangedAbout;
      PairKeepsDriving(w, cur, next, other, b, book, book);
    }
  }

  lemma KnownHere(w: World, cur: Actor, other: ActorId, book: Book)
    requires Driving(w, cur, book) && other in w.actors
    ensures w.actors[other].id == other && other != cur.id
    ensures Known(cur, book) && Known(w.actors[other], book)
    ensures Known(cur.(links := cur.links + {other}), book) && Known(LinkTarget(w.actors[other], cur.id), book)
    ensures Agree(cur, w.actors[other])
  {
    assert Fine(w.actors[other], w.callTimeouts, book);
    hide Inv, LogFits, BookFits;
  }

  lemma LinkShape(x: Actor, y: Actor)
    requires Agree(x, y) && x.id != y.id
    ensures var x' := x.(links := x.links + {y.id});
      var y' := LinkTarget(y, x.id);
      ChangedAbout(x, x', y.id) && ChangedAbout(y, y', x.id) && Agree(x', y') && SameState(x, x') && SameState(y, y')
  {
    assert x.links + {y.id} - {y.id} == x.links - {y.id};
    assert y.links + {x.id} - {x.id} == y.links - {x.id};
  }

  // --- unlink

  function LinkDown(w: World, cur: Actor, other: ActorId): (LinkResult, World, Actor) {
    if other == cur.id then (Done, w, cur)
    else if other !in w.actors then (NoSuchProcess, w, cur)
    else if other !in cur.links then (NotLinked, w, cur)
    else (Done,
          w.(actors := w.actors[other := w.actors[other].(links := w.actors[other].links - {cur.id})]),
          cur.(links := cur.links - {other}))
  }

  lemma UnlinkKeepsDriving(w: World, cur: Actor, other: ActorId, book: Book)
    requires Driving(w, cur, book)
    ensures var (_, v, next) := LinkDown(w, cur, other); Driving(v, next, book)
  {
    if other != cur.id && other in w.actors && other in cur.links {
      var next := cur.(links := cur.links - {other});
      var b := w.actors[other].(links := w.actors[other].links - {cur.id});
      KnownHere(w, cur, other, book);
      UnlinkShape(cur, w.actors[other]);
      assert Known(next, book) && Known(b, book);
      hide Driving, Agree, Known, ChangedAbout;
      PairKeepsDriving(w, cur, next, other, b, book, book);
    }
  }

  lemma UnlinkShape(x: Actor, y: Actor)
    requires Agree(x, y) && x.id != y.id
    ensures var x' := x.(links := x.links - {y.id});
      var y' := y.(links := y.links - {x.id});
      ChangedAbout(x, x', y.id) && ChangedAbout(y, y', x.id) && Agree(x', y') && SameState(x, x') && SameState(y, y')
  {
  }

  ghost predicate LinkedBothWays(w: World, cur: Actor, other: ActorId) {
    other in w.actors && other in cur.links && cur.id in w.actors[other].links
  }

  ghost predicate LinkedNeitherWay(w: World, cur: Actor, other: ActorId) {
    other in w.actors && other !in cur.links && cur.id !in w.actors[other].links
  }

  lemma LinksAgree(w: World, cur: Actor, other: ActorId, book: Book)
    requires Driving(w, cur, book) && other in w.actors
    ensures LinkedBothWays(w, cur, other) || LinkedNeitherWay(w, cur, other)
  {
    KnownHere(w, cur, other, book);
    hide Driving, Known, MonitorsAgree;
  }

  lemma UnlinkAfterLink(w: World, cur: Actor, other: ActorId)
    requires other != cur.id && LinkedNeitherWay(w, cur, other)
    ensures var (result, v, next) := LinkUp(w, cur, other);
      result == Done && LinkedBothWays(v, next, other) && LinkDown(v, next, other) == (Done, w, cur)
  {
    var (_, v, next) := LinkUp(w, cur, other);
    assert next.(links := next.links - {other}) == cur;
    assert v.actors[other].(links := v.actors[other].links - {cur.id}) == w.actors[other];
    assert v.actors[other := w.actors[other]] == w.actors;
  }

  lemma LinkAfterUnlink(w: World, cur: Actor, other: ActorId)
    requires other != cur.id && LinkedBothWays(w, cur, other)
    ensures var (result, v, next) := LinkDown(w, cur, other);
      result == Done && LinkedNeitherWay(v, next, other) && LinkUp(v, next, other) == (Done, w, cur)
  {
    var (_, v, next) := LinkDown(w, cur, other);
    assert next.(links := next.links + {other}) == cur;
    assert LinkTarget(v.actors[other], cur.id) == w.actors[other];
    assert v.actors[other := w.actors[other]] == w.actors;
  }

  /** Before a link neither side mentions the other, after it both do, and unlinking leaves no trace of it. */
  lemma UnlinkUndoesLink(w: World, cur: Actor, other: ActorId, book: Book)
    requires Driving(w, cur, book) && other != cur.id
    ensures var (result, v, next) := LinkUp(w, cur, other);
      match result
      case Done => LinkedNeitherWay(w, cur, other) && LinkedBothWays(v, next, other) && LinkDown(v, next, other) == (Done, w, cur)
      case NoSuchProcess => other !in w.actors && v == w && next == cur
      case _ => result == AlreadyLinked && LinkedBothWays(w, cur, other) && v == w && next == cur
  {
    if other in w.actors {
      LinksAgree(w, cur, other, book);
      hide Driving, LinkDown;
      if other !in cur.links { UnlinkAfterLink(w, cur, other); }
    }
  }

  /** Before an unlink both sides mention the other, after it neither does, and linking anew restores it. */
  lemma LinkUndoesUnlink(w: World, cur: Actor, other: ActorId, book: Book)
    requires Driving(w, cur, book) && other != cur.id
    ensures var (result, v, next) := LinkDown(w, cur, other);
      match result
      case Done => LinkedBothWays(w, cur, other) && LinkedNeitherWay(v, next, other) && LinkUp(v, next, other) == (Done, w, cur)
      case NoSuchProcess => other !in w.actors && v == w && next == cur
      case _ => result == NotLinked && LinkedNeitherWay(w, cur, other) && v == w && next == cur
  {
    if other in w.actors {
      LinksAgree(w, cur, other, book);
      hide Driving, LinkUp;
      if other in cur.links { LinkAfterUnlink(w, cur, other); }
    }
  }

  // --- monitor

  /** A monitor on oneself, on a live actor, or on nobody: then the notice comes at once. */
  function Monitor(w: World, cur: Actor, other: ActorId, r: Ref): (Option<ExitReason>, World, Actor) {
    if other == cur.id then
      (None, w, cur.(monitorsIn := cur.monitorsIn[r := cur.id], monitorsOut := cur.monitorsOut[r := cur.id]))
    else if other in w.actors then
      (None,
       w.(actors := w.actors[other := w.actors[other].(monitorsIn := w.actors[other].monitorsIn[r := cur.id])]),
       cur.(monitorsOut := cur.monitorsOut[r := other]))
    else SelfNotice(w, cur, Down(r, other, NoProc), "down")
  }

  ghost function NextRef(book: Book): Book { book.(nextRef := book.nextRef + 1) }

  lemma MonitorKeepsDriving(w: World, cur: Actor, other: ActorId, book: Book)
    requires Driving(w, cur, book)
    ensures var (_, v, next) := Monitor(w, cur, other, book.nextRef); Driving(v, next, NextRef(book))
  {
    var r := book.nextRef;
    if other == cur.id {
      SelfMonitorKeepsDriving(w, cur, book);
    } else if other in w.actors {
      var next := cur.(monitorsOut := cur.monitorsOut[r := other]);
      var b := w.actors[other].(monitorsIn := w.actors[other].monitorsIn[r := cur.id]);
      KnownHere(w, cur, other, book);
      hide Driving, Agree, Known, ChangedAbout;
      KnownWatch(cur, w.actors[other], book);
      MonitorShape(cur, w.actors[other], r);
      PairKeepsDriving(w, cur, next, other, b, book, NextRef(book));
    } else {
      hide Driving;
      SelfSendKeepsDriving(w, cur, Down(r, other, NoProc), book);
      var (_, v, next) := Monitor(w, cur, other, r);
      LaterKeepsDriving(v, next, book, NextRef(book));
    }
  }

  lemma KnownWatch(x: Actor, y: Actor, book: Book)
    requires Known(x, book) && Known(y, book)
    ensures Known(x.(monitorsOut := x.monitorsOut[book.nextRef := y.id]), NextRef(book))
    ensures Known(y.(monitorsIn := y.monitorsIn[book.nextRef := x.id]), NextRef(book))
    ensures book.nextRef !in x.monitorsOut && book.nextRef !in x.monitorsIn
    ensures book.nextRef !in y.monitorsOut && book.nextRef !in y.monitorsIn
  {
  }

  lemma LaterKeepsDriving(w: World, cur: Actor, book: Book, later: Book)
    requires Driving(w, cur, book) && Later(book, later)
    ensures Driving(w, cur, later)
  {
    assert Known(cur, later);
    hide Inv, Fits, Agree, Known, TimeoutsFit, LogFits;
    LaterStaysFine(w, book, later);
    SameMailStaysFine(cur, cur, w.callTimeouts, book, later);
  }

  lemma MonitorShape(x: Actor, y: Actor, r: Ref)
    requires Agree(x, y) && x.id != y.id
    requires r !in x.monitorsOut && r !in x.monitorsIn && r !in y.monitorsOut && r !in y.monitorsIn
    ensures var x' := x.(monitorsOut := x.monitorsOut[r := y.id]);
      var y' := y.(monitorsIn := y.monitorsIn[r := x.id]);
      ChangedAbout(x, x', y.id) && ChangedAbout(y, y', x.id) && Agree(x', y') && SameState(x, x') && SameState(y, y')
  {
  }

  lemma SelfMonitorKeepsDriving(w: World, cur: Actor, book: Book)
    requires Driving(w, cur, book)
    ensures var next := cur.(monitorsIn := cur.monitorsIn[book.nextRef := cur.id], monitorsOut := cur.monitorsOut[book.nextRef := cur.id]);
      Driving(w, next, NextRef(book))
  {
    var r := book.nextRef;
    var later := NextRef(book);
    var next := cur.(monitorsIn := cur.monitorsIn[r := cur.id], monitorsOut := cur.monitorsOut[r := cur.id]);
    assert Known(next, later);
    assert ChangedAbout(cur, next, cur.id) && Agree(next, next);
    assert w == w.(runQueue := w.runQueue);
    SelfChange(w, cur, next, book, later);
  }

  /** The running actor changes only what it knows of itself. */
  lemma SelfChange(w: World, cur: Actor, next: Actor, book: Book, later: Book)
    requires Driving(w, cur, book) && Later(book, later) && Known(next, later) && SameState(cur, next)
    requires ChangedAbout(cur, next, cur.id) && Agree(next, next)
    ensures Driving(w, next, later)
  {
    assert AllFine(w, book) && BookFits(w, book);
    assert forall y :: y in w.actors ==> w.actors[y].id == y && y != cur.id && Agree(cur, w.actors[y]);
    assert Enqueued(next, w.runQueue);
    assert w == w.(runQueue := w.runQueue);
    hide Agree, Known, ChangedAbout, TimeoutsFit, LogFits;
    LaterStaysFine(w, book, later);
    SameMailStaysFine(cur, next, w.callTimeouts, book, later);
    forall y | y in w.actors ensures Agree(next, w.actors[y]) {
      ChangedKeepsAgree(cur, next, w.actors[y], cur.id);
    }
    hide Driving, AllFine, BookFits, Fine;
    SoloKeepsDriving(w, cur, next, w.runQueue, book, later);
  }

  // --- demonitor

  function Demonitor(w: World, cur: Actor, r: Ref): (bool, World, Actor) {
    if r !in cur.monitorsOut then (false, w, cur)
    else
      var target := cur.monitorsOut[r];
      var next := cur.(monitorsOut := cur.monitorsOut - {r});
      if target == cur.id then (true, w, next.(monitorsIn := next.monitorsIn - {r}))
      else if target in w.actors then
        (true, w.(actors := w.actors[target := w.actors[target].(monitorsIn := w.actors[target].monitorsIn - {r})]), next)
      else (true, w, next)
  }

  lemma DemonitorKeepsDriving(w: World, cur: Actor, r: Ref, book: Book)
    requires Driving(w, cur, book)
    ensures var (_, v, next) := Demonitor(w, cur, r); Driving(v, next, book)
  {
    if r in cur.monitorsOut {
      var target := cur.monitorsOut[r];
      var next := cur.(monitorsOut := cur.monitorsOut - {r});
      if target == cur.id {
        SelfDemonitor(w, cur, r, book);
      } else if target in w.actors {
        var b := w.actors[target].(monitorsIn := w.actors[target].monitorsIn - {r});
        KnownHere(w, cur, target, book);
        DemonitorShape(cur, w.actors[target], r);
        assert Known(next, book) && Known(b, book);
        hide Driving, Agree, Known, ChangedAbout;
        PairKeepsDriving(w, cur, next, target, b, book, book);
      } else {
        ForgetDead(w, cur, r, book);
      }
    }
  }

  /** Both the running actor and `other`, be it the same, hold the reference. */
  ghost predicate WatchesThrough(w: World, cur: Actor, other: ActorId, r: Ref) {
    && r in cur.monitorsOut && cur.monitorsOut[r] == other
    && var held := if other == cur.id then cur.monitorsIn else if other in w.actors then w.actors[other].monitorsIn else map[];
    r in held && held[r] == cur.id
  }

  lemma DemonitorAfterMonitor(w: World, cur: Actor, other: ActorId, r: Ref)
    requires other in w.actors && other != cur.id && r !in cur.monitorsOut && r !in w.actors[other].monitorsIn
    ensures var (exit, v, next) := Monitor(w, cur, other, r);
      exit == None && WatchesThrough(v, next, other, r) && Demonitor(v, next, r) == (true, w, cur)
  {
    var (_, v, next) := Monitor(w, cur, other, r);
    assert next.(monitorsOut := next.monitorsOut - {r}) == cur by { assert next.monitorsOut - {r} == cur.monitorsOut; }
    assert v.actors[other].(monitorsIn := v.actors[other].monitorsIn - {r}) == w.actors[other] by {
      assert v.actors[other].monitorsIn - {r} == w.actors[other].monitorsIn;
    }
    assert v.actors[other := w.actors[other]] == w.actors;
  }

  lemma SelfDemonitorAfterMonitor(w: World, cur: Actor, r: Ref)
    requires r !in cur.monitorsOut && r !in cur.monitorsIn
    ensures var (exit, v, next) := Monitor(w, cur, cur.id, r);
      exit == None && WatchesThrough(v, next, cur.id, r) && Demonitor(v, next, r) == (true, w, cur)
  {
    var (_, v, next) := Monitor(w, cur, cur.id, r);
    assert next.monitorsOut - {r} == cur.monitorsOut && next.monitorsIn - {r} == cur.monitorsIn;
  }

  lemma FreshHere(w: World, cur: Actor, book: Book)
    requires Driving(w, cur, book)
    ensures book.nextRef !in cur.monitorsOut && book.nextRef !in cur.monitorsIn
    ensures forall y :: y in w.actors ==> y != cur.id && book.nextRef !in w.actors[y].monitorsIn
  {
    assert Known(cur, book);
    forall y | y in w.actors ensures y != cur.id && book.nextRef !in w.actors[y].monitorsIn {
      KnownHere(w, cur, y, book);
    }
  }

  /**
   * A monitor on an actor that is there is held by both, and demonitoring leaves no trace of it. One on
   * an actor that is not is answered at once, by mail or, without room for that, by the end of the turn.
   */
  lemma DemonitorUndoesMonitor(w: World, cur: Actor, other: ActorId, book: Book)
    requires Driving(w, cur, book)
    ensures var r := book.nextRef;
      var (exit, v, next) := Monitor(w, cur, other, r);
      if other == cur.id || other in w.actors then
        exit == None && r !in cur.monitorsOut && WatchesThrough(v, next, other, r) && Demonitor(v, next, r) == (true, w, cur)
      else
        && v.actors == w.actors && next.monitorsOut == cur.monitorsOut
        && if cur.mailbox.IsFullFor(Down(r, other, NoProc)) then next == cur && exit == Some(OverflowReason(cur.id, "down"))
           else exit == None && next.mailbox == cur.mailbox.Push(Down(r, other, NoProc))
  {
    var r := book.nextRef;
    FreshHere(w, cur, book);
    if other == cur.id {
      SelfDemonitorAfterMonitor(w, cur, r);
    } else if other in w.actors {
      hide Driving;
      DemonitorAfterMonitor(w, cur, other, r);
      hide Monitor, Demonitor, WatchesThrough;
    } else {
      DrivingEnqueued(w, cur, book);
      hide Driving, SelfSend;
      SelfSendShape(w, cur, Down(r, other, NoProc));
    }
  }

  lemma HeldByBoth(w: World, cur: Actor, r: Ref, book: Book)
    requires Driving(w, cur, book) && r in cur.monitorsOut && (cur.monitorsOut[r] in w.actors || cur.monitorsOut[r] == cur.id)
    ensures WatchesThrough(w, cur, cur.monitorsOut[r], r) && cur.id !in w.actors
  {
    var target := cur.monitorsOut[r];
    assert cur.id !in w.actors && Agree(cur, cur);
    if target in w.actors { KnownHere(w, cur, target, book); }
    hide Driving, Known;
  }

  lemma DemonitorDrops(w: World, cur: Actor, r: Ref)
    requires r in cur.monitorsOut
    ensures var (found, v, next) := Demonitor(w, cur, r);
      found && next.monitorsOut == cur.monitorsOut - {r} && v.actors.Keys == w.actors.Keys
    ensures var (found, v, next) := Demonitor(w, cur, r);
      forall y :: y in w.actors && y != cur.monitorsOut[r] ==> v.actors[y] == w.actors[y]
    ensures var (found, v, next) := Demonitor(w, cur, r);
      var target := cur.monitorsOut[r];
      target in w.actors && target != cur.id ==> v.actors[target] == w.actors[target].(monitorsIn := w.actors[target].monitorsIn - {r})
  {
  }

  /** After demonitoring nobody holds the reference; nothing else has changed. */
  lemma DemonitorForgets(w: World, cur: Actor, r: Ref, book: Book)
    requires Driving(w, cur, book)
    ensures var (found, v, next) := Demonitor(w, cur, r);
      if r !in cur.monitorsOut then !found && v == w && next == cur
      else
        && found && next.monitorsOut == cur.monitorsOut - {r} && v.actors.Keys == w.actors.Keys
        && var target := cur.monitorsOut[r];
        && !WatchesThrough(v, next, target, r) && (target in w.actors || target == cur.id ==> WatchesThrough(w, cur, target, r))
        && (forall y :: y in w.actors && y != target ==> v.actors[y] == w.actors[y])
        && (target in w.actors ==> v.actors[target] == w.actors[target].(monitorsIn := w.actors[target].monitorsIn - {r}))
  {
    if r in cur.monitorsOut {
      var target := cur.monitorsOut[r];
      if target in w.actors || target == cur.id { HeldByBoth(w, cur, r, book); }
      DemonitorDrops(w, cur, r);
      var (found, v, next) := Demonitor(w, cur, r);
      assert r !in next.monitorsOut;
      hide Driving, Demonitor;
    }
  }

  lemma DemonitorShape(x: Actor, y: Actor, r: Ref)
    requires Agree(x, y) && x.id != y.id && r in x.monitorsOut && x.monitorsOut[r] == y.id
    ensures var x' := x.(monitorsOut := x.monitorsOut - {r});
      var y' := y.(monitorsIn := y.monitorsIn - {r});
      ChangedAbout(x, x', y.id) && ChangedAbout(y, y', x.id) && Agree(x', y') && SameState(x, x') && SameState(y, y')
  {
  }

  lemma SelfDemonitor(w: World, cur: Actor, r: Ref, book: Book)
    requires Driving(w, cur, book) && r in cur.monitorsOut && cur.monitorsOut[r] == cur.id
    ensures Driving(w, cur.(monitorsIn := cur.monitorsIn - {r}, monitorsOut := cur.monitorsOut - {r}), book)
  {
    var next := cur.(monitorsIn := cur.monitorsIn - {r}, monitorsOut := cur.monitorsOut - {r});
    assert Agree(cur, cur);
    assert r in cur.monitorsIn && cur.monitorsIn[r] == cur.id;
    assert Known(next, book);
    assert ChangedAbout(cur, next, cur.id) && Agree(next, next);
    hide Driving, Known, Agree, ChangedAbout;
    SelfChange(w, cur, next, book, book);
  }

  lemma ForgetDead(w: World, cur: Actor, r: Ref, book: Book)
    requires Driving(w, cur, book) && r in cur.monitorsOut && cur.monitorsOut[r] != cur.id && cur.monitorsOut[r] !in w.actors
    ensures Driving(w, cur.(monitorsOut := cur.monitorsOut - {r}), book)
  {
    var next := cur.(monitorsOut := cur.monitorsOut - {r});
    assert Known(next, book);
    assert ChangedAbout(cur, next, cur.monitorsOut[r]);
    ForgetAbout(w, cur, next, cur.monitorsOut[r], book);
  }

  /** The running actor drops what it knew of an actor that has ended. */
  lemma ForgetAbout(w: World, cur: Actor, next: Actor, dead: ActorId, book: Book)
    requires Driving(w, cur, book) && Known(next, book) && SameState(cur, next)
    requires ChangedAbout(cur, next, dead) && dead !in w.actors && dead != cur.id
    ensures Driving(w, next, book)
  {
    assert AllFine(w, book) && BookFits(w, book);
    assert forall y :: y in w.actors ==> w.actors[y].id == y && y != dead && Agree(cur, w.actors[y]);
    assert Enqueued(next, w.runQueue);
    assert w == w.(runQueue := w.runQueue);
    hide Agree, Known, ChangedAbout, TimeoutsFit, LogFits;
    SameMailStaysFine(cur, next, w.callTimeouts, book, book);
    ChangedKeepsAgree(cur, next, cur, dead);
    ChangedKeepsAgree(cur, next, next, dead);
    forall y | y in w.actors ensures Agree(next, w.actors[y]) {
      ChangedKeepsAgree(cur, next, w.actors[y], dead);
    }
    hide Driving, AllFine, BookFits, Fine;
    SoloKeepsDriving(w, cur, next, w.runQueue, book, book);
  }

  lemma ForgetLink(w: World, cur: Actor, dead: ActorId, book: Book)
    requires Driving(w, cur, book) && dead !in w.actors && dead != cur.id
    ensures Driving(w, cur.(links := cur.links - {dead}), book)
  {
    var next := cur.(links := cur.links - {dead});
    assert Known(next, book);
    assert ChangedAbout(cur, next, dead);
    hide Driving, Known, ChangedAbout;
    ForgetAbout(w, cur, next, dead, book);
  }

  // --- calls

  function Arm(w: World, actor: ActorId, r: Ref): World { w.(callTimeouts := w.callTimeouts - {(actor, r)} + {(actor, r)}) }

  /** A call under a reference that has just been handed out may be given a timeout. */
  lemma ArmKeepsDriving(w: World, cur: Actor, r: Ref, book: Book)
    requires Driving(w, cur, book) && r < book.nextRef
    requires book.fired[(cur.id, r)] == 0 && (cur.id, r) !in book.answered
    ensures Driving(Arm(w, cur.id, r), cur, book)
  {
    var v := Arm(w, cur.id, r);
    assert Inv(v) && Fits(v, cur) by { hide Agree, Schedulable; }
    assert forall x :: x in w.actors ==> x != cur.id && w.actors[x].id == x && Fine(w.actors[x], w.callTimeouts, book);
    ArmedIsFine(cur, r, w.callTimeouts, book);
    assert v.callTimeouts == w.callTimeouts + {(cur.id, r)};
    hide Inv, Fits, Agree, Fine;
    SameLogFits(w, v, {cur.id});
    forall x | x in v.actors ensures v.actors[x].id == x && Fine(v.actors[x], v.callTimeouts, book) {
      OthersStayFine(w.actors[x], (cur.id, r), w.callTimeouts, book);
    }
  }

  /** A call: a request under the reference `r`, from a turn; its timeout is armed if one is wanted and it was accepted. */
  function CallOut(w: World, cur: Actor, callee: ActorId, timed: bool, r: Ref): (SendResult, World, Actor) {
    var request := Request(r, cur.id);
    var (result, v, next) :=
      if callee == cur.id then SelfSend(w, cur, request) else (SendOutcome(w, callee, request), AfterSend(w, callee, request), cur);
    (result, if result == Sent && timed then Arm(v, cur.id, r) else v, next)
  }

  lemma ArmedIsFine(a: Actor, r: Ref, armed: set<(ActorId, Ref)>, book: Book)
    requires Fine(a, armed, book) && r < book.nextRef
    requires book.fired[(a.id, r)] == 0 && (a.id, r) !in book.answered
    ensures Fine(a, armed + {(a.id, r)}, book)
  {
    hide Count;
    forall s: Ref ensures TimeoutFits(a, s, (a.id, s) in armed + {(a.id, r)}, book) {
      assert TimeoutFits(a, s, (a.id, s) in armed, book);
    }
  }

  // --- births

  datatype Options = Options(capacity: nat, runtimeReserve: nat, trapExit: bool, selective: bool, terminatePanics: bool)

  function Newborn(id: ActorId, o: Options, links: set<ActorId>): Actor {
    Actor(id, Limited(o.capacity, o.runtimeReserve), links, map[], map[], o.trapExit, false, Starting, false, true,
          o.selective, o.terminatePanics)
  }

  /** Whatever it is asked to be, a newborn can take mail, has its options, and waits for its first hook. */
  lemma NewbornHasItsOptions(id: ActorId, o: Options, links: set<ActorId>, e: Envelope)
    ensures var a := Newborn(id, o, links);
      && Mailboxes.Valid(a.mailbox) && a.mailbox.queue == [] && !a.mailbox.IsFullFor(e)
      && a.trapExit == o.trapExit && a.selective == o.selective && a.terminatePanics == o.terminatePanics
      && a.id == id && a.links == links && a.monitorsIn == map[] && a.monitorsOut == map[]
      && !a.initialized && a.scheduled && !a.suspended && a.status == Starting
  {
    NewMailboxAccepts(o.capacity, o.runtimeReserve, e);
  }

  /** A new actor enters the table scheduled; its first turn will initialise it. */
  function Insert(w: World, a: Actor): World {
    w.(actors := w.actors[a.id := a], runQueue := w.runQueue + [a.id])
  }

  ghost function Issue(book: Book, id: ActorId): Book { book.(issued := book.issued + {id}) }

  /** An id that was never handed out is mentioned nowhere. */
  lemma Unmentioned(w: World, id: ActorId, out: set<ActorId>, book: Book)
    requires Kept(w, out, book) && id !in book.issued
    ensures id !in w.actors && id !in w.completed
    ensures forall x :: x in w.actors ==> Forgotten(w.actors[x], id)
  {
    forall x | x in w.actors ensures w.actors[x].id == x && x != id && Forgotten(w.actors[x], id) {
      assert Fine(w.actors[x], w.callTimeouts, book);
      hide Kept;
    }
  }

  lemma StrangersAgree(a: Actor, b: Actor)
    requires a.monitorsIn == a.monitorsOut == map[] && Forgotten(b, a.id) && b.id !in a.links
    ensures Agree(a, b) && Agree(b, a)
  {
  }

  lemma InsertKeepsInv(w: World, id: ActorId, o: Options, out: set<ActorId>, book: Book)
    requires Inv(w) && Kept(w, out, book) && id !in book.issued
    ensures Inv(Insert(w, Newborn(id, o, {})))
  {
    Unmentioned(w, id, out, book);
    var a := Newborn(id, o, {});
    var v := Insert(w, a);
    QueueGrows(w, v.runQueue);
    assert Agree(a, a);
    assert Schedulable(a, v.runQueue);
    hide Kept, Agree, Forgotten, Schedulable;
    forall p, q | p in v.actors && q in v.actors ensures Agree(v.actors[p], v.actors[q]) {
      if p == id && q != id { StrangersAgree(a, w.actors[q]); }
      if q == id && p != id { StrangersAgree(a, w.actors[p]); }
    }
  }

  lemma NewbornIsFine(w: World, id: ActorId, o: Options, book: Book)
    requires BookFits(w, book) && id !in book.issued
    ensures Fine(Newborn(id, o, {}), w.callTimeouts, Issue(book, id))
  {
    assert forall r: Ref :: (id, r) !in w.callTimeouts && (id, r) !in book.fired && (id, r) !in book.answered;
  }

  /** An actor enters under a fresh id, as a stranger to everyone. */
  lemma InsertKeeps(w: World, id: ActorId, o: Options, out: set<ActorId>, book: Book)
    requires Inv(w) && Kept(w, out, book) && id !in book.issued && out <= book.issued
    ensures var v := Insert(w, Newborn(id, o, {})); Inv(v) && Kept(v, out, Issue(book, id))
  {
    var a := Newborn(id, o, {});
    var v := Insert(w, a);
    Unmentioned(w, id, out, book);
    NewbornIsFine(w, id, o, book);
    assert BookFits(v, Issue(book, id));
    hide Inv, Fine, LogFits, BookFits;
    InsertKeepsInv(w, id, o, out, book);
    InsertKeepsLog(w, a, out);
    LaterStaysFine(w, book, Issue(book, id));
    assert AllFine(v, Issue(book, id));
  }

  lemma InsertKeepsLog(w: World, a: Actor, out: set<ActorId>)
    requires LogFits(w, out) && a.id !in w.actors && a.id !in w.completed && a.id !in out
    ensures LogFits(Insert(w, a), out)
  {
    hide Trail, ClosedTrail;
    forall x ensures TrailFits(Insert(w, a), out, x) { assert TrailFits(w, out, x); }
  }

  lemma InsertKeepsDriving(w: World, cur: Actor, id: ActorId, o: Options, book: Book)
    requires Driving(w, cur, book) && id !in book.issued
    ensures Driving(Insert(w, Newborn(id, o, {})), cur, Issue(book, id))
    ensures id != cur.id && id !in cur.links && id !in w.actors
  {
    var v := Insert(w, Newborn(id, o, {}));
    Unmentioned(w, id, {cur.id}, book);
    assert Known(cur, book) && Known(cur, Issue(book, id));
    KnownForgets(cur, id, book);
    StrangersAgree(Newborn(id, o, {}), cur);
    assert forall y :: y in w.actors ==> Agree(cur, w.actors[y]);
    assert Fits(v, cur) by { hide Agree; }
    hide Inv, Fits, Agree, Kept, Known;
    InsertKeeps(w, id, o, {cur.id}, book);
    SameMailStaysFine(cur, cur, w.callTimeouts, book, Issue(book, id));
  }

  lemma KnownForgets(a: Actor, id: ActorId, book: Book)
    requires Known(a, book) && id !in book.issued
    ensures Forgotten(a, id) && a.id != id
  {
  }

  // --- the turn ends

  /** After its turn: parked when there is no mail, otherwise scheduled. */
  function Rest(cur: Actor, runQueue: seq<ActorId>): (Actor, seq<ActorId>) {
    if cur.mailbox.queue == [] then (Park(cur), runQueue)
    else
      var (next, enqueue) := MarkScheduled(cur.(status := Runnable));
      (next, if enqueue then runQueue + [cur.id] else runQueue)
  }

  /** Back in the table. */
  function Return(w: World, cur: Actor): World {
    var (next, runQueue) := Rest(cur, w.runQueue);
    Put(w.(runQueue := runQueue), next)
  }

  lemma SeatKeepsLog(w: World, cur: Actor)
    requires LogFits(w, {cur.id}) && cur.id !in w.actors
    ensures LogFits(Put(w, cur), {})
  {
    hide Trail, ClosedTrail, LiveTrail;
    forall x ensures TrailFits(Put(w, cur), {}, x) { assert TrailFits(w, {cur.id}, x); }
  }

  /** Whatever the outcome of the turn, the books hold with the actor back in its place. */
  lemma SeatKeeps(w: World, cur: Actor, next: Actor, runQueue: seq<ActorId>, book: Book)
    requires Driving(w, cur, book) && SameRelations(cur, next) && next.mailbox == cur.mailbox
    ensures Kept(Put(w.(runQueue := runQueue), next), {}, book)
  {
    var u := w.(runQueue := runQueue);
    assert cur.id !in w.actors;
    SameMailStaysFine(cur, next, w.callTimeouts, book, book);
    hide Inv, Agree, Fine, Fits;
    SameLogFits(w, u, {next.id});
    SeatKeepsLog(u, next);
  }

  lemma SeatKeepsInv(w: World, cur: Actor, next: Actor, runQueue: seq<ActorId>, book: Book)
    requires Driving(w, cur, book) && SameRelations(cur, next) && Schedulable(next, runQueue) && w.runQueue <= runQueue
    ensures Inv(Put(w.(runQueue := runQueue), next))
  {
    var u := w.(runQueue := runQueue);
    var v := Put(u, next);
    assert forall y :: y in w.actors ==> Agree(cur, w.actors[y]);
    assert cur.id !in w.actors && cur.id !in w.completed;
    QueueGrows(w, runQueue);
    AgreeAsBefore(cur, next, cur, next);
    hide Agree, Kept, Schedulable, Driving;
    forall a, b | a in v.actors && b in v.actors ensures Agree(v.actors[a], v.actors[b]) {
      if a == next.id && b != a { AgreeAsBefore(cur, next, w.actors[b], w.actors[b]); }
      if b == next.id && b != a {
        AgreeAsBefore(cur, next, w.actors[a], w.actors[a]);
        AgreeSymmetric(next, w.actors[a]);
      }
    }
  }

  lemma AgreeSymmetric(a: Actor, b: Actor)
    requires Agree(a, b)
    ensures Agree(b, a)
  {
  }

  lemma RestedIsSchedulable(cur: Actor, runQueue: seq<ActorId>)
    requires cur.initialized && Enqueued(cur, runQueue)
    ensures var (next, after) := Rest(cur, runQueue);
      runQueue <= after && SameRelations(cur, next) && next.mailbox == cur.mailbox && Schedulable(next, after)
  {
    if cur.mailbox.queue != [] {
      ReadyIsSchedulable(cur, runQueue);
    }
  }

  lemma ReadyIsSchedulable(cur: Actor, runQueue: seq<ActorId>)
    requires cur.initialized && Enqueued(cur, runQueue)
    ensures var (next, enqueue) := MarkScheduled(cur.(status := Runnable));
      && SameRelations(cur, next) && next.mailbox == cur.mailbox
      && Schedulable(next, if enqueue then runQueue + [cur.id] else runQueue)
  {
  }

  lemma ReturnKeepsSound(w: World, cur: Actor, book: Book)
    requires Driving(w, cur, book) && cur.initialized
    ensures Sound(Return(w, cur), book)
  {
    assert Enqueued(cur, w.runQueue);
    hide Driving, Rest, Schedulable, Inv, Kept, Fits, Agree, Fine;
    RestedIsSchedulable(cur, w.runQueue);
    var (next, runQueue) := Rest(cur, w.runQueue);
    SeatKeeps(w, cur, next, runQueue, book);
    SeatKeepsInv(w, cur, next, runQueue, book);
  }

  /** An actor that found nothing to do is parked even if mail it cannot have or does not want is waiting. */
  lemma ParkKeepsSound(w: World, cur: Actor, book: Book)
    requires Driving(w, cur, book) && cur.initialized
    requires cur.selective || NothingIn(cur.mailbox.queue, cur.suspended)
    ensures Sound(Put(w, Park(cur)), book)
  {
    assert w == w.(runQueue := w.runQueue);
    hide Driving, Inv, Kept;
    SeatKeeps(w, cur, Park(cur), w.runQueue, book);
    SeatKeepsInv(w, cur, Park(cur), w.runQueue, book);
  }

  // --- the turn begins

  lemma RemoveHead(q: seq<ActorId>, x: ActorId)
    requires x in q && q[0] != x
    ensures x in q[1..]
  {
  }

  /** The head of the run queue is taken out for its turn. */
  lemma TakeForTurn(w: World, book: Book)
    requires Sound(w, book) && w.runQueue != [] && w.runQueue[0] in w.actors
    ensures var id := w.runQueue[0];
      var cur := w.actors[id].(scheduled := false);
      Driving(w.(actors := w.actors - {id}, runQueue := w.runQueue[1..]), cur, book)
  {
    var id := w.runQueue[0];
    var a := w.actors[id];
    var cur := a.(scheduled := false);
    var v := w.(actors := w.actors - {id}, runQueue := w.runQueue[1..]);
    assert Fine(a, w.callTimeouts, book) && Agree(a, a) && a.id == id;
    SameMailStaysFine(a, cur, w.callTimeouts, book, book);
    AgreeAsBefore(a, cur, a, cur);
    assert Inv(v) by { TakenInv(w, id); }
    assert Fits(v, cur) by {
      hide Kept;
      forall y | y in v.actors ensures Agree(cur, v.actors[y]) { AgreeAsBefore(a, cur, w.actors[y], w.actors[y]); }
    }
    hide Inv, Agree, Fine, Fits;
    TakenLog(w, id);
    assert LogFits(v, {id}) by { SameLogFits(w.(actors := w.actors - {id}), v, {id}); }
  }

  lemma TakenInv(w: World, id: ActorId)
    requires Inv(w) && w.runQueue != [] && w.runQueue[0] == id
    ensures Inv(w.(actors := w.actors - {id}, runQueue := w.runQueue[1..]))
  {
    hide Agree;
    var v := w.(actors := w.actors - {id}, runQueue := w.runQueue[1..]);
    forall x | x in v.actors ensures Schedulable(v.actors[x], v.runQueue) {
      assert Schedulable(w.actors[x], w.runQueue) && w.actors[x].id == x;
      if x in w.runQueue { RemoveHead(w.runQueue, x); }
    }
  }

  lemma TakenLog(w: World, id: ActorId)
    requires LogFits(w, {}) && id in w.actors
    ensures LogFits(w.(actors := w.actors - {id}), {id})
  {
    hide Trail, ClosedTrail, LiveTrail;
    forall x ensures TrailFits(w.(actors := w.actors - {id}), {id}, x) { assert TrailFits(w, {}, x); }
  }

  /** Stale entries of the run queue are skipped. */
  lemma SkipStale(w: World, book: Book)
    requires Sound(w, book) && w.runQueue != [] && w.runQueue[0] !in w.actors
    ensures Sound(w.(runQueue := w.runQueue[1..]), book)
  {
    var id := w.runQueue[0];
    assert w.actors - {id} == w.actors;
    TakenInv(w, id);
    hide Inv, Fine;
    SameLogFits(w, w.(runQueue := w.runQueue[1..]), {});
  }

  // --- taking an envelope

  /** Taking one envelope leaves a turn that can only end, be parked, or be returned. */
  lemma TakeKeepsDriving(w: World, cur: Actor, rest: Box, p: Mailboxes.Queued -> bool, suspended: bool, book: Book)
    requires Driving(w, cur, book) && rest == Receive(cur.mailbox, p).1
    ensures Driving(w, cur.(mailbox := rest, suspended := suspended, status := Running), book)
  {
    var next := cur.(mailbox := rest, suspended := suspended, status := Running);
    TakeIsFine(cur, next, p, w.callTimeouts, book);
    assert w == w.(runQueue := w.runQueue);
    assert Enqueued(next, w.runQueue);
    hide Inv, Fits, Agree, Kept, Fine;
    hide Driving;
    QuietTurn(w, cur, next, w.runQueue, book);
  }

  lemma TakeIsFine(x: Actor, y: Actor, p: Mailboxes.Queued -> bool, armed: set<(ActorId, Ref)>, book: Book)
    requires Fine(x, armed, book) && SameRelations(x, y) && y.mailbox == Receive(x.mailbox, p).1
    ensures Fine(y, armed, book)
  {
    hide Count;
    var found := FirstMatch(x.mailbox.queue, p);
    forall s: Ref ensures TimeoutFits(y, s, (y.id, s) in armed, book) {
      assert TimeoutFits(x, s, (x.id, s) in armed, book);
      if found.Some? { CountSplit(x.mailbox.queue, found.value, TimeoutFor(s)); }
    }
  }

  // --- the turn ends the actor

  lemma FinishKeepsSound(w: World, cur: Actor, v: World, book: Book)
    requires Driving(w, cur, book) && Inv(v) && Evolves(Put(w, cur), v, map[])
    ensures Sound(v, book)
  {
    assert w == w.(runQueue := w.runQueue);
    hide Inv, Driving, Evolves, Kept;
    SeatKeeps(w, cur, cur, w.runQueue, book);
    KeptFollows(Put(w, cur), v, {}, book);
  }

  // --- what a quiet run queue says

  /**
   * Every live actor is initialised, and one that uses the default receive has nothing left to do: no
   * mail at all, or while suspended none but what must wait.
   */
  ghost predicate Idle(w: World) {
    forall x :: x in w.actors ==> w.actors[x].initialized && (w.actors[x].selective || NothingIn(w.actors[x].mailbox.queue, w.actors[x].suspended))
  }

  lemma EmptyQueueIsIdle(w: World)
    requires Inv(w) && w.runQueue == []
    ensures Idle(w)
  {
    hide Agree, NothingIn;
  }

  /** A delivered timeout is never that of a call answered before. */
  lemma TakenIsNotAnswered(w: World, cur: Actor, p: Mailboxes.Queued -> bool, r: Ref, book: Book)
    requires Driving(w, cur, book) && (cur.id, r) in book.answered
    ensures Receive(cur.mailbox, p).0 != None ==> Receive(cur.mailbox, p).0.value.envelope != CallTimeout(r)
  {
    assert TimeoutFits(cur, r, (cur.id, r) in w.callTimeouts, book);
    CountZero(cur.mailbox.queue, TimeoutFor(r));
  }

  // --- a whole turn

  /** What a handler may ask of its context. */
  datatype Call =
    | SendTo(to: ActorId, envelope: Envelope)
    | Ask(callee: ActorId, timed: bool)
    | Link(peer: ActorId)
    | Unlink(peer: ActorId)
    | Watch(target: ActorId)
    | Unwatch(reference: Ref)
    | SetTrapExit(enabled: bool)
    | StartTimer(token: Ref)
    | CancelTimer(token: Ref)
    | ExitSelf(reason: ExitReason)
    | ShutdownActor(actor: ActorId, policy: ShutdownPolicy)
    | SpawnActor(id: ActorId, options: Options, linkToParent: bool, admitted: bool)

  /** A forged call timeout is the one thing a handler must not send. */
  predicate Honest(c: Call) { c.SendTo? ==> !c.envelope.CallTimeout? }

  datatype Outcome = Continue | Stop(reason: ExitReason) | Panic

  /** One turn of user code: how its own selection hook, if any, goes about it, what it asks for, and how it ends. */
  datatype Script = Script(attempts: seq<Attempt>, selectPanics: bool, calls: seq<Call>, outcome: Outcome)

  ghost predicate HonestScript(s: Script) { forall i :: 0 <= i < |s.calls| ==> Honest(s.calls[i]) }

  function PanicReason(a: Actor): ExitReason { Error(Panicked(a.id)) }

  /** The envelope this turn takes and the mailbox it leaves. */
  function Selected(a: Actor, s: Script): (Option<Mailboxes.Queued>, Box) {
    if a.selective then TakeFirst(a.mailbox, a.suspended, s.attempts) else TakeNext(a.mailbox, a.suspended)
  }

  /** The actor as its handler finds it: the envelope is gone, and a suspend or resume has taken effect. */
  function Received(a: Actor, s: Script): Actor
    requires Selected(a, s).0.Some?
  {
    a.(mailbox := Selected(a, s).1, suspended := AfterSystemMessage(a.suspended, Selected(a, s).0.value.envelope), status := Running)
  }

  /** With the default receive a turn is a turn of the plain receiver: it handles the same entry, and is left in the same state. */
  lemma TurnIsReceiving(a: Actor, s: Script)
    requires !a.selective
    ensures var (after, handled) := Next(Receiver(a.mailbox, a.suspended), Happening.Turn);
      if Selected(a, s).0.None? then handled == [] && after == Receiver(a.mailbox, a.suspended)
      else
        && handled == [Handled(Selected(a, s).0.value, a.suspended)]
        && after == Receiver(Received(a, s).mailbox, Received(a, s).suspended)
        && Received(a, s) == a.(mailbox := after.box, suspended := after.suspended, status := Running)
  {
  }

  /** Whatever the turn selects, it is one receive from the mailbox. */
  lemma SelectionIsReceive(a: Actor, s: Script)
    ensures exists p :: Selected(a, s) == Receive(a.mailbox, p)
  {
    hide TakeNext, TakeSelective, TakeFirst, Receive;
    TakeFirstIsReceive(a.mailbox, a.suspended, s.attempts);
    TakeByIsReceive(a.mailbox, a.suspended, AnyMail);
    assert TakeBy(a.mailbox, a.suspended, AnyMail) == TakeNext(a.mailbox, a.suspended);
  }

  lemma SelectKeepsDriving(w: World, cur: Actor, s: Script, suspended: bool, book: Book)
    requires Driving(w, cur, book)
    ensures Driving(w, cur.(mailbox := Selected(cur, s).1, suspended := suspended, status := Running), book)
    ensures forall r: Ref :: (cur.id, r) in book.answered ==>
      Selected(cur, s).0.Some? ==> Selected(cur, s).0.value.envelope != CallTimeout(r)
  {
    hide Driving, Selected, Receive;
    SelectionIsReceive(cur, s);
    var p :| Selected(cur, s) == Receive(cur.mailbox, p);
    TakeKeepsDriving(w, cur, Selected(cur, s).1, p, suspended, book);
    forall r: Ref | (cur.id, r) in book.answered && Selected(cur, s).0.Some?
      ensures Selected(cur, s).0.value.envelope != CallTimeout(r)
    {
      TakenIsNotAnswered(w, cur, p, r, book);
    }
  }

  lemma {:induction false} NothingTaken(b: Box, suspended: bool, attempts: seq<Attempt>)
    requires TakeFirst(b, suspended, attempts).0.None?
    ensures TakeFirst(b, suspended, attempts).1 == b
    decreases |attempts|
  {
    if attempts != [] { NothingTaken(b, suspended, attempts[1..]); }
  }

  /** A turn that selects nothing leaves the mailbox as it is; with the default receive there was nothing to do. */
  lemma NothingSelected(a: Actor, s: Script)
    requires Selected(a, s).0.None?
    ensures Selected(a, s).1 == a.mailbox
    ensures a.selective || NothingIn(a.mailbox.queue, a.suspended)
  {
    if a.selective { NothingTaken(a.mailbox, a.suspended, s.attempts); } else { NothingToTake(a.mailbox, a.suspended); }
  }

  lemma FlagsKeepDriving(w: World, cur: Actor, next: Actor, book: Book)
    requires Driving(w, cur, book) && SameRelations(cur, next) && next.mailbox == cur.mailbox && next.scheduled == cur.scheduled
    ensures Driving(w, next, book)
  {
    assert Enqueued(next, w.runQueue);
    SameMailStaysFine(cur, next, w.callTimeouts, book, book);
    assert w == w.(runQueue := w.runQueue);
    hide Driving, Fine;
    QuietTurn(w, cur, next, w.runQueue, book);
  }

  /** Timers of actors play no part in any of it. */
  lemma TimersKeepDriving(w: World, cur: Actor, timers: set<(ActorId, Ref)>, book: Book)
    requires Driving(w, cur, book)
    ensures Driving(w.(timers := timers), cur, book)
  {
    var v := w.(timers := timers);
    assert Inv(v) && Fits(v, cur) by { hide Agree, Schedulable; }
    hide Inv, Fits, Agree, Fine;
    SameLogFits(w, v, {cur.id});
  }

  lemma TimersKeepSound(w: World, timers: set<(ActorId, Ref)>, book: Book)
    requires Sound(w, book)
    ensures Sound(w.(timers := timers), book)
  {
    var v := w.(timers := timers);
    assert Inv(v) by { hide Agree, Schedulable; }
    hide Inv, Fine;
    SameLogFits(w, v, {});
  }

  // --- managed shutdown

  /** Why a managed shutdown ends an actor at once, if it does: killed, without room for the signal, or not trapping. */
  function ShutdownCause(actor: ActorId, a: Actor, policy: ShutdownPolicy): ExitReason {
    if policy == BrutalKill then Kill else if a.trapExit then OverflowReason(actor, "exit") else ExitReason.Shutdown
  }

  /** What a granted request did: the actor is told, or it has ended with all that follows. */
  ghost predicate ShutdownEffect(u: World, v: World, actor: ActorId, requester: ActorId, policy: ShutdownPolicy)
    requires actor in u.actors
  {
    var e := Exit(ShutdownSignal(requester));
    if policy != BrutalKill && u.actors[actor].trapExit && !u.actors[actor].mailbox.IsFullFor(e)
    then v == Deliver(u, actor, e)
    else EndedBy(u, v, actor, ShutdownCause(actor, u.actors[actor], policy))
  }

  /** An exit signal to the running actor: it is to end, takes no notice, or has it in its mailbox. */
  ghost predicate Signalled(w: World, cur: Actor, signal: ExitSignal, v: World, next: Actor, exit: Option<ExitReason>) {
    match ClassifyExitSignal(cur.trapExit, signal)
    case KillNow => exit == Some(signal.reason) && v == w && next == cur
    case Ignore => exit == None && v == w && next == cur
    case Enqueue =>
      if cur.mailbox.IsFullFor(Exit(signal)) then exit == Some(OverflowReason(cur.id, "exit")) && v == w && next == cur
      else exit == None && (Sent, v, next) == SelfSend(w, cur, Exit(signal))
  }

  /** The running actor has dropped a link to an actor that ended, and has been told or must end. */
  ghost predicate LinkLost(w: World, cur: Actor, actor: ActorId, v: World, next: Actor, exit: Option<ExitReason>) {
    Signalled(w, cur.(links := cur.links - {actor}), ExitSignal(actor, ExitReason.Shutdown, true), v, next, exit)
  }

  /** A granted request from a turn, by way of `mid`: if a linked actor ended at once, the running one learns of it. */
  ghost predicate ShutdownObeyed(w: World, cur: Actor, actor: ActorId, policy: ShutdownPolicy, mid: World,
      v: World, next: Actor, exit: Option<ExitReason>)
  {
    && actor in Track(w, actor, Tracker(cur.id, policy)).actors
    && ShutdownEffect(Track(w, actor, Tracker(cur.id, policy)), mid, actor, cur.id, policy)
    && if actor in cur.links && actor !in mid.actors then LinkLost(mid, cur, actor, v, next, exit)
       else v == mid && next == cur && exit == None
  }

  lemma ShutdownKeeps(w: World, v: World, actor: ActorId, requester: ActorId, policy: ShutdownPolicy, out: set<ActorId>, book: Book)
    requires Inv(w) && Kept(w, out, book) && actor in w.actors && out !! w.actors.Keys
    requires ShutdownEffect(Track(w, actor, Tracker(requester, policy)), v, actor, requester, policy)
    ensures Inv(v) && Kept(v, out, book)
  {
    var u := Track(w, actor, Tracker(requester, policy));
    var e := Exit(ShutdownSignal(requester));
    assert u.actors == w.actors;
    hide Inv, Evolves, AllFine, LogFits, BookFits, Track, Deliver, Quiet, Plain, ExactCascade;
    TrackKeeps(w, out, actor, Tracker(requester, policy), book);
    if policy != BrutalKill && u.actors[actor].trapExit && !u.actors[actor].mailbox.IsFullFor(e) {
      DeliverIsQuiet(u, actor, e);
      DeliverKeepsFine(u, actor, e, book);
      DeliverKeepsBook(u, actor, e, book);
      QuietKeeps(u, v, out, book, book);
    } else {
      KeptFollows(u, v, out, book);
    }
  }

  lemma ShutdownKeepsDriving(w: World, v: World, cur: Actor, actor: ActorId, policy: ShutdownPolicy, book: Book)
    requires Driving(w, cur, book) && actor in w.actors
    requires ShutdownEffect(Track(w, actor, Tracker(cur.id, policy)), v, actor, cur.id, policy)
    ensures Driving(v, cur, book)
  {
    var u := Track(w, actor, Tracker(cur.id, policy));
    var e := Exit(ShutdownSignal(cur.id));
    assert u.actors == w.actors && u.callTimeouts == w.callTimeouts && u.runQueue == w.runQueue;
    assert Kept(w, {cur.id}, book);
    hide Driving, Inv, Evolves, Track, Deliver, Quiet, Kept, Plain, ExactCascade;
    TrackKeepsDriving(w, cur, actor, Tracker(cur.id, policy), book);
    DrivingParts(u, cur, book);
    if policy != BrutalKill && u.actors[actor].trapExit && !u.actors[actor].mailbox.IsFullFor(e) {
      DeliverIsQuiet(u, actor, e);
      DeliverKeepsFine(u, actor, e, book);
      DeliverKeepsBook(u, actor, e, book);
      DeliverKeepsRelations(u, actor, e);
      QuietKeepsDriving(u, v, cur, book, book);
    } else {
      DrivingFollows(u, v, cur, book);
    }
  }

  lemma DrivingParts(w: World, cur: Actor, book: Book)
    requires Driving(w, cur, book)
    ensures Inv(w) && AllFine(w, book) && BookFits(w, book) && Fine(cur, w.callTimeouts, book) && Fits(w, cur)
    ensures cur.id !in w.actors && Kept(w, {cur.id}, book)
  {
  }

  lemma TrackKeepsInv(w: World, actor: ActorId, t: Tracker)
    requires Inv(w)
    ensures Inv(Track(w, actor, t))
  {
    hide Agree, Schedulable;
  }

  lemma TrackLeavesActors(w: World, actor: ActorId, t: Tracker)
    ensures Track(w, actor, t).actors == w.actors
  {
  }

  lemma LaterKeeps(w: World, out: set<ActorId>, book: Book, later: Book)
    requires Kept(w, out, book) && Later(book, later)
    ensures Kept(w, out, later)
  {
    hide AllFine, BookFits, LogFits;
    LaterStaysFine(w, book, later);
  }

  /** A send that is no reply only delivers. */
  lemma PlainSend(w: World, actor: ActorId, e: Envelope, book: Book)
    requires !e.Reply? && actor in w.actors && !w.actors[actor].mailbox.IsFullFor(e)
    ensures AfterSend(w, actor, e) == Deliver(w, actor, e) && BookAfterSend(w, actor, e, book) == book
  {
  }

  /** Only live actors have a shutdown under way. */
  lemma TrackedIsLive(w: World, actor: ActorId, book: Book)
    requires Sound(w, book) && actor in w.tasks
    ensures actor in w.actors
  {
    assert TrailFits(w, {}, actor);
    hide Inv, AllFine, BookFits, Trail, LiveTrail, ClosedTrail;
  }

  /** The next reference has no history. */
  lemma FreshReference(w: World, cur: Actor, book: Book)
    requires Driving(w, cur, book)
    ensures (cur.id, book.nextRef) !in book.answered && (cur.id, book.nextRef) !in book.fired
  {
    hide Inv, LogFits, AllFine, Fine, Fits, Agree;
  }

  lemma DrivingEnqueued(w: World, cur: Actor, book: Book)
    requires Driving(w, cur, book)
    ensures Enqueued(cur, w.runQueue)
  {
  }

  lemma DrivingOutside(w: World, cur: Actor, book: Book)
    requires Driving(w, cur, book)
    ensures cur.id !in w.actors
  {
  }

  /** Inserting a child that already knows its parent is inserting it first and linking it then. */
  lemma ChildIsLinked(w: World, cur: Actor, id: ActorId, o: Options)
    requires id != cur.id && id !in cur.links
    ensures LinkUp(Insert(w, Newborn(id, o, {})), cur, id)
         == (Done, Insert(w, Newborn(id, o, {cur.id})), cur.(links := cur.links + {id}))
  {
    var a := Newborn(id, o, {});
    assert LinkTarget(a, cur.id) == Newborn(id, o, {cur.id});
    assert w.actors[id := a][id := LinkTarget(a, cur.id)] == w.actors[id := LinkTarget(a, cur.id)];
  }

  /** What the outside world may do to the runtime, in any order. */
  datatype Command =
    | SpawnFrom(id: ActorId, options: Options, admitted: bool)
    | Send(to: ActorId, envelope: Envelope)
    | ExitNow(actor: ActorId, reason: ExitReason)
    | ShutDown(actor: ActorId, policy: ShutdownPolicy)
    | Step(arrived: seq<DriverEvent>, script: Script)

  ghost predicate HonestCommand(c: Command) {
    && (c.Send? ==> !c.envelope.CallTimeout?)
    && (c.Step? ==> HonestScript(c.script))
  }

  /** What timers and blocking tasks post to the driver. */
  datatype DriverEvent =
    | TimerFired(target: ActorId, token: Ref)
    | TaskCompleted(target: ActorId, reference: Ref)
    | CallTimedOut(target: ActorId, reference: Ref)
    | ShutdownTimedOut(target: ActorId)

  /** History only grows, and a call that has been answered never times out afterwards. */
  ghost predicate Grows(b: Book, c: Book) {
    && b.issued <= c.issued && b.answered <= c.answered && b.fired <= c.fired && b.nextRef <= c.nextRef
    && forall p :: p in b.answered ==> c.fired[p] == b.fired[p]
  }

  lemma GrowsItself(b: Book)
    ensures Grows(b, b)
  {
  }

  lemma GrowsTransitive(a: Book, b: Book, c: Book)
    requires Grows(a, b) && Grows(b, c)
    ensures Grows(a, c)
  {
  }

  lemma NobodyIsSound()
    ensures Sound(World(map[], map[], map[], {}, {}, [], []), Book({}, 1, {}, multiset{}))
  {
    var w := World(map[], map[], map[], {}, {}, [], []);
    assert forall x: ActorId :: Trail(w.log, x) == [];
    hide Trail;
  }

  // --- what each request does

  /** What one request adds to the history. */
  ghost function BookAfter(call: Call, w: World, cur: Actor, book: Book): Book {
    match call
    case SendTo(to, e) => if to == cur.id then book else BookAfterSend(w, to, e, book)
    case Ask(_, _) => NextRef(book)
    case Watch(_) => NextRef(book)
    case SpawnActor(id, _, _, _) => Issue(book, id)
    case _ => book
  }

  /** The effect of one request on the table, the running actor and the exit it may ask for. */
  ghost predicate Obeys(call: Call, w: World, cur: Actor, book: Book, v: World, next: Actor, exit: Option<ExitReason>) {
    match call
    case SendTo(to, e) =>
      exit == None
      && if to == cur.id then SelfSend(w, cur, e).1 == v && SelfSend(w, cur, e).2 == next
         else v == AfterSend(w, to, e) && next == cur
    case Ask(callee, timed) =>
      exit == None && CallOut(w, cur, callee, timed, book.nextRef).1 == v && CallOut(w, cur, callee, timed, book.nextRef).2 == next
    case Link(peer) => exit == None && LinkUp(w, cur, peer).1 == v && LinkUp(w, cur, peer).2 == next
    case Unlink(peer) => exit == None && LinkDown(w, cur, peer).1 == v && LinkDown(w, cur, peer).2 == next
    case Watch(target) => Monitor(w, cur, target, book.nextRef) == (exit, v, next)
    case Unwatch(reference) => exit == None && Demonitor(w, cur, reference).1 == v && Demonitor(w, cur, reference).2 == next
    case SetTrapExit(enabled) => exit == None && v == w && next == cur.(trapExit := enabled)
    case StartTimer(token) => exit == None && v == w.(timers := w.timers + {(cur.id, token)}) && next == cur
    case CancelTimer(token) => exit == None && v == w.(timers := w.timers - {(cur.id, token)}) && next == cur
    case ExitSelf(reason) => exit == Some(reason) && v == w && next == cur
    case ShutdownActor(actor, policy) =>
      if actor !in w.actors then exit == None && v == w && next == cur
      else exists mid :: ShutdownObeyed(w, cur, actor, policy, mid, v, next, exit)
    case SpawnActor(id, options, linkToParent, admitted) =>
      exit == None
      && if id in book.issued || !admitted then v == w && next == cur
         else v == Insert(w, Newborn(id, options, if linkToParent then {cur.id} else {}))
              && next == if linkToParent then cur.(links := cur.links + {id}) else cur
  }

  /** One state per request, from the first to the last. */
  datatype Moment = Moment(world: World, cur: Actor, book: Book)

  ghost predicate ObeysAll(calls: seq<Call>, trail: seq<Moment>, exits: seq<Option<ExitReason>>) {
    && |trail| == |calls| + 1 && |exits| == |calls|
    && forall i :: 0 <= i < |calls| ==>
         && Obeys(calls[i], trail[i].world, trail[i].cur, trail[i].book, trail[i + 1].world, trail[i + 1].cur, exits[i])
         && trail[i + 1].book == BookAfter(calls[i], trail[i].world, trail[i].cur, trail[i].book)
  }

  /** The last exit asked for. */
  ghost function LastExit(exits: seq<Option<ExitReason>>): Option<ExitReason> {
    if exits == [] then None
    else if exits[|exits| - 1].Some? then exits[|exits| - 1] else LastExit(exits[..|exits| - 1])
  }

  lemma ObeyedOneMore(calls: seq<Call>, i: nat, trail: seq<Moment>, exits: seq<Option<ExitReason>>, m: Moment, exit: Option<ExitReason>)
    requires i < |calls| && ObeysAll(calls[..i], trail, exits)
    requires Obeys(calls[i], trail[i].world, trail[i].cur, trail[i].book, m.world, m.cur, exit)
    requires m.book == BookAfter(calls[i], trail[i].world, trail[i].cur, trail[i].book)
    ensures ObeysAll(calls[..i + 1], trail + [m], exits + [exit])
    ensures LastExit(exits + [exit]) == if exit.Some? then exit else LastExit(exits)
  {
    hide Obeys, BookAfter;
    assert (exits + [exit])[..|exits|] == exits;
  }

  // --- the answered call, over the whole run

  /** Once a reply has been accepted, its call never times out: not now, and not at any later time. */
  lemma ReplyExcludesTimeout(w: World, book: Book, x: ActorId, r: Ref, v: World, later: Book)
    requires Sound(w, book) && SendOutcome(w, x, Reply(r)) == Sent && r < book.nextRef
    requires Sound(v, later) && Grows(BookAfterSend(w, x, Reply(r), book), later)
    ensures later.fired[(x, r)] == book.fired[(x, r)]
    ensures x in v.actors ==> (x, r) !in v.callTimeouts
    ensures x in v.actors ==>
      forall i :: 0 <= i < |v.actors[x].mailbox.queue| ==> v.actors[x].mailbox.queue[i].envelope != CallTimeout(r)
  {
    hide Inv, SendOutcome, AllFine, LogFits;
    assert (x, r) in BookAfterSend(w, x, Reply(r), book).answered;
    if x in v.actors { AnsweredHasNoTimeout(v, x, r, later); }
  }

  /** No call times out twice. */
  lemma TimesOutOnce(w: World, book: Book, x: ActorId, r: Ref)
    requires Sound(w, book) && x in w.actors
    ensures book.fired[(x, r)] <= 1
    ensures Count(w.actors[x].mailbox.queue, TimeoutFor(r)) <= book.fired[(x, r)]
    ensures (x, r) in w.callTimeouts ==> book.fired[(x, r)] == 0
  {
    assert Fine(w.actors[x], w.callTimeouts, book) && w.actors[x].id == x;
    hide Count, Inv, LogFits;
    assert TimeoutFits(w.actors[x], r, (x, r) in w.callTimeouts, book);
  }

  // --- the shutdown log

  ghost predicate PhaseAt(t: seq<Event>, i: int, phase: Phase) { 0 <= i < |t| && t[i].ShutdownEvent? && t[i].phase == phase }

  /**
   * The shutdown events of one actor: they begin with a request, at most one timeout follows, and they
   * end with a completion exactly when the actor has ended; it names the last request and its policy.
   */
  ghost predicate Grammar(t: seq<Event>, ended: bool) {
    && (t != [] ==> PhaseAt(t, 0, Requested))
    && (forall i, j :: PhaseAt(t, i, TimedOut) && PhaseAt(t, j, TimedOut) ==> i == j)
    && (forall i :: PhaseAt(t, i, TimedOut) ==> i == |t| - 2 && ended)
    && (forall i :: PhaseAt(t, i, Completed) ==> i == |t| - 1 && ended)
    && (ended && t != [] ==>
          PhaseAt(t, |t| - 1, Completed)
          && exists k :: PhaseAt(t, k, Requested) && (forall i :: PhaseAt(t, i, Requested) ==> i <= k)
               && t[|t| - 1].requester == t[k].requester && t[|t| - 1].policy == t[k].policy)
  }

  lemma ShutdownLogGrammar(w: World, book: Book, x: ActorId)
    requires Sound(w, book)
    ensures x in w.actors ==> Grammar(Trail(w.log, x), false)
    ensures x in w.completed ==> Grammar(Trail(w.log, x), true)
    ensures x in w.actors ==> (Trail(w.log, x) != [] <==> x in w.tasks)
  {
    hide Inv, AllFine, Trail;
    assert TrailFits(w, {}, x);
    var t := Trail(w.log, x);
    if x in w.completed && t != [] {
      assert ClosedTrail(t);
      ClosedGrammar(t);
    }
    if x in w.actors { LiveGrammar(t, Tracked(w, x)); }
  }

  lemma LiveGrammar(t: seq<Event>, tracked: Option<Tracker>)
    requires LiveTrail(t, tracked)
    ensures Grammar(t, false)
  {
  }

  lemma ClosedGrammar(t: seq<Event>)
    requires ClosedTrail(t) && t != []
    ensures Grammar(t, true)
  {
    var n: nat :| EndsAfter(t, n);
    assert forall i :: 0 <= i < n ==> t[..n][i] == t[i];
    assert PhaseAt(t, n - 1, Requested);
    assert forall i :: PhaseAt(t, i, Requested) ==> i <= n - 1;
  }

  // --- a managed kill

  /** A managed kill is told to watchers as it is, and to links as an orderly shutdown. */
  lemma KillIsPassedOnAsShutdown(u: World, v: World, x: ActorId, y: ActorId, i: nat)
    requires Evolves(u, v, map[]) && x in u.actors && x in u.tasks && x in v.completed && v.completed[x] == Kill && x !in u.completed
    requires y in v.actors && y in u.actors && |u.actors[y].mailbox.queue| <= i < |v.actors[y].mailbox.queue|
    ensures var e := v.actors[y].mailbox.queue[i].envelope;
      && (e.Exit? && e.signal.from == x ==> e.signal.reason == Shutdown)
      && (e.Down? && e.actor == x ==> e.reason == Kill)
  {
    hide TablesFollow, LogFollows, LinksFollow, NoticesFollow, Same;
    assert MailFollows(u.actors[y], v.actors[y], u, v, map[]);
  }
}
