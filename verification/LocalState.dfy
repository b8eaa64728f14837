/** The state of the single-threaded runtime as a value, and how an exit cascade may change it. */
module LocalState {
  import opened Types
  import opened Mailboxes
  import opened ExitSignals

  datatype Actor = Actor(
    id: ActorId,
    mailbox: Box,
    links: set<ActorId>,
    monitorsIn: map<Ref, ActorId>,
    monitorsOut: map<Ref, ActorId>,
    trapExit: bool,
    suspended: bool,
    status: Status,
    initialized: bool,
    scheduled: bool,
    selective: bool,        // the actor chooses its own envelopes
    terminatePanics: bool)  // its termination hook panics

  datatype Tracker = Tracker(requester: ActorId, policy: ShutdownPolicy)

  datatype Phase = Requested | TimedOut | Completed

  datatype Event =
    | ExitEvent(actor: ActorId, reason: ExitReason)
    | DownEvent(watcher: ActorId, actor: ActorId, reference: Ref, reason: ExitReason)
    | ShutdownEvent(requester: ActorId, actor: ActorId, policy: ShutdownPolicy, phase: Phase, cause: Option<ExitReason>)
    | CrashEvent(actor: ActorId, reason: ExitReason)

  /** What a driver step can see: the table of actors that are not running, and the tables beside it. */
  datatype World = World(
    actors: map<ActorId, Actor>,
    completed: map<ActorId, ExitReason>,
    tasks: map<ActorId, Tracker>,
    callTimeouts: set<(ActorId, Ref)>,
    timers: set<(ActorId, Ref)>,
    runQueue: seq<ActorId>,
    log: seq<Event>)

  // ------------------------------------------------------------------ scheduling primitives

  function MarkScheduled(a: Actor): (Actor, bool) {
    if a.scheduled || a.status == Dead || a.status == Exiting then (a, false)
    else (a.(scheduled := true, status := if a.status == Starting then Starting else Runnable), true)
  }

  datatype PushResult = MailboxFull | Pushed(actor: Actor, enqueue: bool)

  function PushEnvelope(a: Actor, e: Envelope): PushResult {
    if a.mailbox.IsFullFor(e) then MailboxFull
    else
      var (b, enqueue) := MarkScheduled(a.(mailbox := a.mailbox.Push(e)));
      Pushed(b, enqueue)
  }

  function Park(a: Actor): Actor { a.(status := Waiting, scheduled := false) }

  // ------------------------------------------------------------------ why an actor ends

  function OverflowReason(actor: ActorId, delivering: string): ExitReason {
    Error(MailboxOverflow(actor, delivering))
  }

  /** The reason an actor is recorded with: a panic in its termination hook replaces the given one. */
  function FinalReason(e: Actor, reason: ExitReason): ExitReason {
    if e.terminatePanics then Error(Panicked(e.id)) else reason
  }

  /** The reason the links of an ending actor are told. */
  function LinkReason(w: World, e: Actor, reason: ExitReason): ExitReason {
    ShutdownLinkReason(e.id in w.tasks, FinalReason(e, reason))
  }

  // ------------------------------------------------------------------ the standing invariant

  /** The default receive would find nothing: no mail at all, or none that may be handled while suspended. */
  ghost predicate NothingIn(queue: seq<Queued>, suspended: bool) {
    forall i :: 0 <= i < |queue| ==> suspended && !queue[i].envelope.CanRunWhileSuspended()
  }

  /** An actor that has something to do is scheduled, as its status says, and a scheduled actor is in the run queue. */
  ghost predicate Schedulable(a: Actor, runQueue: seq<ActorId>) {
    && a.status == (if !a.initialized then Starting else if a.scheduled then Runnable else Waiting)
    && (a.scheduled ==> a.id in runQueue)
    && (!a.initialized ==> a.scheduled)
    && (!a.selective && !a.scheduled ==> NothingIn(a.mailbox.queue, a.suspended))
  }

  /** `a` watches `b` through `ref` exactly when `b` knows it. */
  ghost predicate MonitorsAgree(a: Actor, b: Actor) {
    forall ref :: (ref in a.monitorsOut && a.monitorsOut[ref] == b.id) <==> (ref in b.monitorsIn && b.monitorsIn[ref] == a.id)
  }

  /** Links and monitors between two actors are recorded on both sides. */
  ghost predicate Agree(a: Actor, b: Actor) {
    && (b.id in a.links <==> a.id in b.links)
    && MonitorsAgree(a, b) && MonitorsAgree(b, a)
  }

  ghost predicate Inv(w: World) {
    && (forall x :: x in w.actors ==> w.actors[x].id == x && Schedulable(w.actors[x], w.runQueue))
    && (forall x, y :: x in w.actors && y in w.actors ==> Agree(w.actors[x], w.actors[y]))
    && w.actors.Keys !! w.completed.Keys
  }

  /** An actor out of the table agrees with everyone still in it. */
  ghost predicate Fits(w: World, e: Actor) {
    && e.id !in w.actors && e.id !in w.completed
    && (forall y :: y in w.actors ==> Agree(e, w.actors[y]))
  }

  // ------------------------------------------------------------------ what a cascade may do

  datatype Notice = ExitFrom(actor: ActorId) | DownFor(reference: Ref) | TimeoutFor(reference: Ref)

  predicate Carries(e: Envelope, n: Notice) {
    match n
    case ExitFrom(x) => e.Exit? && e.signal.from == x
    case DownFor(ref) => e.Down? && e.reference == ref
    case TimeoutFor(ref) => e == CallTimeout(ref)
  }

  function Count(q: seq<Queued>, n: Notice): nat {
    if q == [] then 0
    else Count(q[..|q| - 1], n) + if Carries(q[|q| - 1].envelope, n) then 1 else 0
  }

  function Bit(b: bool): nat { if b then 1 else 0 }

  /** The reason an actor ended with and the reason its links were told. */
  datatype Verdict = Verdict(final: ExitReason, link: ExitReason)

  ghost function Finished(a: World, b: World): set<ActorId> { a.actors.Keys - b.actors.Keys }

  /** The mail a cascade may deliver: exits and downs of the actors that ended, with their reasons. */
  ghost predicate CascadeMail(e: Envelope, a: World, b: World, gone: map<ActorId, Verdict>) {
    match e
    case Exit(signal) =>
      && signal.linked
      && (signal.from in gone ==> signal.reason == gone[signal.from].link)
      && (signal.from !in gone ==>
            && signal.from in Finished(a, b) && signal.from in b.completed
            && signal.reason == ShutdownLinkReason(signal.from in a.tasks, b.completed[signal.from]))
    case Down(_, x, reason) =>
      if x in gone then reason == gone[x].final
      else x in Finished(a, b) && x in b.completed && reason == b.completed[x]
    case _ => false
  }

  /** `x` became `y`; `dead` ended meanwhile, and `gone` is still being worked off. */
  ghost predicate LinksFollow(x: Actor, y: Actor, dead: set<ActorId>, gone: set<ActorId>) {
    && y.links <= x.links && x.links - dead - gone <= y.links && y.links !! dead
    && (forall r :: r in y.monitorsOut ==> r in x.monitorsOut && y.monitorsOut[r] == x.monitorsOut[r] && y.monitorsOut[r] !in dead)
    && (forall r :: r in x.monitorsOut && x.monitorsOut[r] !in dead + gone ==> r in y.monitorsOut)
    && (forall r :: r in y.monitorsIn ==> r in x.monitorsIn && y.monitorsIn[r] == x.monitorsIn[r] && y.monitorsIn[r] !in dead)
    && (forall r :: r in x.monitorsIn && x.monitorsIn[r] !in dead + gone ==> r in y.monitorsIn)
  }

  /** A link or monitor that disappears is replaced by exactly one notice, and nothing else is. */
  ghost predicate NoticesFollow(x: Actor, y: Actor) {
    && (forall n :: Count(y.mailbox.queue, ExitFrom(n)) + Bit(x.trapExit && n in y.links)
                 == Count(x.mailbox.queue, ExitFrom(n)) + Bit(x.trapExit && n in x.links))
    && (forall r :: Count(y.mailbox.queue, DownFor(r)) + Bit(r in y.monitorsOut)
                 == Count(x.mailbox.queue, DownFor(r)) + Bit(r in x.monitorsOut))
    && (forall r :: Count(y.mailbox.queue, TimeoutFor(r)) == Count(x.mailbox.queue, TimeoutFor(r)))
  }

  ghost predicate Same(x: Actor, y: Actor) {
    && y.id == x.id && y.trapExit == x.trapExit && y.suspended == x.suspended && y.initialized == x.initialized
    && y.selective == x.selective && y.terminatePanics == x.terminatePanics
    && y.mailbox.capacity == x.mailbox.capacity && y.mailbox.runtimeReserve == x.mailbox.runtimeReserve
  }

  ghost predicate MailFollows(x: Actor, y: Actor, a: World, b: World, gone: map<ActorId, Verdict>) {
    && x.mailbox.queue <= y.mailbox.queue
    && (forall i :: |x.mailbox.queue| <= i < |y.mailbox.queue| ==> CascadeMail(y.mailbox.queue[i].envelope, a, b, gone))
  }

  ghost predicate SurvivorsFollow(a: World, b: World, gone: map<ActorId, Verdict>) {
    forall x :: x in b.actors ==>
      && x in a.actors
      && Same(a.actors[x], b.actors[x])
      && LinksFollow(a.actors[x], b.actors[x], Finished(a, b), gone.Keys)
      && NoticesFollow(a.actors[x], b.actors[x])
      && MailFollows(a.actors[x], b.actors[x], a, b, gone)
  }

  ghost predicate TablesFollow(a: World, b: World) {
    && b.actors.Keys <= a.actors.Keys
    && b.completed.Keys == a.completed.Keys + Finished(a, b)
    && (forall x :: x in a.completed ==> b.completed[x] == a.completed[x])
    && b.tasks == a.tasks - Finished(a, b)
    && b.callTimeouts <= a.callTimeouts
    && (forall p :: p in a.callTimeouts && p.0 !in Finished(a, b) ==> p in b.callTimeouts)
    && b.timers <= a.timers
    && (forall p :: p in a.timers ==> (p in b.timers <==> p.0 !in Finished(a, b)))
  }

  /** The shutdown events of one actor, in order. */
  function Trail(log: seq<Event>, x: ActorId): seq<Event> {
    if log == [] then []
    else
      var last := log[|log| - 1];
      Trail(log[..|log| - 1], x) + (if last.ShutdownEvent? && last.actor == x then [last] else [])
  }

  function Exits(log: seq<Event>, x: ActorId): seq<Event> {
    if log == [] then []
    else
      var last := log[|log| - 1];
      Exits(log[..|log| - 1], x) + (if last.ExitEvent? && last.actor == x then [last] else [])
  }

  function Closing(t: Tracker, x: ActorId, final: ExitReason): Event {
    ShutdownEvent(t.requester, x, t.policy, Completed, Some(final))
  }

  /** Each actor that ended left one exit event and, if its shutdown was requested, one closing event. */
  ghost predicate LogAt(a: World, b: World, x: ActorId) {
    if x in Finished(a, b) then
      && x in b.completed
      && Trail(b.log, x) == Trail(a.log, x) + (if x in a.tasks then [Closing(a.tasks[x], x, b.completed[x])] else [])
      && Exits(b.log, x) == Exits(a.log, x) + [ExitEvent(x, b.completed[x])]
    else
      Trail(b.log, x) == Trail(a.log, x) && Exits(b.log, x) == Exits(a.log, x)
  }

  ghost predicate LogFollows(a: World, b: World) {
    a.log <= b.log && forall x :: LogAt(a, b, x)
  }

  ghost predicate Evolves(a: World, b: World, gone: map<ActorId, Verdict>) {
    && TablesFollow(a, b)
    && SurvivorsFollow(a, b, gone)
    && LogFollows(a, b)
    && a.runQueue <= b.runQueue
  }

  // ------------------------------------------------------------------ Evolves is a preorder

  lemma EvolvesReflexive(a: World, gone: map<ActorId, Verdict>)
    ensures Evolves(a, a, gone)
  {
    assert Finished(a, a) == {};
  }

  lemma TablesTransitive(a: World, b: World, c: World)
    requires TablesFollow(a, b) && TablesFollow(b, c)
    ensures TablesFollow(a, c)
    ensures Finished(a, c) == Finished(a, b) + Finished(b, c)
  {
    assert Finished(a, c) == Finished(a, b) + Finished(b, c);
  }

  lemma LinksTransitive(x: Actor, y: Actor, z: Actor, d1: set<ActorId>, d2: set<ActorId>, gone: set<ActorId>)
    requires LinksFollow(x, y, d1, gone) && LinksFollow(y, z, d2, gone)
    ensures LinksFollow(x, z, d1 + d2, gone)
  {
  }

  lemma NoticesTransitive(x: Actor, y: Actor, z: Actor)
    requires NoticesFollow(x, y) && NoticesFollow(y, z) && x.trapExit == y.trapExit
    ensures NoticesFollow(x, z)
  {
  }

  lemma CascadeMailGrows(e: Envelope, a: World, b: World, c: World, gone: map<ActorId, Verdict>)
    requires TablesFollow(a, b) && TablesFollow(b, c) && gone.Keys !! a.actors.Keys
    ensures CascadeMail(e, a, b, gone) ==> CascadeMail(e, a, c, gone)
    ensures CascadeMail(e, b, c, gone) ==> CascadeMail(e, a, c, gone)
  {
    TablesTransitive(a, b, c);
  }

  lemma MailTransitive(x: Actor, y: Actor, z: Actor, a: World, b: World, c: World, gone: map<ActorId, Verdict>)
    requires MailFollows(x, y, a, b, gone) && MailFollows(y, z, b, c, gone)
    requires TablesFollow(a, b) && TablesFollow(b, c) && gone.Keys !! a.actors.Keys
    ensures MailFollows(x, z, a, c, gone)
  {
    hide CascadeMail, TablesFollow;
    forall i | |x.mailbox.queue| <= i < |z.mailbox.queue|
      ensures CascadeMail(z.mailbox.queue[i].envelope, a, c, gone)
    {
      CascadeMailGrows(z.mailbox.queue[i].envelope, a, b, c, gone);
      assert i < |y.mailbox.queue| ==> z.mailbox.queue[i] == y.mailbox.queue[i];
    }
  }

  lemma SurvivorsTransitive(a: World, b: World, c: World, gone: map<ActorId, Verdict>)
    requires SurvivorsFollow(a, b, gone) && SurvivorsFollow(b, c, gone)
    requires TablesFollow(a, b) && TablesFollow(b, c) && gone.Keys !! a.actors.Keys
    ensures SurvivorsFollow(a, c, gone)
  {
    hide TablesFollow, LinksFollow, NoticesFollow, MailFollows, Finished;
    TablesTransitive(a, b, c);
    forall x | x in c.actors
      ensures x in a.actors && Same(a.actors[x], c.actors[x])
      ensures LinksFollow(a.actors[x], c.actors[x], Finished(a, c), gone.Keys)
      ensures NoticesFollow(a.actors[x], c.actors[x])
      ensures MailFollows(a.actors[x], c.actors[x], a, c, gone)
    {
      LinksTransitive(a.actors[x], b.actors[x], c.actors[x], Finished(a, b), Finished(b, c), gone.Keys);
      NoticesTransitive(a.actors[x], b.actors[x], c.actors[x]);
      MailTransitive(a.actors[x], b.actors[x], c.actors[x], a, b, c, gone);
    }
  }

  lemma LogAtTransitive(a: World, b: World, c: World, x: ActorId)
    requires LogAt(a, b, x) && LogAt(b, c, x)
    requires TablesFollow(a, b) && TablesFollow(b, c)
    ensures LogAt(a, c, x)
  {
    hide Trail, Exits;
    TablesTransitive(a, b, c);
    assert x in Finished(a, b) ==> x !in Finished(b, c) && x in b.completed && c.completed[x] == b.completed[x];
  }

  lemma LogTransitive(a: World, b: World, c: World)
    requires LogFollows(a, b) && LogFollows(b, c)
    requires TablesFollow(a, b) && TablesFollow(b, c)
    ensures LogFollows(a, c)
  {
    hide LogAt, TablesFollow;
    forall x ensures LogAt(a, c, x) {
      LogAtTransitive(a, b, c, x);
    }
  }

  lemma EvolvesTransitive(a: World, b: World, c: World, gone: map<ActorId, Verdict>)
    requires Evolves(a, b, gone) && Evolves(b, c, gone) && gone.Keys !! a.actors.Keys
    ensures Evolves(a, c, gone)
  {
    hide TablesFollow, SurvivorsFollow, LogFollows;
    TablesTransitive(a, b, c);
    SurvivorsTransitive(a, b, c, gone);
    LogTransitive(a, b, c);
  }

  /** With nothing half worked off a cascade is a special case of one with something so. */
  lemma EvolvesWeaken(a: World, b: World, gone: map<ActorId, Verdict>)
    requires Evolves(a, b, map[]) && gone.Keys !! a.actors.Keys
    ensures Evolves(a, b, gone)
  {
    hide TablesFollow, LogFollows, NoticesFollow, Same;
    forall x | x in b.actors
      ensures LinksFollow(a.actors[x], b.actors[x], Finished(a, b), gone.Keys)
      ensures MailFollows(a.actors[x], b.actors[x], a, b, gone)
    {
      assert MailFollows(a.actors[x], b.actors[x], a, b, map[]);
      assert LinksFollow(a.actors[x], b.actors[x], Finished(a, b), {});
    }
  }
}
