/** Steps of an exit cascade: each keeps the invariant, and together they reach a least closed set. */
module LocalCascade {
  import opened Types
  import opened Mailboxes
  import opened ExitSignals
  import opened LocalState

  // ------------------------------------------------------------------ who a cascade reaches

  /** `c` is closed: whoever is linked to a member and would die of it is a member. */
  ghost predicate Closed(w: World, q: ExitReason, c: set<ActorId>) {
    forall x, y :: x in c && x in w.actors && y in w.actors && y in w.actors[x].links && Dies(w.actors[y].trapExit, q)
      ==> y in c
  }

  /** The least closed set around `a`. */
  ghost function Reach(w: World, q: ExitReason, a: ActorId): set<ActorId> {
    set x | x in w.actors && forall c :: a in c && Closed(w, q, c) ==> x in c
  }

  lemma ReachIsLeast(w: World, q: ExitReason, a: ActorId)
    requires a in w.actors
    ensures a in Reach(w, q, a) && Closed(w, q, Reach(w, q, a))
    ensures forall c :: a in c && Closed(w, q, c) ==> Reach(w, q, a) <= c
  {
    var least := Reach(w, q, a);
    forall x, y | x in least && x in w.actors && y in w.actors && y in w.actors[x].links && Dies(w.actors[y].trapExit, q)
      ensures y in least
    {
      forall c | a in c && Closed(w, q, c) ensures y in c {
        assert x in c;
      }
    }
  }

  /** A chain of links along which each actor after the first would die. */
  ghost predicate IsPath(w: World, q: ExitReason, p: seq<ActorId>) {
    && p != []
    && (forall i :: 0 <= i < |p| ==> p[i] in w.actors)
    && (forall i :: 0 < i < |p| ==> p[i] in w.actors[p[i - 1]].links && Dies(w.actors[p[i]].trapExit, q))
  }

  ghost predicate PathTo(w: World, q: ExitReason, a: ActorId, x: ActorId, p: seq<ActorId>) {
    IsPath(w, q, p) && p[0] == a && p[|p| - 1] == x
  }

  /** Membership in the least closed set is the same as being reachable along links. */
  lemma ReachIsReachability(w: World, q: ExitReason, a: ActorId, x: ActorId)
    requires a in w.actors
    ensures x in Reach(w, q, a) <==> exists p :: PathTo(w, q, a, x, p)
  {
    ReachIsLeast(w, q, a);
    if p :| PathTo(w, q, a, x, p) {
      PathStaysInside(w, q, Reach(w, q, a), p);
    }
    ReachableIsClosed(w, q, a);
  }

  lemma ReachableIsClosed(w: World, q: ExitReason, a: ActorId)
    requires a in w.actors
    ensures forall x :: x in Reach(w, q, a) ==> exists p :: PathTo(w, q, a, x, p)
  {
    var reachable := set y | y in w.actors && exists p :: PathTo(w, q, a, y, p);
    assert PathTo(w, q, a, a, [a]);
    forall u, v | u in reachable && v in w.actors && v in w.actors[u].links && Dies(w.actors[v].trapExit, q)
      ensures v in reachable
    {
      var p :| PathTo(w, q, a, u, p);
      assert PathTo(w, q, a, v, p + [v]);
    }
    assert Closed(w, q, reachable);
  }

  lemma {:induction false} PathStaysInside(w: World, q: ExitReason, c: set<ActorId>, p: seq<ActorId>)
    requires IsPath(w, q, p) && Closed(w, q, c) && p[0] in c
    ensures p[|p| - 1] in c
    decreases |p|
  {
    if |p| > 1 { PathStaysInside(w, q, c, p[..|p| - 1]); }
  }

  // ------------------------------------------------------------------ the plain case

  /** Room for one notice per link and per monitor that may still end. */
  ghost predicate Roomy(a: Actor) {
    a.mailbox.capacity == USIZE_MAX || |a.mailbox.queue| + |a.links| + |a.monitorsOut| <= a.mailbox.capacity
  }

  /** Quiet termination hooks, and room in every mailbox. */
  ghost predicate Plain(w: World) {
    forall x :: x in w.actors ==> !w.actors[x].terminatePanics && Roomy(w.actors[x])
  }

  /** A cascade within `c` runs under one reason: a kill meets no actor that would pass it on as a shutdown. */
  ghost predicate OneReason(w: World, q: ExitReason, c: set<ActorId>) {
    q == Kill ==> c !! w.tasks.Keys
  }

  /** Everything is plain, and nothing leads out of `c`. */
  ghost predicate Ready(w: World, q: ExitReason, c: set<ActorId>) {
    Plain(w) && Closed(w, q, c) && OneReason(w, q, c)
  }

  /** No actor of `links` is left that should have ended. */
  ghost predicate Unharmed(actors: map<ActorId, Actor>, q: ExitReason, links: set<ActorId>) {
    forall y :: y in actors && y in links ==> !Dies(actors[y].trapExit, q)
  }

  /** From `a` to `b` only members of `c` ended, all with reason `q`, and no survivor should have. */
  ghost predicate Spread(a: World, b: World, q: ExitReason, c: set<ActorId>) {
    && Plain(b)
    && Finished(a, b) <= c
    && (forall x :: x in Finished(a, b) ==> Unharmed(b.actors, q, a.actors[x].links))
    && (forall x :: x in Finished(a, b) ==> x in b.completed && b.completed[x] == q)
  }

  /** The same, but the first to end, `root`, may have a reason of its own. */
  ghost predicate SpreadFrom(a: World, b: World, q: ExitReason, c: set<ActorId>, root: ActorId, reason: ExitReason) {
    && Plain(b)
    && Finished(a, b) <= c
    && (forall x :: x in Finished(a, b) ==> Unharmed(b.actors, q, a.actors[x].links))
    && (forall x :: x in Finished(a, b) ==> x in b.completed && b.completed[x] == if x == root then reason else q)
  }

  /** Links between survivors last. */
  lemma LiveLinksKept(a: World, b: World, gone: map<ActorId, Verdict>)
    requires SurvivorsFollow(a, b, gone) && gone.Keys !! a.actors.Keys && b.actors.Keys <= a.actors.Keys
    ensures forall x, y :: x in b.actors && y in b.actors && y in a.actors[x].links ==> y in b.actors[x].links
    ensures forall y :: y in b.actors ==> b.actors[y].trapExit == a.actors[y].trapExit
  {
    hide NoticesFollow, MailFollows;
    forall x, y | x in b.actors && y in b.actors && y in a.actors[x].links ensures y in b.actors[x].links {
      assert LinksFollow(a.actors[x], b.actors[x], Finished(a, b), gone.Keys);
    }
  }

  lemma FinishedAdds(a: World, b: World, d: World)
    requires TablesFollow(a, b) && TablesFollow(b, d)
    ensures Finished(a, d) == Finished(a, b) + Finished(b, d)
    ensures forall x :: x in Finished(a, b) ==> x in b.completed && x in d.completed && d.completed[x] == b.completed[x]
    ensures forall x :: x in Finished(a, b) ==> x in a.actors && x !in b.actors
    ensures d.actors.Keys <= b.actors.Keys <= a.actors.Keys
  {
    assert Finished(a, d) == Finished(a, b) + Finished(b, d);
  }

  lemma UnharmedFollows(a: World, b: World, d: World, q: ExitReason, x: ActorId, gone: map<ActorId, Verdict>)
    requires SurvivorsFollow(a, b, gone) && SurvivorsFollow(b, d, gone) && gone.Keys !! a.actors.Keys
    requires d.actors.Keys <= b.actors.Keys <= a.actors.Keys && x in a.actors
    ensures Unharmed(b.actors, q, a.actors[x].links) ==> Unharmed(d.actors, q, a.actors[x].links)
    ensures x in b.actors && Unharmed(d.actors, q, b.actors[x].links) ==> Unharmed(d.actors, q, a.actors[x].links)
  {
    hide SurvivorsFollow, Dies;
    LiveLinksKept(a, b, gone);
    LiveLinksKept(b, d, gone);
  }

  lemma SpreadTransitive(a: World, b: World, d: World, q: ExitReason, c: set<ActorId>, gone: map<ActorId, Verdict>)
    requires Evolves(a, b, gone) && Evolves(b, d, gone) && gone.Keys !! a.actors.Keys
    requires Spread(a, b, q, c) && Spread(b, d, q, c)
    ensures Spread(a, d, q, c)
  {
    hide SurvivorsFollow, LogFollows, TablesFollow, Plain, Unharmed;
    FinishedAdds(a, b, d);
    forall x | x in Finished(a, d) ensures Unharmed(d.actors, q, a.actors[x].links) {
      UnharmedFollows(a, b, d, q, x, gone);
    }
  }

  lemma ClosedFollows(a: World, b: World, q: ExitReason, c: set<ActorId>, gone: map<ActorId, Verdict>)
    requires Evolves(a, b, gone) && Closed(a, q, c)
    ensures Closed(b, q, c) && (OneReason(a, q, c) ==> OneReason(b, q, c))
  {
    hide NoticesFollow, MailFollows, LogFollows;
    forall x, y | x in c && x in b.actors && y in b.actors && y in b.actors[x].links && Dies(b.actors[y].trapExit, q)
      ensures y in c
    {
      assert LinksFollow(a.actors[x], b.actors[x], Finished(a, b), gone.Keys);
    }
  }

  // ------------------------------------------------------------------ what is left to work off

  ghost predicate LinksLeft(w: World, id: ActorId, links: set<ActorId>) {
    forall y :: y in w.actors ==> (id in w.actors[y].links <==> y in links)
  }

  /** In `m` exactly the references of `other` hold `id`. */
  ghost predicate Holds(m: map<Ref, ActorId>, id: ActorId, other: map<Ref, ActorId>, y: ActorId) {
    forall r :: (r in m && m[r] == id) <==> (r in other && other[r] == y)
  }

  ghost predicate IncomingLeft(w: World, id: ActorId, incoming: map<Ref, ActorId>) {
    forall y :: y in w.actors ==> Holds(w.actors[y].monitorsOut, id, incoming, y)
  }

  ghost predicate OutgoingLeft(w: World, id: ActorId, outgoing: map<Ref, ActorId>) {
    forall y :: y in w.actors ==> Holds(w.actors[y].monitorsIn, id, outgoing, y)
  }

  /** The table mentions `id`, which is not in it, only where these collections say. */
  ghost predicate Mentions(w: World, id: ActorId, links: set<ActorId>, incoming: map<Ref, ActorId>, outgoing: map<Ref, ActorId>) {
    id !in w.actors && LinksLeft(w, id, links) && IncomingLeft(w, id, incoming) && OutgoingLeft(w, id, outgoing)
  }

  lemma MentionsOutside(w: World, id: ActorId, links: set<ActorId>, incoming: map<Ref, ActorId>, outgoing: map<Ref, ActorId>)
    requires Mentions(w, id, links, incoming, outgoing)
    ensures id !in w.actors
  {
  }

  lemma FitsMentions(w: World, e: Actor)
    requires Inv(w) && Fits(w, e)
    ensures Mentions(w, e.id, e.links, e.monitorsIn, e.monitorsOut)
  {
    forall y | y in w.actors
      ensures e.id in w.actors[y].links <==> y in e.links
      ensures Holds(w.actors[y].monitorsOut, e.id, e.monitorsIn, y)
      ensures Holds(w.actors[y].monitorsIn, e.id, e.monitorsOut, y)
    {
      assert Agree(e, w.actors[y]) && w.actors[y].id == y;
    }
  }

  /** `y`, as seen from `id`: linked or not, and the references between the two. */
  lemma OthersKept(x: Actor, y: Actor, dead: set<ActorId>, gone: map<ActorId, Verdict>, id: ActorId)
    requires LinksFollow(x, y, dead, gone.Keys) && gone == map[] && id !in dead
    ensures id in y.links <==> id in x.links
    ensures forall m, z :: Holds(x.monitorsOut, id, m, z) ==> Holds(y.monitorsOut, id, m, z)
    ensures forall m, z :: Holds(x.monitorsIn, id, m, z) ==> Holds(y.monitorsIn, id, m, z)
  {
  }

  lemma MentionsFollow(a: World, b: World, id: ActorId, links: set<ActorId>, incoming: map<Ref, ActorId>, outgoing: map<Ref, ActorId>)
    requires Mentions(a, id, links, incoming, outgoing) && Evolves(a, b, map[])
    ensures Mentions(b, id, links, incoming, outgoing)
  {
    hide NoticesFollow, MailFollows, LogFollows, LinksFollow, Same, Holds;
    forall y | y in b.actors
      ensures id in b.actors[y].links <==> id in a.actors[y].links
      ensures Holds(b.actors[y].monitorsOut, id, incoming, y)
      ensures Holds(b.actors[y].monitorsIn, id, outgoing, y)
    {
      OthersKept(a.actors[y], b.actors[y], Finished(a, b), map[], id);
    }
  }

  // ------------------------------------------------------------------ single steps

  /** A step that touches one actor of the table and forgets only ids that are not in it. */
  ghost predicate Touches(w: World, v: World, y: ActorId, id: ActorId) {
    && y in w.actors && id !in w.actors && y != id
    && v.actors.Keys == w.actors.Keys
    && (forall z :: z in w.actors && z != y ==> v.actors[z] == w.actors[z])
    && v.completed == w.completed && v.tasks == w.tasks && v.callTimeouts == w.callTimeouts && v.timers == w.timers
    && Forgets(w.actors[y], v.actors[y], id)
  }

  /** The same actor with `id` possibly dropped from its links and monitors. */
  ghost predicate Forgets(x: Actor, y: Actor, id: ActorId) {
    && Same(x, y)
    && x.links - {id} <= y.links <= x.links
    && (forall r :: r in y.monitorsOut ==> r in x.monitorsOut && y.monitorsOut[r] == x.monitorsOut[r])
    && (forall r :: r in x.monitorsOut && x.monitorsOut[r] != id ==> r in y.monitorsOut)
    && (forall r :: r in y.monitorsIn ==> r in x.monitorsIn && y.monitorsIn[r] == x.monitorsIn[r])
    && (forall r :: r in x.monitorsIn && x.monitorsIn[r] != id ==> r in y.monitorsIn)
  }

  lemma ForgettingKeepsAgree(x: Actor, y: Actor, z: Actor, id: ActorId)
    requires Forgets(x, y, id) && z.id != id
    ensures Agree(x, z) ==> Agree(y, z)
    ensures Agree(z, x) ==> Agree(z, y)
  {
  }

  lemma TouchKeepsInv(w: World, v: World, y: ActorId, id: ActorId)
    requires Inv(w) && Touches(w, v, y, id)
    requires Schedulable(v.actors[y], v.runQueue) && w.runQueue <= v.runQueue
    ensures Inv(v)
  {
    forall a, b | a in v.actors && b in v.actors ensures Agree(v.actors[a], v.actors[b]) {
      assert Agree(w.actors[a], w.actors[b]) && Agree(w.actors[b], w.actors[a]);
      hide Agree, Forgets;
      if a == y {
        ForgettingKeepsAgree(w.actors[y], v.actors[y], w.actors[b], id);
        if b == y { ForgettingKeepsAgree(w.actors[y], v.actors[y], v.actors[y], id); }
      } else if b == y {
        ForgettingKeepsAgree(w.actors[y], v.actors[y], w.actors[a], id);
      }
    }
  }

  /** A step whose notices balance is a small cascade. */
  lemma TouchEvolves(w: World, v: World, y: ActorId, id: ActorId, gone: map<ActorId, Verdict>)
    requires Touches(w, v, y, id) && id in gone
    requires NoticesFollow(w.actors[y], v.actors[y]) && MailFollows(w.actors[y], v.actors[y], w, v, gone)
    requires w.runQueue <= v.runQueue && LogFollows(w, v)
    ensures Evolves(w, v, gone) && Finished(w, v) == {}
  {
    hide NoticesFollow, LogFollows, MailFollows;
    assert Finished(w, v) == {};
    assert TablesFollow(w, v);
    forall z | z in v.actors
      ensures Same(w.actors[z], v.actors[z])
      ensures LinksFollow(w.actors[z], v.actors[z], Finished(w, v), gone.Keys)
      ensures NoticesFollow(w.actors[z], v.actors[z])
      ensures MailFollows(w.actors[z], v.actors[z], w, v, gone)
    {
      if z != y { FollowsItself(w.actors[z], w, v, gone); }
    }
  }

  lemma FollowsItself(x: Actor, a: World, b: World, gone: map<ActorId, Verdict>)
    ensures NoticesFollow(x, x) && MailFollows(x, x, a, b, gone)
  {
  }

  /** A step on an actor that then ends in the same cascade leaves no trace of its own. */
  lemma TouchedThenEnded(w: World, v: World, u: World, y: ActorId, id: ActorId, gone: map<ActorId, Verdict>)
    requires Touches(w, v, y, id) && v.log == w.log && v.runQueue == w.runQueue
    requires Evolves(v, u, map[]) && y !in u.actors && gone.Keys !! w.actors.Keys
    ensures Evolves(w, u, gone) && Finished(w, u) == Finished(v, u)
  {
    EvolvesWeaken(v, u, gone);
    assert Finished(w, u) == Finished(v, u);
    TouchedTables(w, v, u);
    TouchedSurvivors(w, v, u, y, gone);
  }

  lemma TouchedTables(w: World, v: World, u: World)
    requires v.actors.Keys == w.actors.Keys && v.completed == w.completed && v.tasks == w.tasks
    requires v.callTimeouts == w.callTimeouts && v.timers == w.timers && v.log == w.log
    requires TablesFollow(v, u) && LogFollows(v, u)
    ensures TablesFollow(w, u) && LogFollows(w, u)
  {
    hide Trail, Exits;
    assert Finished(w, u) == Finished(v, u);
    assert forall x :: LogAt(v, u, x) ==> LogAt(w, u, x);
  }

  lemma TouchedSurvivors(w: World, v: World, u: World, y: ActorId, gone: map<ActorId, Verdict>)
    requires v.actors.Keys == w.actors.Keys && v.tasks == w.tasks && y !in u.actors
    requires forall z :: z in w.actors && z != y ==> v.actors[z] == w.actors[z]
    requires SurvivorsFollow(v, u, gone)
    ensures SurvivorsFollow(w, u, gone)
  {
    hide NoticesFollow, LinksFollow, Same, MailFollows;
    assert Finished(w, u) == Finished(v, u);
    hide Finished;
    forall x | x in u.actors
      ensures MailFollows(w.actors[x], u.actors[x], w, u, gone)
    {
      SameMailBefore(v.actors[x], u.actors[x], w, v, u, gone);
    }
  }

  lemma SameMailBefore(x: Actor, y: Actor, w: World, v: World, u: World, gone: map<ActorId, Verdict>)
    requires MailFollows(x, y, v, u, gone) && w.actors.Keys == v.actors.Keys && w.tasks == v.tasks
    ensures MailFollows(x, y, w, u, gone)
  {
    assert Finished(w, u) == Finished(v, u);
  }

  lemma TouchedThenSpread(w: World, v: World, u: World, y: ActorId, id: ActorId, q: ExitReason, c: set<ActorId>)
    requires Touches(w, v, y, id) && id !in u.actors
    requires Spread(v, u, q, c) && Finished(w, u) == Finished(v, u)
    ensures Spread(w, u, q, c)
  {
    hide Plain, Dies;
  }

  lemma TouchKeepsClosed(w: World, v: World, y: ActorId, id: ActorId, q: ExitReason, c: set<ActorId>)
    requires Touches(w, v, y, id) && Closed(w, q, c)
    ensures Closed(v, q, c) && (OneReason(w, q, c) ==> OneReason(v, q, c))
  {
  }

  // ------------------------------------------------------------------ the concrete steps

  function DropLink(w: World, y: ActorId, id: ActorId): World
    requires y in w.actors
  {
    w.(actors := w.actors[y := w.actors[y].(links := w.actors[y].links - {id})])
  }

  function DropIncoming(w: World, y: ActorId, r: Ref): World
    requires y in w.actors
  {
    w.(actors := w.actors[y := w.actors[y].(monitorsIn := w.actors[y].monitorsIn - {r})])
  }

  function DropOutgoing(w: World, y: ActorId, r: Ref): World
    requires y in w.actors
  {
    w.(actors := w.actors[y := w.actors[y].(monitorsOut := w.actors[y].monitorsOut - {r})])
  }

  /** Puts an envelope into a mailbox that has room, waking the actor if it was not scheduled. */
  function Deliver(w: World, y: ActorId, e: Envelope): World
    requires y in w.actors && !w.actors[y].mailbox.IsFullFor(e)
  {
    var p := PushEnvelope(w.actors[y], e);
    w.(actors := w.actors[y := p.actor], runQueue := if p.enqueue then w.runQueue + [y] else w.runQueue)
  }

  function Append(w: World, event: Event): World { w.(log := w.log + [event]) }

  /** Delivery changes the mailbox by one envelope and leaves the actor scheduled. */
  lemma DeliveryShape(w: World, y: ActorId, e: Envelope)
    requires y in w.actors && w.actors[y].id == y && !w.actors[y].mailbox.IsFullFor(e)
    requires Schedulable(w.actors[y], w.runQueue)
    ensures var v := Deliver(w, y, e);
      && w.runQueue <= v.runQueue
      && v.actors[y] == w.actors[y].(mailbox := w.actors[y].mailbox.Push(e), scheduled := true, status := v.actors[y].status)
      && Schedulable(v.actors[y], v.runQueue)
      && v == w.(actors := w.actors[y := v.actors[y]], runQueue := v.runQueue)
    ensures forall n :: Count(w.actors[y].mailbox.Push(e).queue, n) == Count(w.actors[y].mailbox.queue, n) + Bit(Carries(e, n))
  {
    CountPush(w.actors[y].mailbox, e);
  }

  lemma CountPush(b: Box, e: Envelope)
    ensures forall n :: Count(b.Push(e).queue, n) == Count(b.queue, n) + Bit(Carries(e, n))
  {
    assert b.Push(e).queue[..|b.queue|] == b.queue;
  }

  lemma AppendKeepsLog(w: World, v: World, event: Event)
    requires LogFollows(w, v) && !event.ExitEvent? && !event.ShutdownEvent?
    ensures LogFollows(w, Append(v, event))
  {
    var u := Append(v, event);
    assert u.log[..|v.log|] == v.log;
    assert Finished(w, u) == Finished(w, v);
    forall x ensures LogAt(w, u, x) {
      assert LogAt(w, v, x);
      assert Trail(u.log, x) == Trail(v.log, x) && Exits(u.log, x) == Exits(v.log, x);
    }
  }

  lemma SameTablesFollow(w: World, v: World, u: World)
    requires TablesFollow(w, v)
    requires u.actors == v.actors && u.completed == v.completed && u.tasks == v.tasks && u.callTimeouts == v.callTimeouts && u.timers == v.timers
    ensures TablesFollow(w, u) && Finished(w, u) == Finished(w, v)
  {
  }

  lemma SameMailFollows(x: Actor, y: Actor, w: World, v: World, u: World, gone: map<ActorId, Verdict>)
    requires MailFollows(x, y, w, v, gone) && u.actors == v.actors && u.completed == v.completed
    ensures MailFollows(x, y, w, u, gone)
  {
  }

  lemma SameSurvivorsFollow(w: World, v: World, u: World, gone: map<ActorId, Verdict>)
    requires SurvivorsFollow(w, v, gone) && u.actors == v.actors && u.completed == v.completed
    ensures SurvivorsFollow(w, u, gone)
  {
    hide LinksFollow, NoticesFollow, Same, MailFollows;
    assert Finished(w, u) == Finished(w, v);
    hide Finished;
    forall x | x in u.actors ensures MailFollows(w.actors[x], u.actors[x], w, u, gone) {
      SameMailFollows(w.actors[x], v.actors[x], w, v, u, gone);
    }
  }

  /** Events of other kinds do not matter to a cascade. */
  lemma AppendKeepsEvolves(w: World, v: World, event: Event, gone: map<ActorId, Verdict>)
    requires Evolves(w, v, gone) && !event.ExitEvent? && !event.ShutdownEvent?
    ensures Evolves(w, Append(v, event), gone) && Finished(w, Append(v, event)) == Finished(w, v)
  {
    hide TablesFollow, SurvivorsFollow, LogFollows;
    AppendKeepsLog(w, v, event);
    SameTablesFollow(w, v, Append(v, event));
    SameSurvivorsFollow(w, v, Append(v, event), gone);
  }

  lemma SameLogFollows(w: World, v: World)
    requires v.log == w.log && v.actors.Keys == w.actors.Keys
    ensures LogFollows(w, v)
  {
    assert Finished(w, v) == {};
  }

  // --- forgetting an incoming monitor of the actor that ends

  /** An actor whose mailbox, links and outgoing monitors are unchanged owes and is owed nothing. */
  lemma UnchangedMail(x: Actor, y: Actor, a: World, b: World, gone: map<ActorId, Verdict>)
    requires y.mailbox == x.mailbox && y.monitorsOut == x.monitorsOut
    requires y.links == x.links || !x.trapExit
    ensures NoticesFollow(x, y) && MailFollows(x, y, a, b, gone)
  {
  }

  lemma DropIncomingTouches(w: World, y: ActorId, r: Ref, id: ActorId)
    requires y in w.actors && id !in w.actors && Schedulable(w.actors[y], w.runQueue)
    requires r in w.actors[y].monitorsIn && w.actors[y].monitorsIn[r] == id
    ensures Touches(w, DropIncoming(w, y, r), y, id)
    ensures Schedulable(DropIncoming(w, y, r).actors[y], w.runQueue)
  {
  }

  lemma DropIncomingMentions(w: World, y: ActorId, r: Ref, id: ActorId,
      links: set<ActorId>, incoming: map<Ref, ActorId>, outgoing: map<Ref, ActorId>)
    requires Mentions(w, id, links, incoming, outgoing)
    requires y in w.actors && r in outgoing && outgoing[r] == y
    ensures Mentions(DropIncoming(w, y, r), id, links, incoming, outgoing - {r})
    ensures r in w.actors[y].monitorsIn && w.actors[y].monitorsIn[r] == id
  {
  }

  lemma DropIncomingStep(w: World, y: ActorId, r: Ref, id: ActorId, gone: map<ActorId, Verdict>)
    requires Inv(w) && y in w.actors && id !in w.actors && id in gone
    requires r in w.actors[y].monitorsIn && w.actors[y].monitorsIn[r] == id
    ensures Inv(DropIncoming(w, y, r)) && Evolves(w, DropIncoming(w, y, r), gone)
    ensures Finished(w, DropIncoming(w, y, r)) == {}
  {
    var v := DropIncoming(w, y, r);
    DropIncomingTouches(w, y, r, id);
    UnchangedMail(w.actors[y], v.actors[y], w, v, gone);
    SameLogFollows(w, v);
    hide Inv, Touches, NoticesFollow, MailFollows, LogFollows, Schedulable;
    TouchKeepsInv(w, v, y, id);
    TouchEvolves(w, v, y, id, gone);
  }

  lemma DropIncomingKeepsPlain(w: World, y: ActorId, r: Ref)
    requires Plain(w) && y in w.actors
    ensures Plain(DropIncoming(w, y, r))
  {
  }

  // --- a monitor's reference is traded for a down message

  lemma DropOutgoingTouches(w: World, y: ActorId, r: Ref, id: ActorId)
    requires y in w.actors && id !in w.actors && Schedulable(w.actors[y], w.runQueue)
    requires r in w.actors[y].monitorsOut && w.actors[y].monitorsOut[r] == id
    ensures Touches(w, DropOutgoing(w, y, r), y, id)
    ensures Schedulable(DropOutgoing(w, y, r).actors[y], w.runQueue)
  {
  }

  lemma DropOutgoingMentions(w: World, y: ActorId, r: Ref, id: ActorId,
      links: set<ActorId>, incoming: map<Ref, ActorId>, outgoing: map<Ref, ActorId>)
    requires Mentions(w, id, links, incoming, outgoing)
    requires y in w.actors && r in incoming && incoming[r] == y
    ensures Mentions(DropOutgoing(w, y, r), id, links, incoming - {r}, outgoing)
    ensures r in w.actors[y].monitorsOut && w.actors[y].monitorsOut[r] == id
  {
  }

  lemma PushedActor(a: Actor, e: Envelope)
    requires !a.mailbox.IsFullFor(e)
    ensures var p := PushEnvelope(a, e);
      p.Pushed? && p.actor == a.(mailbox := a.mailbox.Push(e), scheduled := p.actor.scheduled, status := p.actor.status)
  {
  }

  /** Delivery leaves links and monitors alone. */
  lemma DeliverKeepsRelations(w: World, y: ActorId, e: Envelope)
    requires y in w.actors && !w.actors[y].mailbox.IsFullFor(e)
    ensures var v := Deliver(w, y, e);
      && v.actors == w.actors[y := v.actors[y]]
      && v.actors[y].links == w.actors[y].links && v.actors[y].monitorsIn == w.actors[y].monitorsIn
      && v.actors[y].monitorsOut == w.actors[y].monitorsOut && v.actors[y].mailbox == w.actors[y].mailbox.Push(e)
      && Same(w.actors[y], v.actors[y])
      && v.completed == w.completed && v.tasks == w.tasks && v.callTimeouts == w.callTimeouts && v.timers == w.timers && v.log == w.log
      && w.runQueue <= v.runQueue
  {
    hide PushEnvelope;
    PushedActor(w.actors[y], e);
  }

  lemma DeliverMentions(w: World, y: ActorId, e: Envelope, id: ActorId,
      links: set<ActorId>, incoming: map<Ref, ActorId>, outgoing: map<Ref, ActorId>)
    requires Mentions(w, id, links, incoming, outgoing)
    requires y in w.actors && !w.actors[y].mailbox.IsFullFor(e)
    ensures Mentions(Deliver(w, y, e), id, links, incoming, outgoing)
  {
    hide Holds, Deliver, Same;
    DeliverKeepsRelations(w, y, e);
  }

  lemma DeliverTouches(w: World, u: World, y: ActorId, e: Envelope, id: ActorId)
    requires Touches(w, u, y, id) && !u.actors[y].mailbox.IsFullFor(e)
    ensures Touches(w, Deliver(u, y, e), y, id)
  {
    hide Deliver;
    DeliverKeepsRelations(u, y, e);
  }

  lemma InvAt(w: World, y: ActorId)
    requires Inv(w) && y in w.actors
    ensures w.actors[y].id == y && Schedulable(w.actors[y], w.runQueue)
  {
  }

  /** The actor `x`, given one more envelope and one less link or monitor. */
  lemma TradedNotice(x: Actor, y: Actor, e: Envelope, a: World, b: World, gone: map<ActorId, Verdict>, id: ActorId, r: Ref)
    requires y.mailbox == x.mailbox.Push(e)
    requires || (e.Down? && e.reference == r && e.actor == id && id in gone && e.reason == gone[id].final
                 && y.links == x.links && r in x.monitorsOut && y.monitorsOut == x.monitorsOut - {r})
             || (e.Exit? && id in gone && e.signal == ExitSignal(id, gone[id].link, true) && x.trapExit
                 && id in x.links && y.links == x.links - {id} && y.monitorsOut == x.monitorsOut)
    ensures NoticesFollow(x, y) && MailFollows(x, y, a, b, gone)
  {
    CountPush(x.mailbox, e);
  }

  lemma DownStep(w: World, y: ActorId, r: Ref, id: ActorId, gone: map<ActorId, Verdict>)
    requires Inv(w) && y in w.actors && id !in w.actors && id in gone
    requires r in w.actors[y].monitorsOut && w.actors[y].monitorsOut[r] == id
    requires !w.actors[y].mailbox.IsFullFor(Down(r, id, gone[id].final))
    ensures var v := Deliver(DropOutgoing(w, y, r), y, Down(r, id, gone[id].final));
      Inv(v) && Evolves(w, v, gone) && Finished(w, v) == {}
  {
    hide Inv, Touches, NoticesFollow, MailFollows, LogFollows, Schedulable, Deliver, PushEnvelope;
    var e := Down(r, id, gone[id].final);
    var u := DropOutgoing(w, y, r);
    var v := Deliver(u, y, e);
    InvAt(w, y);
    DropOutgoingTouches(w, y, r, id);
    DeliveryShape(u, y, e);
    DeliverTouches(w, u, y, e, id);
    TradedNotice(w.actors[y], v.actors[y], e, w, v, gone, id, r);
    SameLogFollows(w, v);
    TouchKeepsInv(w, v, y, id);
    TouchEvolves(w, v, y, id, gone);
  }

  /** One notice more and one debt less still leaves room. */
  lemma TradeRoom(x: Actor, y: Actor, e: Envelope, id: ActorId, r: Ref)
    requires Roomy(x) && e.UsesRuntimeReserve()
    requires y.mailbox == x.mailbox.Push(e)
    requires || (r in x.monitorsOut && y.monitorsOut == x.monitorsOut - {r} && y.links == x.links)
             || (id in x.links && y.links == x.links - {id} && y.monitorsOut == x.monitorsOut)
    ensures !x.mailbox.IsFullFor(e) && Roomy(y)
  {
    if r in x.monitorsOut && y.monitorsOut == x.monitorsOut - {r} {
      assert |y.monitorsOut| == |x.monitorsOut| - 1;
    } else {
      assert |y.links| == |x.links| - 1;
    }
  }

  lemma PlainUpdate(w: World, y: ActorId, a: Actor, v: World)
    requires Plain(w) && y in w.actors && Roomy(a) && a.terminatePanics == w.actors[y].terminatePanics
    requires v.actors == w.actors[y := a]
    ensures Plain(v)
  {
    hide Roomy;
  }

  lemma DownRoom(w: World, y: ActorId, r: Ref, e: Envelope)
    requires Plain(w) && y in w.actors && r in w.actors[y].monitorsOut && e.UsesRuntimeReserve()
    ensures !w.actors[y].mailbox.IsFullFor(e)
    ensures Plain(Deliver(DropOutgoing(w, y, r), y, e))
  {
    var x := w.actors[y];
    TradeRoom(x, x.(mailbox := x.mailbox.Push(e), monitorsOut := x.monitorsOut - {r}), e, x.id, r);
    var v := Deliver(DropOutgoing(w, y, r), y, e);
    assert v.actors == w.actors[y := v.actors[y]];
    assert Roomy(v.actors[y]);
    hide Deliver, Roomy, Plain;
    PlainUpdate(w, y, v.actors[y], v);
  }

  /** In the plain case a down message always fits. */
  lemma DownFits(w: World, y: ActorId, r: Ref, e: Envelope)
    requires y in w.actors && r in w.actors[y].monitorsOut && e.UsesRuntimeReserve()
    ensures y in DropOutgoing(w, y, r).actors && DropOutgoing(w, y, r).actors[y].mailbox == w.actors[y].mailbox
    ensures Plain(w) ==> !w.actors[y].mailbox.IsFullFor(e) && Plain(Deliver(DropOutgoing(w, y, r), y, e))
  {
    hide Plain, Deliver;
    if Plain(w) { DownRoom(w, y, r, e); }
  }

  // --- a link is traded for an exit message, or ends the linked actor, or is dropped

  lemma DropLinkTouches(w: World, y: ActorId, id: ActorId)
    requires y in w.actors && id !in w.actors && Schedulable(w.actors[y], w.runQueue)
    ensures Touches(w, DropLink(w, y, id), y, id)
    ensures Schedulable(DropLink(w, y, id).actors[y], w.runQueue)
  {
  }

  lemma DropLinkMentions(w: World, y: ActorId, id: ActorId,
      links: set<ActorId>, incoming: map<Ref, ActorId>, outgoing: map<Ref, ActorId>)
    requires Mentions(w, id, links, incoming, outgoing) && y in w.actors
    ensures Mentions(DropLink(w, y, id), id, links - {y}, incoming, outgoing)
    ensures y in links ==> id in w.actors[y].links
  {
  }

  /** Whatever follows, the link itself can be dropped first. */
  lemma DropLinkKeepsInv(w: World, y: ActorId, id: ActorId)
    requires Inv(w) && y in w.actors && id !in w.actors
    ensures Inv(DropLink(w, y, id)) && Touches(w, DropLink(w, y, id), y, id)
  {
    DropLinkTouches(w, y, id);
    hide Inv, Touches, Schedulable;
    TouchKeepsInv(w, DropLink(w, y, id), y, id);
  }

  lemma DropOutgoingKeepsInv(w: World, y: ActorId, r: Ref, id: ActorId)
    requires Inv(w) && y in w.actors && id !in w.actors
    requires r in w.actors[y].monitorsOut && w.actors[y].monitorsOut[r] == id
    ensures Inv(DropOutgoing(w, y, r)) && Touches(w, DropOutgoing(w, y, r), y, id)
  {
    DropOutgoingTouches(w, y, r, id);
    hide Inv, Touches, Schedulable;
    TouchKeepsInv(w, DropOutgoing(w, y, r), y, id);
  }

  lemma IgnoredLinkStep(w: World, y: ActorId, id: ActorId, gone: map<ActorId, Verdict>)
    requires Inv(w) && y in w.actors && id !in w.actors && id in gone && !w.actors[y].trapExit
    ensures Evolves(w, DropLink(w, y, id), gone) && Finished(w, DropLink(w, y, id)) == {}
  {
    var v := DropLink(w, y, id);
    DropLinkTouches(w, y, id);
    UnchangedMail(w.actors[y], v.actors[y], w, v, gone);
    SameLogFollows(w, v);
    hide Inv, Touches, NoticesFollow, MailFollows, LogFollows, Schedulable;
    TouchEvolves(w, v, y, id, gone);
  }

  lemma ExitStep(w: World, y: ActorId, id: ActorId, gone: map<ActorId, Verdict>)
    requires Inv(w) && y in w.actors && id !in w.actors && id in gone
    requires id in w.actors[y].links && w.actors[y].trapExit
    requires !w.actors[y].mailbox.IsFullFor(Exit(ExitSignal(id, gone[id].link, true)))
    ensures var v := Deliver(DropLink(w, y, id), y, Exit(ExitSignal(id, gone[id].link, true)));
      Inv(v) && Evolves(w, v, gone) && Finished(w, v) == {}
  {
    hide Inv, Touches, NoticesFollow, MailFollows, LogFollows, Schedulable, Deliver, PushEnvelope;
    var e := Exit(ExitSignal(id, gone[id].link, true));
    var u := DropLink(w, y, id);
    var v := Deliver(u, y, e);
    InvAt(w, y);
    DropLinkTouches(w, y, id);
    DeliveryShape(u, y, e);
    DeliverTouches(w, u, y, e, id);
    TradedNotice(w.actors[y], v.actors[y], e, w, v, gone, id, 0);
    SameLogFollows(w, v);
    TouchKeepsInv(w, v, y, id);
    TouchEvolves(w, v, y, id, gone);
  }

  lemma ExitRoom(w: World, y: ActorId, id: ActorId, e: Envelope)
    requires Plain(w) && y in w.actors && id in w.actors[y].links && e.UsesRuntimeReserve()
    ensures !w.actors[y].mailbox.IsFullFor(e)
    ensures Plain(DropLink(w, y, id))
    ensures Plain(Deliver(DropLink(w, y, id), y, e))
  {
    var x := w.actors[y];
    TradeRoom(x, x.(mailbox := x.mailbox.Push(e), links := x.links - {id}), e, id, 0);
    var u := DropLink(w, y, id);
    var v := Deliver(u, y, e);
    assert v.actors == w.actors[y := v.actors[y]];
    assert Roomy(v.actors[y]) && Roomy(u.actors[y]);
    hide Deliver, Roomy, Plain;
    PlainUpdate(w, y, u.actors[y], u);
    PlainUpdate(w, y, v.actors[y], v);
  }

  // --- entries whose actor is no longer in the table

  lemma SkipOutgoing(w: World, id: ActorId, links: set<ActorId>, incoming: map<Ref, ActorId>, outgoing: map<Ref, ActorId>, r: Ref)
    requires Mentions(w, id, links, incoming, outgoing) && r in outgoing && (outgoing[r] !in w.actors || outgoing[r] == id)
    ensures Mentions(w, id, links, incoming, outgoing - {r})
  {
  }

  lemma SkipIncoming(w: World, id: ActorId, links: set<ActorId>, incoming: map<Ref, ActorId>, outgoing: map<Ref, ActorId>, r: Ref)
    requires Mentions(w, id, links, incoming, outgoing) && r in incoming && (incoming[r] !in w.actors || incoming[r] == id)
    ensures Mentions(w, id, links, incoming - {r}, outgoing)
  {
  }

  lemma SkipLink(w: World, id: ActorId, links: set<ActorId>, incoming: map<Ref, ActorId>, outgoing: map<Ref, ActorId>, y: ActorId)
    requires Mentions(w, id, links, incoming, outgoing) && (y !in w.actors || y == id)
    ensures Mentions(w, id, links - {y}, incoming, outgoing)
  {
  }

  // ------------------------------------------------------------------ small consequences

  /** What a cascade never changes about a survivor. */
  lemma SurvivorsKept(a: World, b: World, gone: map<ActorId, Verdict>)
    requires Evolves(a, b, gone)
    ensures b.actors.Keys <= a.actors.Keys
    ensures forall y :: y in b.actors ==> b.actors[y].trapExit == a.actors[y].trapExit
    ensures b.tasks.Keys <= a.tasks.Keys
    ensures forall x :: x !in a.actors ==> (x in b.tasks <==> x in a.tasks)
  {
    hide LinksFollow, NoticesFollow, MailFollows, LogFollows;
  }

  lemma AppendKeepsInv(w: World, event: Event)
    requires Inv(w)
    ensures Inv(Append(w, event))
  {
  }

  lemma AppendKeepsPlain(w: World, event: Event)
    requires Plain(w)
    ensures Plain(Append(w, event))
  {
  }

  lemma AppendKeepsMentions(w: World, event: Event, id: ActorId,
      links: set<ActorId>, incoming: map<Ref, ActorId>, outgoing: map<Ref, ActorId>)
    requires Mentions(w, id, links, incoming, outgoing)
    ensures Mentions(Append(w, event), id, links, incoming, outgoing)
  {
  }

  // ------------------------------------------------------------------ closing the books on one actor

  function Put(w: World, e: Actor): World { w.(actors := w.actors[e.id := e]) }

  function WithoutTimeouts(w: World, id: ActorId): World {
    w.(callTimeouts := (set p | p in w.callTimeouts && p.0 != id), timers := (set p | p in w.timers && p.0 != id))
  }

  function FinalEvents(w: World, id: ActorId, final: ExitReason): seq<Event> {
    (if id in w.tasks then [Closing(w.tasks[id], id, final)] else [])
    + [ExitEvent(id, final)]
    + (if final == Normal || final == Shutdown then [] else [CrashEvent(id, final)])
  }

  function BooksClosed(w: World, id: ActorId, final: ExitReason): World {
    w.(completed := w.completed[id := final], tasks := w.tasks - {id}, log := w.log + FinalEvents(w, id, final))
  }

  lemma {:induction false} TrailConcat(l: seq<Event>, m: seq<Event>, x: ActorId)
    ensures Trail(l + m, x) == Trail(l, x) + Trail(m, x) && Exits(l + m, x) == Exits(l, x) + Exits(m, x)
  {
    if m == [] {
      assert l + m == l;
    } else {
      TrailConcat(l, m[..|m| - 1], x);
      assert (l + m)[..|l + m| - 1] == l + m[..|m| - 1];
    }
  }

  lemma TrailOfOne(e: Event, x: ActorId)
    ensures Trail([e], x) == (if e.ShutdownEvent? && e.actor == x then [e] else [])
    ensures Exits([e], x) == (if e.ExitEvent? && e.actor == x then [e] else [])
    ensures Trail([], x) == [] && Exits([], x) == []
  {
    assert [e][..0] == [];
  }

  lemma FinalTrail(w: World, id: ActorId, final: ExitReason, x: ActorId)
    ensures var v := BooksClosed(w, id, final);
      && Trail(v.log, x) == Trail(w.log, x) + (if x == id && id in w.tasks then [Closing(w.tasks[id], id, final)] else [])
      && Exits(v.log, x) == Exits(w.log, x) + (if x == id then [ExitEvent(id, final)] else [])
  {
    hide Trail, Exits;
    var exit := [ExitEvent(id, final)];
    var last := if final == Normal || final == Shutdown then [] else [CrashEvent(id, final)];
    TrailOfOne(exit[0], x);
    TrailOfOne(CrashEvent(id, final), x);
    if id in w.tasks {
      TrailOfOne(Closing(w.tasks[id], id, final), x);
      TrailConcat(w.log, [Closing(w.tasks[id], id, final)] + exit + last, x);
      TrailConcat([Closing(w.tasks[id], id, final)] + exit, last, x);
      TrailConcat([Closing(w.tasks[id], id, final)], exit, x);
    } else {
      assert FinalEvents(w, id, final) == exit + last;
      TrailConcat(w.log, exit + last, x);
      TrailConcat(exit, last, x);
    }
  }

  lemma FinishTables(w: World, e: Actor, n: World, final: ExitReason)
    requires e.id !in w.actors && e.id !in w.completed && TablesFollow(WithoutTimeouts(w, e.id), n)
    ensures var v := BooksClosed(n, e.id, final);
      TablesFollow(Put(w, e), v) && Finished(Put(w, e), v) == Finished(WithoutTimeouts(w, e.id), n) + {e.id}
  {
    hide FinalEvents;
    var u := WithoutTimeouts(w, e.id);
    var v := BooksClosed(n, e.id, final);
    assert Finished(Put(w, e), v) == Finished(u, n) + {e.id};
    assert w.tasks - Finished(u, n) - {e.id} == w.tasks - (Finished(u, n) + {e.id});
    assert v.completed.Keys == w.completed.Keys + (Finished(u, n) + {e.id});
  }

  lemma FinishLogAt(w: World, e: Actor, n: World, final: ExitReason, x: ActorId)
    requires e.id !in w.actors && e.id !in w.completed
    requires TablesFollow(WithoutTimeouts(w, e.id), n) && LogAt(WithoutTimeouts(w, e.id), n, x)
    ensures LogAt(Put(w, e), BooksClosed(n, e.id, final), x)
  {
    FinishTables(w, e, n, final);
    hide Trail, Exits, FinalEvents;
    FinalTrail(n, e.id, final, x);
  }

  lemma FinishLog(w: World, e: Actor, n: World, final: ExitReason)
    requires e.id !in w.actors && e.id !in w.completed
    requires TablesFollow(WithoutTimeouts(w, e.id), n) && LogFollows(WithoutTimeouts(w, e.id), n)
    ensures LogFollows(Put(w, e), BooksClosed(n, e.id, final))
  {
    hide LogAt, TablesFollow, FinalEvents;
    forall x ensures LogAt(Put(w, e), BooksClosed(n, e.id, final), x) {
      FinishLogAt(w, e, n, final, x);
    }
  }

  lemma FinishSurvivors(w: World, e: Actor, n: World, final: ExitReason, gone: map<ActorId, Verdict>)
    requires e.id !in w.actors && e.id !in w.completed && TablesFollow(WithoutTimeouts(w, e.id), n)
    requires SurvivorsFollow(WithoutTimeouts(w, e.id), n, gone)
    requires gone == map[e.id := Verdict(final, ShutdownLinkReason(e.id in w.tasks, final))]
    requires Mentions(n, e.id, {}, map[], map[])
    ensures SurvivorsFollow(Put(w, e), BooksClosed(n, e.id, final), map[])
  {
    hide NoticesFollow, Same, LinksFollow, MailFollows, TablesFollow, Mentions, Finished, FinalEvents;
    var u := WithoutTimeouts(w, e.id);
    var v := BooksClosed(n, e.id, final);
    var nobody: map<ActorId, Verdict> := map[];
    assert nobody.Keys == {} && gone.Keys == {e.id};
    FinishTables(w, e, n, final);
    MentionsOutside(n, e.id, {}, map[], map[]);
    forall x | x in v.actors
      ensures LinksFollow(u.actors[x], v.actors[x], Finished(Put(w, e), v), nobody.Keys)
      ensures MailFollows(u.actors[x], v.actors[x], Put(w, e), v, nobody)
    {
      NothingLeft(n, e.id, x);
      FinishLinks(u.actors[x], n.actors[x], Finished(u, n), e.id);
      FinishMail(w, e, n, final, gone, x);
    }
  }

  ghost predicate Forgotten(y: Actor, id: ActorId) {
    && id !in y.links
    && (forall r :: r in y.monitorsOut ==> y.monitorsOut[r] != id)
    && (forall r :: r in y.monitorsIn ==> y.monitorsIn[r] != id)
  }

  lemma NothingLeft(w: World, id: ActorId, y: ActorId)
    requires Mentions(w, id, {}, map[], map[]) && y in w.actors
    ensures Forgotten(w.actors[y], id)
  {
    assert Holds(w.actors[y].monitorsOut, id, map[], y) && Holds(w.actors[y].monitorsIn, id, map[], y);
  }

  lemma FinishLinks(x: Actor, y: Actor, dead: set<ActorId>, id: ActorId)
    requires LinksFollow(x, y, dead, {id}) && Forgotten(y, id)
    ensures LinksFollow(x, y, dead + {id}, {})
  {
  }

  lemma FinishMail(w: World, e: Actor, n: World, final: ExitReason, gone: map<ActorId, Verdict>, x: ActorId)
    requires e.id !in w.actors && e.id !in w.completed && TablesFollow(WithoutTimeouts(w, e.id), n) && x in n.actors && x in w.actors
    requires gone == map[e.id := Verdict(final, ShutdownLinkReason(e.id in w.tasks, final))]
    requires MailFollows(w.actors[x], n.actors[x], WithoutTimeouts(w, e.id), n, gone)
    ensures MailFollows(w.actors[x], n.actors[x], Put(w, e), BooksClosed(n, e.id, final), map[])
  {
    var v := BooksClosed(n, e.id, final);
    FinishTables(w, e, n, final);
    forall i | |w.actors[x].mailbox.queue| <= i < |n.actors[x].mailbox.queue|
      ensures CascadeMail(n.actors[x].mailbox.queue[i].envelope, Put(w, e), v, map[])
    {
      assert CascadeMail(n.actors[x].mailbox.queue[i].envelope, WithoutTimeouts(w, e.id), n, gone);
    }
  }

  lemma FinishInv(n: World, id: ActorId, final: ExitReason)
    requires Inv(n) && id !in n.actors
    ensures Inv(BooksClosed(n, id, final))
  {
    hide Agree, Schedulable, FinalEvents;
  }

  /** Once nothing mentions the actor any more, its whole end reads as one cascade. */
  lemma FinishEvolves(w: World, e: Actor, n: World, final: ExitReason, gone: map<ActorId, Verdict>)
    requires e.id !in w.actors && e.id !in w.completed && Evolves(WithoutTimeouts(w, e.id), n, gone) && Inv(n)
    requires gone == map[e.id := Verdict(final, ShutdownLinkReason(e.id in w.tasks, final))]
    requires Mentions(n, e.id, {}, map[], map[])
    ensures Evolves(Put(w, e), BooksClosed(n, e.id, final), map[]) && Inv(BooksClosed(n, e.id, final))
  {
    FinishInv(n, e.id, final);
    hide Inv, TablesFollow, LogFollows, SurvivorsFollow, Mentions, FinalEvents;
    FinishTables(w, e, n, final);
    FinishLog(w, e, n, final);
    FinishSurvivors(w, e, n, final, gone);
  }

  lemma FinishKeepsPlain(n: World, id: ActorId, final: ExitReason)
    requires Plain(n)
    ensures Plain(BooksClosed(n, id, final))
  {
    hide Roomy, FinalEvents;
  }

  lemma FinishCompleted(n: World, id: ActorId, final: ExitReason, x: ActorId)
    ensures var v := BooksClosed(n, id, final);
      && v.actors == n.actors && id in v.completed && v.completed[id] == final
      && (x != id && x in n.completed ==> x in v.completed && v.completed[x] == n.completed[x])
  {
  }

  lemma FinishSpread(w: World, e: Actor, n: World, final: ExitReason, q: ExitReason, c: set<ActorId>)
    requires e.id !in w.actors && e.id !in w.completed && TablesFollow(WithoutTimeouts(w, e.id), n) && e.id in c
    requires Spread(WithoutTimeouts(w, e.id), n, q, c) && Unharmed(n.actors, q, e.links)
    ensures SpreadFrom(Put(w, e), BooksClosed(n, e.id, final), q, c, e.id, final)
  {
    hide TablesFollow, Unharmed, Plain, Finished, BooksClosed;
    FinishTables(w, e, n, final);
    FinishKeepsPlain(n, e.id, final);
    var u := WithoutTimeouts(w, e.id);
    var v := BooksClosed(n, e.id, final);
    FinishedIn(Put(w, e), v);
    forall x | x in Finished(Put(w, e), v)
      ensures x in Put(w, e).actors
      ensures Unharmed(v.actors, q, Put(w, e).actors[x].links)
      ensures x in v.completed && v.completed[x] == if x == e.id then final else q
    {
      FinishCompleted(n, e.id, final, x);
      FinishedWere(w, e, n, x);
      if x != e.id { assert x in Finished(u, n); }
    }
  }

  lemma FinishedIn(a: World, b: World)
    ensures Finished(a, b) <= a.actors.Keys
  {
  }

  lemma FinishedWere(w: World, e: Actor, n: World, x: ActorId)
    requires e.id !in w.actors
    ensures x in Finished(WithoutTimeouts(w, e.id), n) ==>
      x != e.id && x in w.actors && Put(w, e).actors[x] == WithoutTimeouts(w, e.id).actors[x]
    ensures Put(w, e).actors[e.id] == e
  {
  }

  // ------------------------------------------------------------------ taking an actor out of the table

  lemma TakeOut(w: World, id: ActorId)
    requires Inv(w) && id in w.actors
    ensures var v := w.(actors := w.actors - {id});
      Inv(v) && Fits(v, w.actors[id]) && Put(v, w.actors[id]) == w && w.actors[id].id == id
    ensures Plain(w) ==> Plain(w.(actors := w.actors - {id})) && !w.actors[id].terminatePanics
  {
    hide Agree, Schedulable;
    var v := w.(actors := w.actors - {id});
    assert v.actors[id := w.actors[id]] == w.actors;
  }

  lemma TimeoutsDoNotMatter(w: World, e: Actor)
    requires Inv(w) && Fits(w, e)
    ensures var u := WithoutTimeouts(w, e.id);
      Inv(u) && Mentions(u, e.id, e.links, e.monitorsIn, e.monitorsOut) && e.id !in w.actors && e.id !in w.completed
  {
    FitsMentions(w, e);
    hide Agree, Schedulable, Holds, Dies;
  }

  /** In a closed set around the ending actor, the links it takes down are members. */
  lemma EndIsPlainAround(w: World, e: Actor, q: ExitReason, c: set<ActorId>)
    requires e.id !in w.actors && Plain(w) && Closed(Put(w, e), q, c) && OneReason(w, q, c) && e.id in c
    ensures PlainAround(WithoutTimeouts(w, e.id), q, e.links, c)
  {
    hide Roomy, Dies;
    assert forall x :: x in w.actors ==> Put(w, e).actors[x] == w.actors[x];
  }

  lemma NothingSpread(a: World, b: World, q: ExitReason, c: set<ActorId>)
    requires Plain(b) && Finished(a, b) == {}
    ensures Spread(a, b, q, c)
  {
  }

  lemma UniformSpread(a: World, b: World, q: ExitReason, c: set<ActorId>, root: ActorId)
    requires SpreadFrom(a, b, q, c, root, q)
    ensures Spread(a, b, q, c)
  {
  }

  lemma ReasonIsKept(w: World, q: ExitReason, c: set<ActorId>, actor: ActorId)
    requires Ready(w, q, c) && actor in c
    ensures ShutdownLinkReason(actor in w.tasks, q) == q
  {
  }

  lemma DeliverKeepsInv(w: World, y: ActorId, e: Envelope)
    requires Inv(w) && y in w.actors && !w.actors[y].mailbox.IsFullFor(e)
    ensures Inv(Deliver(w, y, e))
  {
    DeliveryShape(w, y, e);
    hide PushEnvelope, Deliver, Schedulable, Agree;
    var v := Deliver(w, y, e);
    forall a | a in v.actors ensures v.actors[a].id == a && Schedulable(v.actors[a], v.runQueue) {
      if a != y { StaysSchedulable(w.actors[a], w.runQueue, v.runQueue); }
    }
    forall a, b | a in v.actors && b in v.actors ensures Agree(v.actors[a], v.actors[b]) {
      AgreeAsBefore(w.actors[a], v.actors[a], w.actors[b], v.actors[b]);
    }
  }

  /** Agreement does not look at mailboxes or scheduling. */
  lemma AgreeAsBefore(a: Actor, a': Actor, b: Actor, b': Actor)
    requires Agree(a, b)
    requires a'.id == a.id && a'.links == a.links && a'.monitorsIn == a.monitorsIn && a'.monitorsOut == a.monitorsOut
    requires b'.id == b.id && b'.links == b.links && b'.monitorsIn == b.monitorsIn && b'.monitorsOut == b.monitorsOut
    ensures Agree(a', b')
  {
  }

  lemma StaysSchedulable(a: Actor, q: seq<ActorId>, r: seq<ActorId>)
    requires Schedulable(a, q) && q <= r
    ensures Schedulable(a, r)
  {
  }

  // ------------------------------------------------------------------ the plain case, link by link

  /** Everything is plain, `c` is closed, and contains whatever `links` would take down. */
  ghost predicate PlainAround(w: World, q: ExitReason, links: set<ActorId>, c: set<ActorId>) {
    && Ready(w, q, c)
    && (forall y :: y in w.actors && y in links && Dies(w.actors[y].trapExit, q) ==> y in c)
  }

  lemma NothingDoneYet(w: World, q: ExitReason, links: set<ActorId>, c: set<ActorId>)
    ensures PlainAround(w, q, links, c) ==> Spread(w, w, q, c)
    ensures Unharmed(w.actors, q, links - links)
  {
    assert links - links == {};
  }

  lemma SelfLink(w: World, q: ExitReason, links: set<ActorId>, rest: set<ActorId>, c: set<ActorId>, id: ActorId)
    requires id !in w.actors
    ensures PlainAround(w, q, rest, c) ==> PlainAround(w, q, rest - {id}, c)
    ensures Unharmed(w.actors, q, links - rest) ==> Unharmed(w.actors, q, links - (rest - {id}))
  {
  }

  lemma AroundFollows(w: World, v: World, q: ExitReason, links: set<ActorId>, rest: set<ActorId>, c: set<ActorId>,
      gone: map<ActorId, Verdict>, y: ActorId)
    requires Evolves(w, v, gone) && Spread(w, v, q, c) && PlainAround(w, q, rest, c)
    requires Unharmed(w.actors, q, links - rest) && Unharmed(v.actors, q, {y})
    ensures PlainAround(v, q, rest - {y}, c) && Unharmed(v.actors, q, links - (rest - {y}))
  {
    hide Evolves, Closed, Plain, OneReason, Dies;
    ClosedFollows(w, v, q, c, gone);
    SurvivorsKept(w, v, gone);
  }

  lemma AbsentLink(w: World, q: ExitReason, links: set<ActorId>, c: set<ActorId>, y: ActorId)
    requires y !in w.actors
    ensures PlainAround(w, q, links, c) ==> Spread(w, w, q, c) && Unharmed(w.actors, q, {y})
  {
  }

  lemma GoneIsUnharmed(w: World, v: World, u: World, y: ActorId, id: ActorId, q: ExitReason)
    requires Touches(w, v, y, id) && u.actors.Keys <= v.actors.Keys && y !in u.actors
    ensures Unharmed(u.actors, q, {y}) && id !in u.actors
  {
  }

  lemma DyingLinkEnds(w: World, v: World, u: World, y: ActorId, id: ActorId, q: ExitReason, links: set<ActorId>, c: set<ActorId>)
    requires y in w.actors && v == DropLink(w, y, id) && Touches(w, v, y, id) && id !in u.actors && y in links
    requires Finished(w, u) == Finished(v, u) && id in w.actors[y].links && Dies(w.actors[y].trapExit, q)
    requires Ready(v, q, c) && y in c ==> Spread(v, u, q, c)
    requires PlainAround(w, q, links, c)
    ensures Spread(w, u, q, c)
  {
    hide Finished, Touches, Closed, OneReason, Spread, Plain, Dies, DropLink;
    ExitRoom(w, y, id, Exit(ExitSignal(id, q, true)));
    TouchKeepsClosed(w, v, y, id, q, c);
    TouchedThenSpread(w, v, u, y, id, q, c);
  }

  lemma NeverFull(w: World, y: ActorId, id: ActorId)
    requires Plain(w) && y in w.actors && id in w.actors[y].links
    ensures forall e: Envelope :: e.UsesRuntimeReserve() ==> !w.actors[y].mailbox.IsFullFor(e)
  {
    hide Plain, Deliver, DropLink;
    forall e: Envelope | e.UsesRuntimeReserve() ensures !w.actors[y].mailbox.IsFullFor(e) {
      ExitRoom(w, y, id, e);
    }
  }

  lemma LinkEnds(w: World, v: World, u: World, y: ActorId, id: ActorId, q: ExitReason, links: set<ActorId>, c: set<ActorId>)
    requires y in w.actors && v == DropLink(w, y, id) && Touches(w, v, y, id) && Evolves(v, u, map[]) && y !in u.actors && y in links
    requires Finished(w, u) == Finished(v, u)
    requires Dies(w.actors[y].trapExit, q) && Ready(v, q, c) && y in c ==> Spread(v, u, q, c)
    requires id in w.actors[y].links
    requires !Dies(w.actors[y].trapExit, q) ==> exists e: Envelope :: e.UsesRuntimeReserve() && w.actors[y].mailbox.IsFullFor(e)
    ensures PlainAround(w, q, links, c) ==> Spread(w, u, q, c) && Unharmed(u.actors, q, {y})
  {
    hide Evolves, Finished, Touches, Closed, OneReason, Spread, Plain, Dies, Unharmed, DropLink;
    SurvivorsKept(v, u, map[]);
    GoneIsUnharmed(w, v, u, y, id, q);
    if PlainAround(w, q, links, c) {
      NeverFull(w, y, id);
      DyingLinkEnds(w, v, u, y, id, q, links, c);
    }
  }

  lemma LinkTold(w: World, y: ActorId, id: ActorId, signal: ExitSignal, links: set<ActorId>, c: set<ActorId>)
    requires y in w.actors && id in w.actors[y].links && !w.actors[y].mailbox.IsFullFor(Exit(signal))
    requires !Dies(w.actors[y].trapExit, signal.reason)
    ensures var v := Deliver(DropLink(w, y, id), y, Exit(signal));
      PlainAround(w, signal.reason, links, c) ==> Spread(w, v, signal.reason, c) && Unharmed(v.actors, signal.reason, {y})
  {
    var v := Deliver(DropLink(w, y, id), y, Exit(signal));
    assert Finished(w, v) == {};
    assert v.actors[y].trapExit == w.actors[y].trapExit;
    if PlainAround(w, signal.reason, links, c) {
      ExitRoom(w, y, id, Exit(signal));
      NothingSpread(w, v, signal.reason, c);
    }
  }

  lemma LinkIgnored(w: World, y: ActorId, id: ActorId, q: ExitReason, links: set<ActorId>, c: set<ActorId>)
    requires y in w.actors && id in w.actors[y].links && !Dies(w.actors[y].trapExit, q)
    ensures PlainAround(w, q, links, c) ==> Spread(w, DropLink(w, y, id), q, c) && Unharmed(DropLink(w, y, id).actors, q, {y})
  {
    var v := DropLink(w, y, id);
    assert Finished(w, v) == {};
    if PlainAround(w, q, links, c) {
      ExitRoom(w, y, id, Exit(ExitSignal(id, q, true)));
      NothingSpread(w, v, q, c);
    }
  }

  /** The monitors end nobody when everything is plain, so the links find it plain as well. */
  lemma DetachIsPlain(u: World, m: World, d: World, q: ExitReason, links: set<ActorId>, c: set<ActorId>, gone: map<ActorId, Verdict>)
    requires Evolves(u, m, gone) && Evolves(m, d, gone) && Evolves(u, d, gone)
    requires Plain(u) ==> Plain(m) && Finished(u, m) == {}
    requires Plain(m) ==> Plain(d) && Finished(m, d) == {}
    ensures PlainAround(u, q, links, c) ==> PlainAround(d, q, links, c) && Spread(u, d, q, c)
  {
    assert TablesFollow(u, m) && TablesFollow(m, d);
    hide Evolves, Closed, Plain, OneReason, TablesFollow, Dies, Finished;
    if PlainAround(u, q, links, c) {
      ClosedFollows(u, d, q, c, gone);
      SurvivorsKept(u, d, gone);
      TablesTransitive(u, m, d);
      NothingSpread(u, d, q, c);
    }
  }

  lemma FinishIsPlain(w: World, e: Actor, n: World, final: ExitReason, q: ExitReason, c: set<ActorId>, gone: map<ActorId, Verdict>)
    requires e.id !in w.actors && e.id !in w.completed && e.id in c
    requires Evolves(WithoutTimeouts(w, e.id), n, gone)
    requires Spread(WithoutTimeouts(w, e.id), n, q, c) && Unharmed(n.actors, q, e.links)
    ensures SpreadFrom(Put(w, e), BooksClosed(n, e.id, final), q, c, e.id, final)
  {
    assert TablesFollow(WithoutTimeouts(w, e.id), n);
    hide Evolves, TablesFollow, Spread, SpreadFrom, Unharmed, FinalEvents;
    FinishSpread(w, e, n, final, q, c);
  }
}
