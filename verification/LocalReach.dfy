/** In the plain case an exit cascade is exactly reachability over links. */
module LocalReach {
  import opened Types
  import opened Mailboxes
  import opened ExitSignals
  import opened LocalState
  import opened LocalCascade
  import opened LocalCauses

  /** What the end of everyone in `dead` leaves at a survivor. */
  ghost predicate Aftermath(x: Actor, y: Actor, dead: set<ActorId>) {
    && y.links == x.links - dead
    && (forall r :: r in y.monitorsOut <==> r in x.monitorsOut && x.monitorsOut[r] !in dead)
    && (forall n :: Count(y.mailbox.queue, ExitFrom(n))
                 == Count(x.mailbox.queue, ExitFrom(n)) + Bit(x.trapExit && n in x.links && n in dead))
    && (forall r :: Count(y.mailbox.queue, DownFor(r))
                 == Count(x.mailbox.queue, DownFor(r)) + Bit(r in x.monitorsOut && x.monitorsOut[r] in dead))
  }

  /**
   * Exactly the reachable actors ended, the root with its own reason and the others with `q`; every
   * survivor lost exactly its links and monitors to them, and got one notice for each of those.
   */
  ghost predicate ExactCascade(a: World, b: World, q: ExitReason, root: ActorId, reason: ExitReason) {
    && b.actors.Keys == a.actors.Keys - Reach(a, q, root)
    && (forall x :: x in Reach(a, q, root) ==> x in b.completed && b.completed[x] == if x == root then reason else q)
    && (forall y :: y in b.actors ==> y in a.actors && Aftermath(a.actors[y], b.actors[y], Reach(a, q, root)))
  }

  lemma AftermathFollows(x: Actor, y: Actor, dead: set<ActorId>)
    requires LinksFollow(x, y, dead, {}) && NoticesFollow(x, y)
    ensures Aftermath(x, y, dead)
  {
    hide Count;
  }

  /** No survivor of a plain cascade should have ended, so those that did are closed. */
  lemma FinishedIsClosed(a: World, b: World, q: ExitReason, c: set<ActorId>, root: ActorId, reason: ExitReason)
    requires Evolves(a, b, map[]) && SpreadFrom(a, b, q, c, root, reason)
    ensures Closed(a, q, Finished(a, b))
  {
    hide LinksFollow, NoticesFollow, MailFollows, LogFollows, Plain, Dies;
    SurvivorsKept(a, b, map[]);
    forall x, y | x in Finished(a, b) && x in a.actors && y in a.actors && y in a.actors[x].links && Dies(a.actors[y].trapExit, q)
      ensures y in Finished(a, b)
    {
      assert Unharmed(b.actors, q, a.actors[x].links);
    }
  }

  lemma CascadeIsReachability(a: World, b: World, q: ExitReason, root: ActorId, reason: ExitReason)
    requires root in a.actors && root !in b.actors && Evolves(a, b, map[])
    requires SpreadFrom(a, b, q, Reach(a, q, root), root, reason)
    ensures ExactCascade(a, b, q, root, reason)
  {
    hide LinksFollow, NoticesFollow, MailFollows, LogFollows, Plain, Closed, Reach, Aftermath;
    var nobody: map<ActorId, Verdict> := map[];
    assert nobody.Keys == {};
    ReachIsLeast(a, q, root);
    FinishedIsClosed(a, b, q, Reach(a, q, root), root, reason);
    assert Finished(a, b) == Reach(a, q, root);
    forall y | y in b.actors ensures Aftermath(a.actors[y], b.actors[y], Finished(a, b)) {
      AftermathFollows(a.actors[y], b.actors[y], Finished(a, b));
    }
    assert b.actors.Keys == a.actors.Keys - Finished(a, b);
  }

  // ------------------------------------------------------------------ one actor's end, with all it sets off

  /**
   * A live actor ended for this reason. It is one cascade, in which everyone else who ended had a cause;
   * in the plain case its extent is exact.
   */
  ghost predicate EndedBy(u: World, v: World, x: ActorId, reason: ExitReason) {
    var q := ShutdownLinkReason(x in u.tasks, reason);
    && x in u.actors && x !in v.actors && Inv(v) && Evolves(u, v, map[]) && CausesFollow(u, v, map[], {x})
    && x in v.completed && v.completed[x] == FinalReason(u.actors[x], reason)
    && (Plain(u) && OneReason(u, q, Reach(u, q, x)) ==> ExactCascade(u, v, q, x, reason))
  }

  lemma EndIsExact(u: World, v: World, x: ActorId, reason: ExitReason)
    requires x in u.actors && x !in v.actors && Inv(v) && Evolves(u, v, map[]) && CausesFollow(u, v, map[], {x})
    requires x in v.completed && v.completed[x] == FinalReason(u.actors[x], reason)
    requires var q := ShutdownLinkReason(x in u.tasks, reason);
      Ready(u, q, Reach(u, q, x)) && x in Reach(u, q, x) ==> SpreadFrom(u, v, q, Reach(u, q, x), x, reason)
    ensures EndedBy(u, v, x, reason)
  {
    hide Inv, Evolves, CausesFollow, Plain, Closed, OneReason, Reach, SpreadFrom, ExactCascade, FinalReason;
    var q := ShutdownLinkReason(x in u.tasks, reason);
    ReachIsLeast(u, q, x);
    if Plain(u) && OneReason(u, q, Reach(u, q, x)) { CascadeIsReachability(u, v, q, x, reason); }
  }

  /** The running actor ended; whether its own hook panics does not matter for the extent. */
  ghost predicate EndedWith(w: World, cur: Actor, reason: ExitReason, v: World) {
    var q := LinkReason(w, cur, reason);
    && Evolves(Put(w, cur), v, map[]) && CausesFollow(Put(w, cur), v, map[], {cur.id}) && cur.id in v.completed && v.completed[cur.id] == FinalReason(cur, reason)
    && (Plain(w) && OneReason(w, q, Reach(Put(w, cur), q, cur.id)) ==>
          ExactCascade(Put(w, cur), v, q, cur.id, FinalReason(cur, reason)))
  }

  /** The actor ends in the plain case, within the closed set `c`. */
  ghost predicate EndsPlainly(w: World, e: Actor, reason: ExitReason, c: set<ActorId>) {
    var q := LinkReason(w, e, reason);
    Plain(w) && Closed(Put(w, e), q, c) && OneReason(w, q, c) && e.id in c
  }

  lemma TurnEndIsExact(w: World, cur: Actor, reason: ExitReason, v: World)
    requires Inv(v) && Fits(w, cur) && Evolves(Put(w, cur), v, map[]) && CausesFollow(Put(w, cur), v, map[], {cur.id}) && cur.id !in v.actors
    requires cur.id in v.completed && v.completed[cur.id] == FinalReason(cur, reason)
    requires var q := LinkReason(w, cur, reason); var c := Reach(Put(w, cur), q, cur.id);
      EndsPlainly(w, cur, reason, c) ==> SpreadFrom(Put(w, cur), v, q, c, cur.id, FinalReason(cur, reason))
    ensures EndedWith(w, cur, reason, v)
  {
    hide Inv, Fits, Evolves, CausesFollow, Plain, Closed, OneReason, Reach, SpreadFrom, ExactCascade, FinalReason;
    var q := LinkReason(w, cur, reason);
    ReachIsLeast(Put(w, cur), q, cur.id);
    if Plain(w) && OneReason(w, q, Reach(Put(w, cur), q, cur.id)) { CascadeIsReachability(Put(w, cur), v, q, cur.id, FinalReason(cur, reason)); }
  }
}
