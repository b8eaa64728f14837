/** The books of a supervisor: its declared children, those running, and the plan under way. */
module SupervisorState {
  import opened Types
  import opened RestartWindow

  /** Child ids are only ever compared for equality. */
  type ChildId = nat

  datatype Restart = Permanent | Transient | Temporary

  datatype ChildSpec = ChildSpec(id: ChildId, restart: Restart, shutdown: ShutdownPolicy, isSupervisor: bool)

  datatype RestartPlan = RestartPlan(
    activeShutdown: Option<ChildId>,
    shutdownQueue: seq<ChildId>,
    restartQueue: seq<ChildId>,
    oldChildren: map<ChildId, Option<ActorId>>)

  datatype ShutdownPlan = ShutdownPlan(activeChild: Option<ChildId>, shutdownQueue: seq<ChildId>, finalReason: ExitReason)

  datatype Action = Restarting(restart: RestartPlan) | Stopping(shutdown: ShutdownPlan)

  // ------------------------------------------------------------------ the declared children

  ghost function Ids(specs: seq<ChildSpec>): set<ChildId> { set i | 0 <= i < |specs| :: specs[i].id }

  ghost predicate Distinct(specs: seq<ChildSpec>) {
    forall i, j :: 0 <= i < j < |specs| ==> specs[i].id != specs[j].id
  }

  function Spec(specs: seq<ChildSpec>, id: ChildId): (r: Option<ChildSpec>)
    ensures r.None? <==> id !in Ids(specs)
    ensures r.Some? ==> r.value in specs && r.value.id == id
  {
    if specs == [] then None
    else if specs[0].id == id then Some(specs[0])
    else
      assert forall i :: 0 < i < |specs| ==> specs[i] == specs[1..][i - 1];
      Spec(specs[1..], id)
  }

  /** The ids in `keep`, in declared order. */
  function Declared(specs: seq<ChildSpec>, keep: set<ChildId>): seq<ChildId> {
    if specs == [] then []
    else
      var before := Declared(specs[..|specs| - 1], keep);
      var last := specs[|specs| - 1].id;
      if last in keep then before + [last] else before
  }

  /** The ids in `keep`, in reverse declared order. */
  function Backward(specs: seq<ChildSpec>, keep: set<ChildId>): seq<ChildId> {
    if specs == [] then []
    else
      var rest := Backward(specs[..|specs| - 1], keep);
      var last := specs[|specs| - 1].id;
      if last in keep then [last] + rest else rest
  }

  function Elements(s: seq<ChildId>): set<ChildId> { set i | 0 <= i < |s| :: s[i] }

  function OrderedChildIds(specs: seq<ChildSpec>, requested: seq<ChildId>): seq<ChildId> {
    Declared(specs, Elements(requested))
  }

  function RunningChildrenReverse(specs: seq<ChildSpec>, running: map<ChildId, ActorId>, ids: seq<ChildId>): seq<ChildId> {
    Backward(specs, Elements(ids) * running.Keys)
  }

  function AllRunningReverse(specs: seq<ChildSpec>, running: map<ChildId, ActorId>): seq<ChildId> {
    Backward(specs, running.Keys)
  }

  // ------------------------------------------------------------------ order, without reference to how it is computed

  /** Where `id` is declared first; the number of specs if it is not. */
  ghost function Position(specs: seq<ChildSpec>, id: ChildId): nat {
    if specs == [] then 0 else if specs[0].id == id then 0 else 1 + Position(specs[1..], id)
  }

  /** Declared ids, each declared before the one that precedes it in `s`: no repetition, reverse order. */
  ghost predicate Descending(specs: seq<ChildSpec>, s: seq<ChildId>) {
    && (forall i :: 0 <= i < |s| ==> s[i] in Ids(specs))
    && (forall i, j :: 0 <= i < j < |s| ==> Position(specs, s[i]) > Position(specs, s[j]))
  }

  ghost predicate Ascending(specs: seq<ChildSpec>, s: seq<ChildId>) {
    && (forall i :: 0 <= i < |s| ==> s[i] in Ids(specs))
    && (forall i, j :: 0 <= i < j < |s| ==> Position(specs, s[i]) < Position(specs, s[j]))
  }

  lemma {:induction false} PositionBound(specs: seq<ChildSpec>, id: ChildId)
    ensures Position(specs, id) <= |specs|
    ensures Position(specs, id) < |specs| <==> id in Ids(specs)
    ensures Position(specs, id) < |specs| ==> specs[Position(specs, id)].id == id
    decreases |specs|
  {
    if specs != [] && specs[0].id != id {
      PositionBound(specs[1..], id);
      assert forall i :: 0 < i < |specs| ==> specs[i] == specs[1..][i - 1];
    }
  }

  lemma {:induction false} PositionFront(specs: seq<ChildSpec>, id: ChildId)
    requires specs != []
    ensures var front := specs[..|specs| - 1];
      Position(specs, id) == if id in Ids(front) then Position(front, id)
                             else if id == specs[|specs| - 1].id then |specs| - 1 else |specs|
    decreases |specs|
  {
    var front := specs[..|specs| - 1];
    if |specs| == 1 {
      assert specs[1..] == [];
    } else if specs[0].id == id {
      assert front[0].id == id;
    } else {
      PositionFront(specs[1..], id);
      assert specs[1..][..|specs| - 2] == front[1..];
      assert forall i :: 0 < i < |front| ==> front[i] == front[1..][i - 1];
      assert id in Ids(front) <==> id in Ids(front[1..]);
    }
  }

  lemma LastIsNew(specs: seq<ChildSpec>)
    requires specs != [] && Distinct(specs)
    ensures var front := specs[..|specs| - 1];
      && Distinct(front) && specs[|specs| - 1].id !in Ids(front)
      && Ids(specs) == Ids(front) + {specs[|specs| - 1].id}
  {
    var front := specs[..|specs| - 1];
    assert forall i :: 0 <= i < |front| ==> front[i] == specs[i];
    forall c | c in Ids(specs) ensures c in Ids(front) + {specs[|specs| - 1].id} {
      var i :| 0 <= i < |specs| && specs[i].id == c;
      if i < |front| { assert front[i].id == c; }
    }
  }

  /** Children declared before the last keep their places; the last one's place is new. */
  lemma PlacesKept(specs: seq<ChildSpec>)
    requires specs != [] && Distinct(specs)
    ensures var front := specs[..|specs| - 1];
      forall c :: c in Ids(front) ==> c in Ids(specs) && Position(specs, c) == Position(front, c) < |specs| - 1
    ensures var last := specs[|specs| - 1].id; last in Ids(specs) && Position(specs, last) == |specs| - 1
  {
    LastIsNew(specs);
    hide Distinct, Ids, Position;
    var front := specs[..|specs| - 1];
    forall c | c in Ids(front) ensures c in Ids(specs) && Position(specs, c) == Position(front, c) < |specs| - 1 {
      PositionFront(specs, c);
      PositionBound(front, c);
    }
    PositionFront(specs, specs[|specs| - 1].id);
  }

  /** The last one declared may go in front of what is in reverse order. */
  lemma LastGoesFirst(specs: seq<ChildSpec>, rest: seq<ChildId>)
    requires specs != [] && Distinct(specs) && Descending(specs[..|specs| - 1], rest)
    ensures Descending(specs, rest) && Descending(specs, [specs[|specs| - 1].id] + rest)
  {
    PlacesKept(specs);
    hide Distinct, Ids, Position;
    var front, last := specs[..|specs| - 1], specs[|specs| - 1].id;
    assert forall i :: 0 <= i < |rest| ==> Position(specs, rest[i]) == Position(front, rest[i]) < Position(specs, last);
    var all := [last] + rest;
    assert forall i :: 0 < i < |all| ==> all[i] == rest[i - 1];
  }

  lemma {:induction false} BackwardDescends(specs: seq<ChildSpec>, keep: set<ChildId>)
    requires Distinct(specs)
    ensures Descending(specs, Backward(specs, keep))
    ensures forall c :: c in Backward(specs, keep) <==> c in Ids(specs) && c in keep
    ensures |Backward(specs, keep)| <= |specs|
    decreases |specs|
  {
    hide Distinct, Position;
    if specs != [] {
      hide Descending;
      LastIsNew(specs);
      BackwardDescends(specs[..|specs| - 1], keep);
      LastGoesFirst(specs, Backward(specs[..|specs| - 1], keep));
    }
  }

  lemma {:induction false} DeclaredAscends(specs: seq<ChildSpec>, keep: set<ChildId>)
    requires Distinct(specs)
    ensures Ascending(specs, Declared(specs, keep))
    ensures forall c :: c in Declared(specs, keep) <==> c in Ids(specs) && c in keep
    decreases |specs|
  {
    hide Distinct, Position;
    if specs != [] {
      LastIsNew(specs);
      PlacesKept(specs);
      DeclaredAscends(specs[..|specs| - 1], keep);
    }
  }

  /** Without assuming distinct ids: the collected ids are declared, and no more than the specs. */
  lemma {:induction false} BackwardIsDeclared(specs: seq<ChildSpec>, keep: set<ChildId>)
    ensures |Backward(specs, keep)| <= |specs|
    ensures forall c :: c in Backward(specs, keep) ==> c in Ids(specs)
  {
    if specs != [] {
      var front := specs[..|specs| - 1];
      BackwardIsDeclared(front, keep);
      assert forall i :: 0 <= i < |front| ==> front[i] == specs[i];
      assert Ids(front) <= Ids(specs);
    }
  }

  // ------------------------------------------------------------------ which children a failure restarts

  function AllIds(specs: seq<ChildSpec>): (r: seq<ChildId>)
    ensures |r| == |specs| && forall i :: 0 <= i < |r| ==> r[i] == specs[i].id
  {
    if specs == [] then [] else [specs[0].id] + AllIds(specs[1..])
  }

  function RestartScope(strategy: Strategy, specs: seq<ChildSpec>, failed: ChildId): seq<ChildId> {
    match strategy
    case OneForOne => if Spec(specs, failed).Some? then [failed] else []
    case OneForAll => AllIds(specs)
    case RestForOne => AllIds(specs[FirstIndex(specs, failed)..])
  }

  function FirstIndex(specs: seq<ChildSpec>, id: ChildId): (r: nat)
    ensures r <= |specs| && r == Position(specs, id)
  {
    if specs == [] then 0 else if specs[0].id == id then 0 else 1 + FirstIndex(specs[1..], id)
  }

  /** From some position on, the ids are those declared there or later, in order. */
  lemma IdsFrom(specs: seq<ChildSpec>, start: nat)
    requires Distinct(specs) && start <= |specs|
    ensures Ascending(specs, AllIds(specs[start..]))
    ensures forall c :: c in AllIds(specs[start..]) <==> c in Ids(specs) && start <= Position(specs, c)
  {
    hide Distinct, Ids, Position, AllIds;
    var scope := AllIds(specs[start..]);
    forall i | 0 <= i < |scope| ensures scope[i] in Ids(specs) && Position(specs, scope[i]) == start + i {
      PositionOf(specs, start + i);
    }
    forall c | c in Ids(specs) && start <= Position(specs, c) ensures c in scope {
      PositionBound(specs, c);
      assert specs[start..][Position(specs, c) - start] == specs[Position(specs, c)];
      assert scope[Position(specs, c) - start] == c;
    }
  }

  /** In declared order: the failed child alone, everyone, or the failed child and all declared after it. */
  lemma RestartScopeIsExact(strategy: Strategy, specs: seq<ChildSpec>, failed: ChildId)
    requires Distinct(specs)
    ensures Ascending(specs, RestartScope(strategy, specs, failed))
    ensures forall c :: c in RestartScope(strategy, specs, failed) <==>
      && c in Ids(specs)
      && match strategy
         case OneForOne => c == failed
         case OneForAll => true
         case RestForOne => failed in Ids(specs) && Position(specs, failed) <= Position(specs, c)
  {
    hide Distinct, Ids, Position, AllIds, FirstIndex, Spec;
    assert specs[0..] == specs;
    IdsFrom(specs, 0);
    IdsFrom(specs, FirstIndex(specs, failed));
    PositionBound(specs, failed);
    forall c ensures Position(specs, c) < |specs| <==> c in Ids(specs) { PositionBound(specs, c); }
  }

  lemma PositionOf(specs: seq<ChildSpec>, i: nat)
    requires Distinct(specs) && i < |specs|
    ensures Position(specs, specs[i].id) == i && specs[i].id in Ids(specs)
  {
    PositionBound(specs, specs[i].id);
    assert specs[i].id in Ids(specs);
  }

  // ------------------------------------------------------------------ plans

  /** Position of the first occurrence, or the length. */
  function IndexOf(s: seq<ChildId>, c: ChildId): (r: nat)
    ensures r <= |s| && (r < |s| <==> c in s) && (r < |s| ==> s[r] == c)
  {
    if s == [] then 0 else if s[0] == c then 0 else 1 + IndexOf(s[1..], c)
  }

  function Without(s: seq<ChildId>, c: ChildId): seq<ChildId> {
    var i := IndexOf(s, c);
    if i < |s| then s[..i] + s[i + 1..] else s
  }

  function CompleteShutdown(plan: RestartPlan, c: ChildId): Option<RestartPlan> {
    if plan.activeShutdown == Some(c) then Some(plan.(activeShutdown := None))
    else if c in plan.shutdownQueue then Some(plan.(shutdownQueue := Without(plan.shutdownQueue, c)))
    else None
  }

  function CompleteChild(plan: ShutdownPlan, c: ChildId): ShutdownPlan {
    if plan.activeChild == Some(c) then plan.(activeChild := None)
    else plan.(shutdownQueue := Without(plan.shutdownQueue, c))
  }

  function Head(s: seq<ChildId>): Option<ChildId> { if s == [] then None else Some(s[0]) }

  function Tail(s: seq<ChildId>): seq<ChildId> { if s == [] then [] else s[1..] }

  function NextShutdown(plan: RestartPlan): RestartPlan {
    plan.(activeShutdown := Head(plan.shutdownQueue), shutdownQueue := Tail(plan.shutdownQueue))
  }

  /** The active slot is overwritten, whatever it holds. */
  function NextChild(plan: ShutdownPlan): ShutdownPlan {
    plan.(activeChild := Head(plan.shutdownQueue), shutdownQueue := Tail(plan.shutdownQueue))
  }

  // ------------------------------------------------------------------ invariants

  ghost predicate Inverse(running: map<ChildId, ActorId>, byActor: map<ActorId, ChildId>) {
    && (forall c :: c in running ==> running[c] in byActor && byActor[running[c]] == c)
    && (forall a :: a in byActor ==> byActor[a] in running && running[byActor[a]] == a)
  }

  /** The two maps are inverse, and name only declared children and ids that were handed out. */
  ghost predicate Tidy(specs: seq<ChildSpec>, running: map<ChildId, ActorId>, byActor: map<ActorId, ChildId>, issued: set<ActorId>) {
    && Distinct(specs) && Inverse(running, byActor)
    && running.Keys <= Ids(specs) && byActor.Keys <= issued
  }

  /** The requests made under a plan, the one under way last, followed by those still to come. */
  ghost predicate InOrder(specs: seq<ChildSpec>, asked: seq<ChildId>, active: Option<ChildId>, queue: seq<ChildId>) {
    && Descending(specs, asked + queue)
    && (active.Some? ==> asked != [] && asked[|asked| - 1] == active.value)
  }

  /** The children still running are exactly those the plan has yet to hear of. */
  ghost predicate Covers(running: map<ChildId, ActorId>, active: Option<ChildId>, queue: seq<ChildId>) {
    forall c :: c in running <==> active == Some(c) || c in queue
  }

  /** Who was running when a restart began, and the child whose exit led to it. */
  datatype Standing = Standing(running: map<ChildId, ActorId>, failed: Option<(ChildId, ActorId)>)

  /** The id under which a child ran last. */
  function OldActor(base: Standing, c: ChildId): Option<ActorId> {
    if c in base.running then Some(base.running[c])
    else if base.failed.Some? && base.failed.value.0 == c then Some(base.failed.value.1)
    else None
  }

  /** A restart under way: outside the scope everyone is as before, inside nobody is new. */
  ghost predicate Untouched(base: Standing, running: map<ChildId, ActorId>, scope: seq<ChildId>) {
    && (forall c :: c in running ==> c in base.running && running[c] == base.running[c])
    && (forall c :: c in base.running && c !in scope ==> c in running)
  }

  /** What the plan remembers of the children it replaces. */
  ghost predicate Remembers(previous: map<ChildId, Option<ActorId>>, scope: seq<ChildId>, base: Standing) {
    forall c :: c in scope ==> c in previous && previous[c] == OldActor(base, c)
  }

  ghost predicate RestartFits(specs: seq<ChildSpec>, plan: RestartPlan, asked: seq<ChildId>,
      scope: seq<ChildId>, base: Standing, running: map<ChildId, ActorId>)
  {
    && plan.restartQueue == scope && Ascending(specs, scope) && Remembers(plan.oldChildren, scope, base)
    && InOrder(specs, asked, plan.activeShutdown, plan.shutdownQueue)
    && (forall i :: 0 <= i < |asked + plan.shutdownQueue| ==> (asked + plan.shutdownQueue)[i] in scope)
    && Untouched(base, running, scope) && StillUp(plan, running)
  }

  /** Whoever a restart waits for, or is still to ask, is running. */
  ghost predicate StillUp(plan: RestartPlan, running: map<ChildId, ActorId>) {
    forall c :: plan.activeShutdown == Some(c) || c in plan.shutdownQueue ==> c in running
  }

  /** The restart keeps account of its scope: running are exactly those it waits for or is still to ask. */
  ghost predicate RestartCovers(running: map<ChildId, ActorId>, scope: seq<ChildId>, plan: RestartPlan) {
    forall c :: c in scope ==> (c in running <==> plan.activeShutdown == Some(c) || c in plan.shutdownQueue)
  }

  ghost predicate AllDown(scope: seq<ChildId>, running: map<ChildId, ActorId>) {
    forall c :: c in scope ==> c !in running
  }

  datatype Replacement = Replacement(child: ChildId, previous: Option<ActorId>, actor: ActorId)

  /**
   * A restart that went through. All children in scope were down `before` the first replacement was
   * started; the replacements came up in declared order under ids that had not been `issued`; and
   * everyone else kept running under the same id as at the beginning, `base`.
   */
  ghost predicate Restarted(scope: seq<ChildId>, base: Standing, before: map<ChildId, ActorId>,
      running: map<ChildId, ActorId>, started: seq<Replacement>, issued: set<ActorId>)
  {
    && |started| == |scope|
    && (forall i :: 0 <= i < |scope| ==> scope[i] !in before)
    && (forall i :: 0 <= i < |scope| ==> Replaces(started[i], scope[i], base, running, issued))
    && (forall i, j :: 0 <= i < j < |scope| ==> started[i].actor != started[j].actor)
    && (forall c :: c !in scope ==> (c in running <==> c in base.running))
    && (forall c :: c !in scope && c in base.running ==> running[c] == base.running[c])
  }

  ghost predicate Replaces(r: Replacement, child: ChildId, base: Standing, running: map<ChildId, ActorId>, issued: set<ActorId>) {
    && r.child == child && r.previous == OldActor(base, child)
    && child in running && running[child] == r.actor && r.actor !in issued
  }

  // ------------------------------------------------------------------ how a turn that shuts down leaves the plan

  datatype Turn = Continue | Stop(reason: ExitReason)

  /** The supervisor has stopped, or waits for a running child to end; it asks in reverse declared order. */
  ghost predicate ShuttingDown(turn: Turn, action: Option<Action>, specs: seq<ChildSpec>, asked: seq<ChildId>, running: map<ChildId, ActorId>) {
    match turn
    case Stop(_) => Descending(specs, asked)
    case Continue =>
      && action.Some? && action.value.Stopping? && action.value.shutdown.activeChild.Some?
      && action.value.shutdown.activeChild.value in running
      && InOrder(specs, asked, action.value.shutdown.activeChild, action.value.shutdown.shutdownQueue)
  }

  /** The reason it stops with, now or in the end. */
  ghost predicate HasReason(turn: Turn, action: Option<Action>, reason: ExitReason) {
    match turn
    case Stop(r) => r == reason
    case Continue => action.Some? && action.value.Stopping? && action.value.shutdown.finalReason == reason
  }

  /** Nothing has slipped out of the plan: it stops only with no child running. */
  ghost predicate Controlled(turn: Turn, action: Option<Action>, running: map<ChildId, ActorId>) {
    match turn
    case Stop(_) => running == map[]
    case Continue =>
      action.Some? && action.value.Stopping? && Covers(running, action.value.shutdown.activeChild, action.value.shutdown.shutdownQueue)
  }

  /** All of `plan` is asked or still to be asked, in that order. */
  ghost predicate Exhausts(turn: Turn, action: Option<Action>, asked: seq<ChildId>, plan: seq<ChildId>) {
    match turn
    case Stop(_) => asked == plan
    case Continue => action.Some? && action.value.Stopping? && asked + action.value.shutdown.shutdownQueue == plan
  }

  /** Only children in `planned` may be forgotten, and only they may still be in the plan. */
  ghost predicate Confined(turn: Turn, action: Option<Action>, before: map<ChildId, ActorId>, running: map<ChildId, ActorId>,
      planned: seq<ChildId>)
  {
    && (forall c :: c in before && c !in planned ==> c in running && running[c] == before[c])
    && (turn.Continue? ==>
          action.Some? && action.value.Stopping?
          && (action.value.shutdown.activeChild.Some? ==> action.value.shutdown.activeChild.value in planned)
          && (forall c :: c in action.value.shutdown.shutdownQueue ==> c in planned))
  }

  /** Someone is running who is in no plan. */
  ghost predicate Loses(turn: Turn, action: Option<Action>, running: map<ChildId, ActorId>) {
    match turn
    case Stop(_) => running != map[]
    case Continue =>
      && action.Some? && action.value.Stopping?
      && exists c :: c in running && action.value.shutdown.activeChild != Some(c) && c !in action.value.shutdown.shutdownQueue
  }

  lemma LosesIsUncontrolled(turn: Turn, action: Option<Action>, running: map<ChildId, ActorId>)
    ensures Loses(turn, action, running) ==> !Controlled(turn, action, running)
  {
  }

  /** A child that is running but not in the plan stays so: the turn is out of control. */
  lemma LostChild(turn: Turn, action: Option<Action>, before: map<ChildId, ActorId>, running: map<ChildId, ActorId>,
      planned: seq<ChildId>, c: ChildId)
    requires Confined(turn, action, before, running, planned) && c in before && c !in planned
    ensures Loses(turn, action, running) && !Controlled(turn, action, running)
  {
    LosesIsUncontrolled(turn, action, running);
  }

  /** Of the children asked so far, only the active one can still be running. */
  lemma AtMostOneOutstanding(specs: seq<ChildSpec>, asked: seq<ChildId>, active: Option<ChildId>, queue: seq<ChildId>,
      running: map<ChildId, ActorId>)
    requires InOrder(specs, asked, active, queue) && Covers(running, active, queue)
    ensures forall c :: c in asked && c in running ==> active == Some(c)
  {
    DescendingParts(specs, asked, queue);
    hide Descending;
  }

  // ------------------------------------------------------------------ what the context is asked

  function PolicyOf(specs: seq<ChildSpec>, c: ChildId): ShutdownPolicy {
    if Spec(specs, c).Some? then Spec(specs, c).value.shutdown else Infinity
  }

  /** One request for each child in order: the actor it runs as, under the policy of its spec. */
  ghost predicate Matches(specs: seq<ChildSpec>, origin: map<ChildId, ActorId>, asked: seq<ChildId>, requests: seq<(ActorId, ShutdownPolicy)>) {
    && |requests| == |asked|
    && forall i :: 0 <= i < |asked| ==> asked[i] in origin && requests[i] == (origin[asked[i]], PolicyOf(specs, asked[i]))
  }

  /** One start for each child in order, with its spec. */
  ghost predicate StartsMatch(specs: seq<ChildSpec>, children: seq<ChildId>, starts: seq<ChildSpec>) {
    && |starts| == |children|
    && forall i :: 0 <= i < |children| ==> children[i] in Ids(specs) && starts[i] == SpecOf(specs, children[i])
  }

  function SpecOf(specs: seq<ChildSpec>, c: ChildId): ChildSpec
    requires c in Ids(specs)
  {
    Spec(specs, c).value
  }

  lemma OneMoreStart(specs: seq<ChildSpec>, children: seq<ChildId>, starts: seq<ChildSpec>, since: nat, child: ChildId)
    requires since <= |starts| && StartsMatch(specs, children, starts[since..]) && child in Ids(specs)
    ensures StartsMatch(specs, children + [child], (starts + [SpecOf(specs, child)])[since..])
  {
    hide Ids, SpecOf;
    assert (starts + [SpecOf(specs, child)])[since..] == starts[since..] + [SpecOf(specs, child)];
  }

  lemma NothingAskedYet(specs: seq<ChildSpec>, running: map<ChildId, ActorId>, requests: seq<(ActorId, ShutdownPolicy)>)
    ensures Matches(specs, running, [], requests[|requests|..]) && Within(running, running)
  {
  }

  lemma WithinShrinks(running: map<ChildId, ActorId>, origin: map<ChildId, ActorId>, c: ChildId)
    requires Within(running, origin)
    ensures Within(running - {c}, origin)
  {
  }

  ghost predicate Within(running: map<ChildId, ActorId>, origin: map<ChildId, ActorId>) {
    forall c :: c in running ==> c in origin && origin[c] == running[c]
  }

  lemma OneMoreAsked(specs: seq<ChildSpec>, origin: map<ChildId, ActorId>, asked: seq<ChildId>, requests: seq<(ActorId, ShutdownPolicy)>,
      since: nat, running: map<ChildId, ActorId>, child: ChildId)
    requires since <= |requests| && Matches(specs, origin, asked, requests[since..])
    requires Within(running, origin) && child in running
    ensures var later := requests + [(running[child], PolicyOf(specs, child))];
      Matches(specs, origin, asked + [child], later[since..])
  {
    hide PolicyOf;
    var later := requests + [(running[child], PolicyOf(specs, child))];
    assert later[since..] == requests[since..] + [(running[child], PolicyOf(specs, child))];
  }

  // ------------------------------------------------------------------ small steps

  /** Leaving one out leaves the rest in order, and the one left out is nowhere else. */
  lemma DescendingWithout(specs: seq<ChildSpec>, u: seq<ChildId>, i: nat)
    requires Descending(specs, u) && i < |u|
    ensures Descending(specs, u[..i] + u[i + 1..]) && u[i] !in u[..i] + u[i + 1..]
  {
    hide Position, Ids;
    var v := u[..i] + u[i + 1..];
    assert forall k :: 0 <= k < |v| ==> v[k] == u[if k < i then k else k + 1];
  }

  lemma DescendingParts(specs: seq<ChildSpec>, s: seq<ChildId>, t: seq<ChildId>)
    requires Descending(specs, s + t)
    ensures Descending(specs, s)
    ensures forall i :: 0 <= i < |t| ==> Descending(specs, s + (t[..i] + t[i + 1..])) && t[i] !in s && t[i] !in t[..i] + t[i + 1..]
    ensures t != [] ==> Descending(specs, s + [t[0]] + t[1..]) && t[0] in Ids(specs)
  {
    hide Position, Ids;
    var u := s + t;
    assert forall i :: 0 <= i < |s| ==> s[i] == u[i];
    if t != [] { assert s + [t[0]] + t[1..] == u && u[|s|] == t[0]; }
    assert Descending(specs, s);
    hide Descending;
    forall i | 0 <= i < |t|
      ensures Descending(specs, s + (t[..i] + t[i + 1..])) && t[i] !in s && t[i] !in t[..i] + t[i + 1..]
    {
      DescendingWithout(specs, u, |s| + i);
      assert u[|s| + i] == t[i] && u[..|s| + i] + u[|s| + i + 1..] == s + (t[..i] + t[i + 1..]);
    }
  }

  lemma WithoutKeepsDescending(specs: seq<ChildSpec>, s: seq<ChildId>, t: seq<ChildId>, c: ChildId)
    requires Descending(specs, s + t)
    ensures Descending(specs, s + Without(t, c))
    ensures forall d :: d in Without(t, c) <==> d in t && d != c
  {
    DescendingParts(specs, s, t);
    hide Descending;
    var i := IndexOf(t, c);
    if i < |t| {
      assert t[i] == c;
      forall d | d in t && d != c ensures d in Without(t, c) {
        var k :| 0 <= k < |t| && t[k] == d;
        assert d == if k < i then t[..i][k] else t[i + 1..][k - i - 1];
      }
    }
  }

  lemma ForgetKeepsTidy(specs: seq<ChildSpec>, running: map<ChildId, ActorId>, byActor: map<ActorId, ChildId>, issued: set<ActorId>, a: ActorId)
    requires Tidy(specs, running, byActor, issued) && a in byActor
    ensures Tidy(specs, running - {byActor[a]}, byActor - {a}, issued)
  {
  }

  lemma RememberKeepsTidy(specs: seq<ChildSpec>, running: map<ChildId, ActorId>, byActor: map<ActorId, ChildId>,
      issued: set<ActorId>, later: set<ActorId>, c: ChildId, a: ActorId)
    requires Tidy(specs, running, byActor, issued) && c in Ids(specs) && c !in running && a !in issued && issued + {a} <= later
    ensures Tidy(specs, running[c := a], byActor[a := c], later)
  {
  }

  lemma TidyGrows(specs: seq<ChildSpec>, running: map<ChildId, ActorId>, byActor: map<ActorId, ChildId>, issued: set<ActorId>, later: set<ActorId>)
    requires Tidy(specs, running, byActor, issued) && issued <= later
    ensures Tidy(specs, running, byActor, later)
  {
  }

  /** A new plan asks for everyone who is running, last declared first. */
  lemma BeginsInOrder(specs: seq<ChildSpec>, running: map<ChildId, ActorId>, byActor: map<ActorId, ChildId>, issued: set<ActorId>)
    requires Tidy(specs, running, byActor, issued)
    ensures var queue := AllRunningReverse(specs, running);
      && Descending(specs, [] + queue) && Covers(running, None, queue)
      && (queue != [] ==> Descending(specs, [] + [queue[0]] + queue[1..]) && Covers(running, Some(queue[0]), queue[1..]))
      && (queue == [] ==> running == map[])
  {
    hide Distinct, Ids, Position, Inverse, Backward, Descending;
    var queue := AllRunningReverse(specs, running);
    BackwardDescends(specs, running.Keys);
    assert [] + queue == queue;
    NextFollows(specs, [], queue, running);
  }

  lemma {:induction false} WithoutIsShorter(s: seq<ChildId>, c: ChildId)
    ensures |Without(s, c)| <= |s| && forall d :: d in Without(s, c) ==> d in s
  {
  }

  lemma ConfinedWider(turn: Turn, action: Option<Action>, before: map<ChildId, ActorId>, now: map<ChildId, ActorId>,
      after: map<ChildId, ActorId>, planned: seq<ChildId>, c: ChildId)
    requires Confined(turn, action, now, after, planned)
    requires now == before || now == before - {c}
    ensures Confined(turn, action, before, after, [c] + planned)
  {
  }

  /** The child that was asked is not asked again, and the rest follows on. */
  lemma AskedOnce(specs: seq<ChildSpec>, asked: seq<ChildId>, child: ChildId, queue: seq<ChildId>)
    requires Descending(specs, asked + [child] + queue)
    ensures child in Ids(specs) && child !in queue && Without(queue, child) == queue
    ensures Descending(specs, asked + queue) && InOrder(specs, asked + [child], Some(child), queue)
  {
    hide Descending, Ids, Position;
    var t := [child] + queue;
    assert asked + [child] + queue == asked + t && asked + t == asked + [child] + queue;
    DescendingParts(specs, asked, t);
    assert t[0] == child && t[1..] == queue && t[..0] + t[1..] == queue;
    assert IndexOf(queue, child) == |queue|;
  }

  lemma NextFollows(specs: seq<ChildSpec>, asked: seq<ChildId>, rest: seq<ChildId>, running: map<ChildId, ActorId>)
    requires Descending(specs, asked + rest)
    ensures rest != [] ==> Descending(specs, asked + [rest[0]] + rest[1..]) && rest == [rest[0]] + rest[1..]
    ensures rest != [] && Covers(running, None, rest) ==> Covers(running, Some(rest[0]), rest[1..])
    ensures rest == [] ==> Descending(specs, asked)
    ensures rest == [] && Covers(running, None, rest) ==> running == map[]
  {
    DescendingParts(specs, asked, rest);
    if rest != [] {
      assert forall c :: c in rest <==> c == rest[0] || c in rest[1..];
    } else {
      assert asked + rest == asked;
      if Covers(running, None, rest) { assert forall c :: c !in running; }
    }
  }

  /** The active child is gone; the others are still to be asked. */
  lemma ActiveGone(running: map<ChildId, ActorId>, child: ChildId, queue: seq<ChildId>)
    requires Covers(running, Some(child), queue) && child !in queue
    ensures Covers(running - {child}, None, queue)
    ensures child in running
  {
  }

  /** The first exits are those of the children in `queue`, one after the other. */
  ghost predicate ArriveInOrder(signals: seq<(ActorId, ExitReason)>, queue: seq<ChildId>, running: map<ChildId, ActorId>, count: nat) {
    && count <= |signals| && count <= |queue|
    && forall i :: 0 <= i < count ==> queue[i] in running && signals[i].0 == running[queue[i]]
  }

  /** What the exit of `c` does to a shutdown plan that was in order. */
  lemma ExitDuringShutdown(specs: seq<ChildSpec>, asked: seq<ChildId>, plan: ShutdownPlan, running: map<ChildId, ActorId>, c: ChildId)
    requires InOrder(specs, asked, plan.activeChild, plan.shutdownQueue) && plan.activeChild.Some? && c in running
    ensures var rest := CompleteChild(plan, c).shutdownQueue;
      && Descending(specs, asked + rest)
      && (forall d :: d in rest <==> d in plan.shutdownQueue && (plan.activeChild == Some(c) || d != c))
      && (plan.activeChild == Some(c) && Covers(running, plan.activeChild, plan.shutdownQueue) ==> Covers(running - {c}, None, rest))
      && plan.activeChild.value !in rest
  {
    WithoutKeepsDescending(specs, asked, plan.shutdownQueue, c);
    DescendingParts(specs, asked, plan.shutdownQueue);
    hide Descending, Without;
    var a := plan.activeChild.value;
    assert a in asked;
    assert a !in plan.shutdownQueue;
  }

  lemma PlannedIsInScope(asked: seq<ChildId>, active: Option<ChildId>, queue: seq<ChildId>, scope: seq<ChildId>)
    requires forall i :: 0 <= i < |asked + queue| ==> (asked + queue)[i] in scope
    requires active.Some? ==> asked != [] && asked[|asked| - 1] == active.value
    ensures forall c :: c in asked || c in queue || active == Some(c) ==> c in scope
    ensures forall s: seq<ChildId> :: (forall c :: c in s ==> c in queue) ==> forall i :: 0 <= i < |asked + s| ==> (asked + s)[i] in scope
  {
    var all := asked + queue;
    forall c | c in asked || c in queue ensures c in scope {
      assert all[if c in asked then IndexOf(asked, c) else |asked| + IndexOf(queue, c)] == c;
    }
    forall s: seq<ChildId> | forall c :: c in s ==> c in queue
      ensures forall i :: 0 <= i < |asked + s| ==> (asked + s)[i] in scope
    {
      forall i | 0 <= i < |asked + s| ensures (asked + s)[i] in scope {
        assert (asked + s)[i] in if i < |asked| then asked else s;
      }
    }
  }

  /** The exit of a child the plan knows leaves a plan that fits, and one that keeps account iff the child was the active one. */
  lemma ExitDuringRestart(specs: seq<ChildSpec>, asked: seq<ChildId>, plan: RestartPlan, scope: seq<ChildId>,
      base: Standing, running: map<ChildId, ActorId>, c: ChildId)
    requires RestartFits(specs, plan, asked, scope, base, running) && CompleteShutdown(plan, c).Some?
    ensures var later := CompleteShutdown(plan, c).value.(activeShutdown := None);
      && RestartFits(specs, later, asked, scope, base, running - {c})
      && (plan.activeShutdown.Some? ==>
            (RestartCovers(running - {c}, scope, later) <==> RestartCovers(running, scope, plan) && plan.activeShutdown == Some(c)))
  {
    hide Descending, Ascending, Without, Remembers;
    WithoutKeepsDescending(specs, asked, plan.shutdownQueue, c);
    DescendingParts(specs, asked, plan.shutdownQueue);
    PlannedIsInScope(asked, plan.activeShutdown, plan.shutdownQueue, scope);
    if plan.activeShutdown.Some? {
      var a := plan.activeShutdown.value;
      assert a in asked && a in scope && a in running;
      assert a !in plan.shutdownQueue;
    }
  }

  /** A queued child's exit empties the active slot, or gives it away, while its holder is still up. */
  lemma QueuedExitLosesTheActiveChild(specs: seq<ChildSpec>, asked: seq<ChildId>, plan: ShutdownPlan, running: map<ChildId, ActorId>, c: ChildId)
    requires InOrder(specs, asked, plan.activeChild, plan.shutdownQueue) && Covers(running, plan.activeChild, plan.shutdownQueue)
    requires plan.activeChild.Some? && c in plan.shutdownQueue
    ensures var a, next := plan.activeChild.value, NextChild(CompleteChild(plan, c));
      && a in running - {c} && next.activeChild != Some(a) && a !in next.shutdownQueue
      && !Covers(running - {c}, next.activeChild, next.shutdownQueue)
  {
    ExitDuringShutdown(specs, asked, plan, running, c);
    DescendingParts(specs, asked, plan.shutdownQueue);
    hide Descending, Without;
    assert plan.activeChild.value in asked;
  }

  lemma RestartedEarlier(scope: seq<ChildId>, base: Standing, before: map<ChildId, ActorId>,
      running: map<ChildId, ActorId>, started: seq<Replacement>, earlier: set<ActorId>, issued: set<ActorId>)
    requires Restarted(scope, base, before, running, started, issued) && earlier <= issued
    ensures Restarted(scope, base, before, running, started, earlier)
  {
    forall i | 0 <= i < |scope| ensures Replaces(started[i], scope[i], base, running, earlier) {
      assert Replaces(started[i], scope[i], base, running, issued);
    }
  }

  lemma SameIdsKeepTidy(specs: seq<ChildSpec>, later: seq<ChildSpec>, running: map<ChildId, ActorId>, byActor: map<ActorId, ChildId>, issued: set<ActorId>)
    requires Tidy(specs, running, byActor, issued) && AllIds(later) == AllIds(specs)
    ensures Tidy(later, running, byActor, issued)
  {
    assert |later| == |specs| && forall i :: 0 <= i < |specs| ==> later[i].id == specs[i].id by {
      forall i | 0 <= i < |specs| ensures later[i].id == specs[i].id { assert AllIds(later)[i] == AllIds(specs)[i]; }
    }
    assert Ids(specs) <= Ids(later) && Ids(later) <= Ids(specs);
  }
}
