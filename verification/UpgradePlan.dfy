/** Planning the upgrade of a supervision tree: who is suspended, upgraded and resumed, and in which order. */
module UpgradePlans {
  import opened Types

  /** A declared child: whether its spec says it is a supervisor, and the actor running it, if any. */
  datatype Slot = Slot(isSupervisor: bool, actor: Option<ActorId>)

  /** A live actor; `slots` are its children if it is a supervisor. */
  datatype Node = Node(suspended: bool, slots: Option<seq<Slot>>)

  type Forest = map<ActorId, Node>

  datatype Plan = Plan(suspendOrder: seq<ActorId>, upgradeOrder: seq<ActorId>, resumeTargets: seq<ActorId>)

  // ------------------------------------------------------------------ snapshots without a cycle

  /** Any ranking will do: the number of spawns before an actor's own is one. */
  datatype Order = Order(rank: ActorId -> nat, limit: nat)

  /** `c` runs in the `i`th slot of `a`. */
  predicate Owns(f: Forest, a: ActorId, i: int, c: ActorId) {
    a in f && f[a].slots.Some? && 0 <= i < |f[a].slots.value| && f[a].slots.value[i].actor == Some(c)
  }

  ghost predicate YoungerThan(f: Forest, order: Order, slots: seq<Slot>, floor: nat) {
    forall i :: 0 <= i < |slots| && slots[i].actor.Some? && slots[i].actor.value in f ==> floor < order.rank(slots[i].actor.value)
  }

  /** No actor is below itself: everyone ranks below the supervisors it runs under. */
  ghost predicate WellFormed(f: Forest, order: Order) {
    && (forall a :: a in f ==> order.rank(a) < order.limit)
    && (forall a :: a in f && f[a].slots.Some? ==> YoungerThan(f, order, f[a].slots.value, order.rank(a)))
  }

  ghost predicate OneSlotEach(f: Forest) {
    forall a, i, b, j, c :: Owns(f, a, i, c) && Owns(f, b, j, c) ==> a == b && i == j
  }

  // ------------------------------------------------------------------ the two orders

  /** The subtree of `a`, each actor before its children. */
  ghost function Preorder(f: Forest, order: Order, a: ActorId): seq<ActorId>
    requires WellFormed(f, order) && a in f
    decreases order.limit - order.rank(a), 1, 0
  {
    if f[a].slots.None? then [a] else [a] + PreSlots(f, order, f[a].slots.value, order.rank(a))
  }

  ghost function PreSlots(f: Forest, order: Order, slots: seq<Slot>, floor: nat): seq<ActorId>
    requires WellFormed(f, order) && YoungerThan(f, order, slots, floor) && floor < order.limit
    decreases order.limit - floor, 0, |slots|
  {
    if slots == [] then []
    else
      var last := slots[|slots| - 1];
      PreSlots(f, order, slots[..|slots| - 1], floor)
      + (if last.actor.Some? && last.actor.value in f then Preorder(f, order, last.actor.value) else [])
  }

  /** The subtree of `a`, each actor after its children. */
  ghost function Postorder(f: Forest, order: Order, a: ActorId): seq<ActorId>
    requires WellFormed(f, order) && a in f
    decreases order.limit - order.rank(a), 1, 0
  {
    if f[a].slots.None? then [a] else PostSlots(f, order, f[a].slots.value, order.rank(a)) + [a]
  }

  ghost function PostSlots(f: Forest, order: Order, slots: seq<Slot>, floor: nat): seq<ActorId>
    requires WellFormed(f, order) && YoungerThan(f, order, slots, floor) && floor < order.limit
    decreases order.limit - floor, 0, |slots|
  {
    if slots == [] then []
    else
      var last := slots[|slots| - 1];
      PostSlots(f, order, slots[..|slots| - 1], floor)
      + (if last.actor.Some? && last.actor.value in f then Postorder(f, order, last.actor.value) else [])
  }

  /** The running children are live, and their specs say rightly whether they are supervisors. */
  ghost predicate Matches(f: Forest, order: Order, a: ActorId)
    requires WellFormed(f, order) && a in f
    decreases order.limit - order.rank(a), 1, 0
  {
    f[a].slots.Some? ==> SlotsMatch(f, order, f[a].slots.value, order.rank(a))
  }

  ghost predicate SlotsMatch(f: Forest, order: Order, slots: seq<Slot>, floor: nat)
    requires WellFormed(f, order) && YoungerThan(f, order, slots, floor) && floor < order.limit
    decreases order.limit - floor, 0, |slots|
  {
    slots == []
    || (SlotsMatch(f, order, slots[..|slots| - 1], floor) && SlotMatches(f, order, slots[|slots| - 1], floor))
  }

  ghost predicate SlotMatches(f: Forest, order: Order, slot: Slot, floor: nat)
    requires WellFormed(f, order) && YoungerThan(f, order, [slot], floor) && floor < order.limit
    decreases order.limit - floor, 0, 0
  {
    slot.actor.Some? ==>
      var c := slot.actor.value;
      c in f && (slot.isSupervisor <==> f[c].slots.Some?)
      && (assert [slot][0] == slot; Matches(f, order, c))
  }

  function Unsuspended(f: Forest, s: seq<ActorId>): seq<ActorId> {
    if s == [] then []
    else
      var before := Unsuspended(f, s[..|s| - 1]);
      var last := s[|s| - 1];
      if last in f && !f[last].suspended then before + [last] else before
  }

  lemma {:induction false} UnsuspendedConcat(f: Forest, s: seq<ActorId>, t: seq<ActorId>)
    ensures Unsuspended(f, s + t) == Unsuspended(f, s) + Unsuspended(f, t)
  {
    if t == [] {
      assert s + t == s;
    } else {
      UnsuspendedConcat(f, s, t[..|t| - 1]);
      assert (s + t)[..|s + t| - 1] == s + t[..|t| - 1];
    }
  }

  // ------------------------------------------------------------------ planning

  ghost function Extended(f: Forest, plan: Plan, pre: seq<ActorId>, post: seq<ActorId>): Plan {
    Plan(plan.suspendOrder + pre, plan.upgradeOrder + post, plan.resumeTargets + Unsuspended(f, pre))
  }

  ghost predicate Upgradable(f: Forest, order: Order, a: ActorId)
    requires WellFormed(f, order)
  {
    a in f && f[a].slots.Some? && Matches(f, order, a)
  }

  function Visit(f: Forest, plan: Plan, a: ActorId): Plan
    requires a in f
  {
    Plan(plan.suspendOrder + [a], plan.upgradeOrder, if f[a].suspended then plan.resumeTargets else plan.resumeTargets + [a])
  }

  /** Walks the tree below a supervisor; fails exactly when some spec and its running child disagree. */
  method CollectTree(f: Forest, ghost order: Order, actor: ActorId, plan: Plan) returns (result: Option<Plan>)
    requires WellFormed(f, order)
    ensures result.Some? <==> Upgradable(f, order, actor)
    ensures result.Some? ==> result.value == Extended(f, plan, Preorder(f, order, actor), Postorder(f, order, actor))
    decreases if actor in f then order.limit - order.rank(actor) else 0
  {
    hide WellFormed, Unsuspended;
    if actor !in f {
      return None;
    }
    if f[actor].slots.None? {
      return None;
    }
    var slots := f[actor].slots.value;
    BornInLimit(f, order, actor);
    ghost var floor := order.rank(actor);
    var sofar := Visit(f, plan, actor);
    VisitExtends(f, plan, actor);
    assert slots[..0] == [] && [actor] + [] == [actor];
    for i := 0 to |slots|
      invariant YoungerThan(f, order, slots[..i], floor) && SlotsMatch(f, order, slots[..i], floor)
      invariant sofar == Extended(f, plan, [actor] + PreSlots(f, order, slots[..i], floor), PostSlots(f, order, slots[..i], floor))
    {
      NextSlot(f, order, slots, i, floor);
      if slots[i].actor.Some? {
        var child := slots[i].actor.value;
        if slots[i].isSupervisor != (child in f && f[child].slots.Some?) || child !in f {
          return None;
        }
        ghost var before := sofar;
        if slots[i].isSupervisor {
          var below := CollectTree(f, order, child, sofar);
          if below.None? {
            return None;
          }
          sofar := below.value;
        } else {
          VisitExtends(f, sofar, child);
          sofar := Visit(f, sofar, child);
          sofar := sofar.(upgradeOrder := sofar.upgradeOrder + [child]);
        }
        ExtendedTwice(f, plan, [actor] + PreSlots(f, order, slots[..i], floor), PostSlots(f, order, slots[..i], floor),
                      Preorder(f, order, child), Postorder(f, order, child));
      }
      OneMoreSlot(f, order, slots, i, floor, actor);
    }
    assert slots[..|slots|] == slots;
    sofar := sofar.(upgradeOrder := sofar.upgradeOrder + [actor]);
    return Some(sofar);
  }

  lemma BornInLimit(f: Forest, order: Order, a: ActorId)
    requires WellFormed(f, order) && a in f
    ensures order.rank(a) < order.limit && (f[a].slots.Some? ==> YoungerThan(f, order, f[a].slots.value, order.rank(a)))
  {
  }

  lemma VisitExtends(f: Forest, plan: Plan, a: ActorId)
    requires a in f
    ensures Visit(f, plan, a) == Extended(f, plan, [a], [])
  {
    assert [a][..0] == [] && Unsuspended(f, [a][..0]) == [] && [a][0] == a;
    assert Unsuspended(f, [a]) == if f[a].suspended then [] else [a];
    assert plan.upgradeOrder + [] == plan.upgradeOrder && plan.resumeTargets + [] == plan.resumeTargets;
  }

  lemma ExtendedTwice(f: Forest, plan: Plan, pre: seq<ActorId>, post: seq<ActorId>, pre2: seq<ActorId>, post2: seq<ActorId>)
    ensures Extended(f, Extended(f, plan, pre, post), pre2, post2) == Extended(f, plan, pre + pre2, post + post2)
  {
    UnsuspendedConcat(f, pre, pre2);
  }

  /** If all slots match, so do those before any point and the one at it. */
  lemma {:induction false} NextSlot(f: Forest, order: Order, slots: seq<Slot>, i: nat, floor: nat)
    requires WellFormed(f, order) && YoungerThan(f, order, slots, floor) && floor < order.limit && i < |slots|
    ensures YoungerThan(f, order, slots[..i], floor) && YoungerThan(f, order, slots[..i + 1], floor) && YoungerThan(f, order, [slots[i]], floor)
    ensures SlotsMatch(f, order, slots, floor) ==> SlotMatches(f, order, slots[i], floor)
    ensures slots[i].actor.Some? && slots[i].actor.value in f ==> floor < order.rank(slots[i].actor.value) < order.limit
    decreases |slots|
  {
    hide Matches;
    assert YoungerThan(f, order, slots[..i], floor) && YoungerThan(f, order, slots[..i + 1], floor);
    if i < |slots| - 1 {
      NextSlot(f, order, slots[..|slots| - 1], i, floor);
    }
  }

  lemma OneMoreSlot(f: Forest, order: Order, slots: seq<Slot>, i: nat, floor: nat, a: ActorId)
    requires WellFormed(f, order) && floor < order.limit && i < |slots|
    requires YoungerThan(f, order, slots[..i], floor) && YoungerThan(f, order, slots[..i + 1], floor)
    ensures YoungerThan(f, order, [slots[i]], floor) &&
      (SlotsMatch(f, order, slots[..i + 1], floor)
       <==> SlotsMatch(f, order, slots[..i], floor) && SlotMatches(f, order, slots[i], floor))
    ensures slots[i].actor.Some? && slots[i].actor.value in f ==>
      var c := slots[i].actor.value;
      && PreSlots(f, order, slots[..i + 1], floor) == PreSlots(f, order, slots[..i], floor) + Preorder(f, order, c)
      && PostSlots(f, order, slots[..i + 1], floor) == PostSlots(f, order, slots[..i], floor) + Postorder(f, order, c)
      && [a] + PreSlots(f, order, slots[..i + 1], floor) == [a] + PreSlots(f, order, slots[..i], floor) + Preorder(f, order, c)
    ensures !(slots[i].actor.Some? && slots[i].actor.value in f) ==>
      && PreSlots(f, order, slots[..i + 1], floor) == PreSlots(f, order, slots[..i], floor)
      && PostSlots(f, order, slots[..i + 1], floor) == PostSlots(f, order, slots[..i], floor)
  {
    hide Preorder, Postorder, SlotMatches, WellFormed;
    assert slots[..i + 1][..i] == slots[..i];
    assert slots[..i + 1][i] == slots[i];
  }

  // ------------------------------------------------------------------ what the two orders are

  lemma {:induction false} SlotInside(f: Forest, order: Order, slots: seq<Slot>, floor: nat, i: nat) returns (before: seq<ActorId>, after: seq<ActorId>)
    requires WellFormed(f, order) && YoungerThan(f, order, slots, floor) && floor < order.limit
    requires i < |slots| && slots[i].actor.Some? && slots[i].actor.value in f
    ensures PreSlots(f, order, slots, floor) == before + Preorder(f, order, slots[i].actor.value) + after
    decreases |slots|
  {
    hide Preorder, WellFormed;
    var front := slots[..|slots| - 1];
    var last := slots[|slots| - 1];
    if i == |slots| - 1 {
      return PreSlots(f, order, front, floor), [];
    }
    var more;
    before, more := SlotInside(f, order, front, floor, i);
    after := more + if last.actor.Some? && last.actor.value in f then Preorder(f, order, last.actor.value) else [];
  }

  /** Whoever is in the collected slots is in the subtree of one of them. */
  lemma {:induction false} InSomeSlot(f: Forest, order: Order, slots: seq<Slot>, floor: nat, x: ActorId) returns (i: nat)
    requires WellFormed(f, order) && YoungerThan(f, order, slots, floor) && floor < order.limit
    requires x in PreSlots(f, order, slots, floor)
    ensures i < |slots| && slots[i].actor.Some? && slots[i].actor.value in f
    ensures x in Preorder(f, order, slots[i].actor.value)
    decreases |slots|
  {
    hide Preorder, WellFormed;
    var front := slots[..|slots| - 1];
    var last := slots[|slots| - 1];
    if last.actor.Some? && last.actor.value in f && x in Preorder(f, order, last.actor.value) {
      return |slots| - 1;
    }
    i := InSomeSlot(f, order, front, floor, x);
  }

  /** Both orders list the same actors. */
  lemma {:induction false} SameMembers(f: Forest, order: Order, a: ActorId)
    requires WellFormed(f, order) && a in f
    ensures forall x :: x in Preorder(f, order, a) <==> x in Postorder(f, order, a)
    decreases order.limit - order.rank(a), 1, 0
  {
    if f[a].slots.Some? { SameMembersOfSlots(f, order, f[a].slots.value, order.rank(a)); }
  }

  lemma {:induction false} SameMembersOfSlots(f: Forest, order: Order, slots: seq<Slot>, floor: nat)
    requires WellFormed(f, order) && YoungerThan(f, order, slots, floor) && floor < order.limit
    ensures forall x :: x in PreSlots(f, order, slots, floor) <==> x in PostSlots(f, order, slots, floor)
    decreases order.limit - floor, 0, |slots|
  {
    hide Preorder, Postorder;
    if slots != [] {
      var last := slots[|slots| - 1];
      SameMembersOfSlots(f, order, slots[..|slots| - 1], floor);
      if last.actor.Some? && last.actor.value in f { SameMembers(f, order, last.actor.value); }
    }
  }

  /** The root is the oldest of its subtree. */
  lemma {:induction false} RootIsOldest(f: Forest, order: Order, a: ActorId, x: ActorId)
    requires WellFormed(f, order) && a in f && x in Preorder(f, order, a)
    ensures x in f && (x == a || order.rank(a) < order.rank(x))
    decreases order.limit - order.rank(a)
  {
    if x != a {
      var i := InSomeSlot(f, order, f[a].slots.value, order.rank(a), x);
      RootIsOldest(f, order, f[a].slots.value[i].actor.value, x);
    }
  }

  /** Everyone but the root runs in a slot of someone in the same subtree. */
  lemma {:induction false} OwnerInside(f: Forest, order: Order, a: ActorId, x: ActorId) returns (p: ActorId, k: nat)
    requires WellFormed(f, order) && a in f && x in Preorder(f, order, a) && x != a
    ensures Owns(f, p, k, x) && p in Preorder(f, order, a)
    decreases order.limit - order.rank(a)
  {
    var slots := f[a].slots.value;
    var i := InSomeSlot(f, order, slots, order.rank(a), x);
    var c := slots[i].actor.value;
    if x == c {
      return a, i;
    }
    p, k := OwnerInside(f, order, c, x);
    ChildInside(f, order, a, i, c, p);
  }

  lemma ChildInside(f: Forest, order: Order, a: ActorId, i: nat, c: ActorId, x: ActorId)
    requires WellFormed(f, order) && Owns(f, a, i, c) && c in f && x in Preorder(f, order, c)
    ensures x in Preorder(f, order, a)
  {
    var before, after := SlotInside(f, order, f[a].slots.value, order.rank(a), i);
  }

  lemma RootFirst(f: Forest, order: Order, a: ActorId)
    requires WellFormed(f, order) && a in f
    ensures a in Preorder(f, order, a)
  {
    assert Preorder(f, order, a)[0] == a;
  }

  ghost predicate ChildClosed(f: Forest, s: set<ActorId>) {
    forall p, k, x :: p in s && Owns(f, p, k, x) && x in f ==> x in s
  }

  /** It is the least such set: nobody is in the plan who is not below the root. */
  lemma {:induction false} SubtreeIsLeast(f: Forest, order: Order, a: ActorId, s: set<ActorId>, x: ActorId)
    requires WellFormed(f, order) && a in f && a in s && ChildClosed(f, s) && x in Preorder(f, order, a)
    ensures x in s
    decreases order.limit - order.rank(a)
  {
    if x != a {
      var i := InSomeSlot(f, order, f[a].slots.value, order.rank(a), x);
      var c := f[a].slots.value[i].actor.value;
      assert Owns(f, a, i, c);
      SubtreeIsLeast(f, order, c, s, x);
    }
  }

  // ------------------------------------------------------------------ nobody twice

  /** The subtrees of two slots of one supervisor have no actor in common. */
  lemma {:induction false} SlotsApart(f: Forest, order: Order, a: ActorId, i: nat, c: ActorId, j: nat, d: ActorId, x: ActorId)
    requires WellFormed(f, order) && OneSlotEach(f) && Owns(f, a, i, c) && Owns(f, a, j, d) && i != j && c in f && d in f
    requires x in Preorder(f, order, c) && x in Preorder(f, order, d)
    ensures false
    decreases if x in f then order.rank(x) else 0
  {
    assert c != d;
    RootIsOldest(f, order, c, x);
    RootIsOldest(f, order, d, x);
    assert order.rank(a) < order.rank(c) && order.rank(a) < order.rank(d) by { hide Preorder; OwnedIsYounger(f, order, a, i, c); OwnedIsYounger(f, order, a, j, d); }
    if x != c && x != d {
      var p, k := OwnerInside(f, order, c, x);
      var q, l := OwnerInside(f, order, d, x);
      OwnedIsYounger(f, order, p, k, x);
      SlotsApart(f, order, a, i, c, j, d, p);
    } else if x == c {
      var p, k := OwnerInside(f, order, d, x);
      RootIsOldest(f, order, d, p);
    } else {
      var p, k := OwnerInside(f, order, c, x);
      RootIsOldest(f, order, c, p);
    }
  }

  lemma OwnedIsYounger(f: Forest, order: Order, a: ActorId, i: nat, c: ActorId)
    requires WellFormed(f, order) && Owns(f, a, i, c) && c in f
    ensures order.rank(a) < order.rank(c) < order.limit
  {
    assert YoungerThan(f, order, f[a].slots.value, order.rank(a));
  }

  ghost predicate NoDuplicates(s: seq<ActorId>) { forall i, j :: 0 <= i < j < |s| ==> s[i] != s[j] }

  lemma ConcatNoDuplicates(s: seq<ActorId>, t: seq<ActorId>)
    requires NoDuplicates(s) && NoDuplicates(t) && forall x :: x in s ==> x !in t
    ensures NoDuplicates(s + t)
  {
    forall i, j | 0 <= i < j < |s + t| ensures (s + t)[i] != (s + t)[j] {
      if i < |s| <= j {
        assert s[i] in s && t[j - |s|] in t;
      }
    }
  }

  lemma {:induction false} OrdersHaveNoDuplicates(f: Forest, order: Order, a: ActorId)
    requires WellFormed(f, order) && OneSlotEach(f) && a in f
    ensures NoDuplicates(Preorder(f, order, a)) && NoDuplicates(Postorder(f, order, a))
    decreases order.limit - order.rank(a), 1, 0
  {
    if f[a].slots.Some? {
      var slots := f[a].slots.value;
      assert slots[..|slots|] == slots;
      SlotsHaveNoDuplicates(f, order, a, |slots|);
      SameMembersOfSlots(f, order, slots, order.rank(a));
      if a in PreSlots(f, order, slots, order.rank(a)) {
        var i := InSomeSlot(f, order, slots, order.rank(a), a);
        RootIsOldest(f, order, slots[i].actor.value, a);
        assert false;
      }
      ConcatNoDuplicates([a], PreSlots(f, order, slots, order.rank(a)));
      ConcatNoDuplicates(PostSlots(f, order, slots, order.rank(a)), [a]);
    }
  }

  lemma {:induction false} SlotsHaveNoDuplicates(f: Forest, order: Order, a: ActorId, n: nat)
    requires WellFormed(f, order) && OneSlotEach(f) && a in f && f[a].slots.Some? && n <= |f[a].slots.value|
    ensures var slots := f[a].slots.value[..n];
      && YoungerThan(f, order, slots, order.rank(a))
      && NoDuplicates(PreSlots(f, order, slots, order.rank(a))) && NoDuplicates(PostSlots(f, order, slots, order.rank(a)))
    decreases order.limit - order.rank(a), 0, n
  {
    var slots := f[a].slots.value[..n];
    var floor := order.rank(a);
    assert YoungerThan(f, order, slots, floor);
    if n > 0 {
      var front := slots[..n - 1];
      assert front == f[a].slots.value[..n - 1];
      SlotsHaveNoDuplicates(f, order, a, n - 1);
      var last := slots[n - 1];
      hide Preorder, Postorder;
      if last.actor.Some? && last.actor.value in f {
        var c := last.actor.value;
        OrdersHaveNoDuplicates(f, order, c);
        SameMembers(f, order, c);
        SameMembersOfSlots(f, order, front, floor);
        forall x | x in PreSlots(f, order, front, floor) ensures x !in Preorder(f, order, c) {
          if x in Preorder(f, order, c) {
            var i := InSomeSlot(f, order, front, floor, x);
            SlotsApart(f, order, a, i, front[i].actor.value, n - 1, c, x);
          }
        }
        ConcatNoDuplicates(PreSlots(f, order, front, floor), Preorder(f, order, c));
        ConcatNoDuplicates(PostSlots(f, order, front, floor), Postorder(f, order, c));
      }
    }
  }

  // ------------------------------------------------------------------ supervisors first, supervisors last

  /** Wherever `x` is listed, `y` is listed later. */
  ghost predicate Followed(s: seq<ActorId>, x: ActorId, y: ActorId) {
    forall i :: 0 <= i < |s| && s[i] == x ==> y in s[i + 1..]
  }

  /** Wherever `x` is listed, `y` is listed earlier. */
  ghost predicate Preceded(s: seq<ActorId>, x: ActorId, y: ActorId) {
    forall i :: 0 <= i < |s| && s[i] == x ==> y in s[..i]
  }

  lemma ConcatFollowed(s: seq<ActorId>, t: seq<ActorId>, x: ActorId, y: ActorId)
    requires Followed(t, x, y) && (Followed(s, x, y) || y in t)
    ensures Followed(s + t, x, y)
  {
    forall i | 0 <= i < |s + t| && (s + t)[i] == x ensures y in (s + t)[i + 1..] {
      if i < |s| {
        assert (s + t)[i + 1..] == s[i + 1..] + t;
      } else {
        assert (s + t)[i + 1..] == t[i - |s| + 1..];
      }
    }
  }

  lemma ConcatPreceded(s: seq<ActorId>, t: seq<ActorId>, x: ActorId, y: ActorId)
    requires Preceded(s, x, y) && (Preceded(t, x, y) || y in s)
    ensures Preceded(s + t, x, y)
  {
    forall i | 0 <= i < |s + t| && (s + t)[i] == x ensures y in (s + t)[..i] {
      if i < |s| {
        assert (s + t)[..i] == s[..i];
      } else {
        assert (s + t)[..i] == s + t[..i - |s|];
      }
    }
  }

  /** Wherever a supervisor is listed, its child comes later in the one order and earlier in the other. */
  lemma {:induction false} SupervisorsFirst(f: Forest, order: Order, a: ActorId, p: ActorId, k: nat, x: ActorId)
    requires WellFormed(f, order) && a in f && Owns(f, p, k, x) && x in f
    ensures Followed(Preorder(f, order, a), p, x) && Preceded(Postorder(f, order, a), p, x)
    decreases order.limit - order.rank(a), 1, 0
  {
    hide Followed, Preceded;
    if f[a].slots.None? {
      SingletonOrder(a, p, x);
    } else {
      var slots := f[a].slots.value;
      var pre, post := PreSlots(f, order, slots, order.rank(a)), PostSlots(f, order, slots, order.rank(a));
      SupervisorsFirstInSlots(f, order, slots, order.rank(a), p, k, x);
      SingletonOrder(a, p, x);
      if a == p { OwnChildListed(f, order, a, k, x); }
      ConcatFollowed([a], pre, p, x);
      ConcatPreceded(post, [a], p, x);
    }
  }

  lemma SingletonOrder(a: ActorId, p: ActorId, x: ActorId)
    ensures a != p ==> Followed([a], p, x) && Preceded([a], p, x)
    ensures Followed([], p, x) && Preceded([], p, x)
  {
  }

  lemma OwnChildListed(f: Forest, order: Order, a: ActorId, k: nat, x: ActorId)
    requires WellFormed(f, order) && Owns(f, a, k, x) && x in f
    ensures YoungerThan(f, order, f[a].slots.value, order.rank(a)) && order.rank(a) < order.limit
    ensures x in PreSlots(f, order, f[a].slots.value, order.rank(a)) && x in PostSlots(f, order, f[a].slots.value, order.rank(a))
  {
    var slots := f[a].slots.value;
    RootFirst(f, order, x);
    hide Preorder, Postorder;
    var u, v := SlotInside(f, order, slots, order.rank(a), k);
    SameMembersOfSlots(f, order, slots, order.rank(a));
  }

  lemma {:induction false} SupervisorsFirstInSlots(f: Forest, order: Order, slots: seq<Slot>, floor: nat, p: ActorId, k: nat, x: ActorId)
    requires WellFormed(f, order) && YoungerThan(f, order, slots, floor) && floor < order.limit && Owns(f, p, k, x) && x in f
    ensures Followed(PreSlots(f, order, slots, floor), p, x) && Preceded(PostSlots(f, order, slots, floor), p, x)
    decreases order.limit - floor, 0, |slots|
  {
    hide Followed, Preceded, Preorder, Postorder;
    SingletonOrder(p, p, x);
    if slots != [] {
      var front, last := slots[..|slots| - 1], slots[|slots| - 1];
      SupervisorsFirstInSlots(f, order, front, floor, p, k, x);
      if last.actor.Some? && last.actor.value in f {
        SupervisorsFirst(f, order, last.actor.value, p, k, x);
        ConcatFollowed(PreSlots(f, order, front, floor), Preorder(f, order, last.actor.value), p, x);
        ConcatPreceded(PostSlots(f, order, front, floor), Postorder(f, order, last.actor.value), p, x);
      } else {
        assert PreSlots(f, order, slots, floor) == PreSlots(f, order, front, floor);
        assert PostSlots(f, order, slots, floor) == PostSlots(f, order, front, floor);
      }
    }
  }

  // ------------------------------------------------------------------ the plan as a whole

  /** The shape of a plan for the subtree of `root`. */
  ghost predicate PlanFits(f: Forest, root: ActorId, plan: Plan) {
    && (OneSlotEach(f) ==> NoDuplicates(plan.suspendOrder) && NoDuplicates(plan.upgradeOrder))
    && (forall x :: x in plan.suspendOrder <==> x in plan.upgradeOrder)
    && root in plan.suspendOrder
    && (forall p, k, x :: p in plan.suspendOrder && Owns(f, p, k, x) ==>
          Followed(plan.suspendOrder, p, x) && Preceded(plan.upgradeOrder, p, x))
    && (forall s: set<ActorId> :: root in s && ChildClosed(f, s) ==> forall x :: x in plan.suspendOrder ==> x in s)
    && plan.resumeTargets == Unsuspended(f, plan.suspendOrder)
  }

  lemma {:induction false} MatchesAll(f: Forest, order: Order, a: ActorId, p: ActorId, k: nat, x: ActorId)
    requires WellFormed(f, order) && a in f && Matches(f, order, a) && p in Preorder(f, order, a) && Owns(f, p, k, x)
    ensures x in f
    decreases order.limit - order.rank(a)
  {
    var slots := f[a].slots.value;
    if p == a {
      NextSlot(f, order, slots, k, order.rank(a));
    } else {
      var i := InSomeSlot(f, order, slots, order.rank(a), p);
      NextSlot(f, order, slots, i, order.rank(a));
      MatchesAll(f, order, slots[i].actor.value, p, k, x);
    }
  }

  /**
   * Plans an upgrade. It succeeds exactly for a live supervisor whose tree agrees with its specs; the
   * plan then lists exactly the actors of the tree, supervisors before their children in the one order
   * and after them in the other, and each once unless an actor runs in two slots.
   */
  method PlanLocalUpgrade(f: Forest, ghost order: Order, root: ActorId) returns (result: Option<Plan>)
    requires WellFormed(f, order)
    ensures result.Some? <==> Upgradable(f, order, root)
    ensures result.Some? ==> PlanFits(f, root, result.value)
  {
    hide WellFormed, Matches, PlanFits;
    if root !in f || f[root].slots.None? {
      return None;
    }
    result := CollectTree(f, order, root, Plan([], [], []));
    if result.Some? { TreePlanFits(f, order, root, result.value); }
  }

  lemma TreePlanFits(f: Forest, order: Order, root: ActorId, plan: Plan)
    requires WellFormed(f, order) && root in f && Matches(f, order, root)
    requires plan == Extended(f, Plan([], [], []), Preorder(f, order, root), Postorder(f, order, root))
    ensures PlanFits(f, root, plan)
  {
    hide WellFormed, Matches, Preorder, Postorder, ChildClosed, Followed, Preceded, NoDuplicates, OneSlotEach, Owns, Unsuspended;
    assert plan.suspendOrder == Preorder(f, order, root) && plan.upgradeOrder == Postorder(f, order, root);
    if OneSlotEach(f) { OrdersHaveNoDuplicates(f, order, root); }
    SameMembers(f, order, root);
    RootFirst(f, order, root);
    forall p, k, x | p in plan.suspendOrder && Owns(f, p, k, x)
      ensures Followed(plan.suspendOrder, p, x) && Preceded(plan.upgradeOrder, p, x)
    {
      OwnsAtNat(f, p, k, x);
      MatchesAll(f, order, root, p, k, x);
      SupervisorsFirst(f, order, root, p, k, x);
    }
    forall s: set<ActorId>, x | root in s && ChildClosed(f, s) && x in plan.suspendOrder ensures x in s {
      SubtreeIsLeast(f, order, root, s, x);
    }
  }

  lemma OwnsAtNat(f: Forest, p: ActorId, k: int, x: ActorId)
    requires Owns(f, p, k, x)
    ensures k >= 0
  {
  }

  // ------------------------------------------------------------------ where such snapshots come from

  /** The supervision table, and every actor ever spawned, in order. */
  datatype Table = Table(forest: Forest, births: seq<ActorId>)

  /** What happens to it when supervisors record only children they have just spawned. */
  datatype Change =
    | Spawned(id: ActorId, parent: Option<(ActorId, nat)>, slots: Option<seq<bool>>)
    | Cleared(supervisor: ActorId, k: nat)
    | Ended(actor: ActorId)
    | Suspends(actor: ActorId, suspended: bool)

  function Vacant(flags: seq<bool>): seq<Slot> { seq(|flags|, i requires 0 <= i < |flags| => Slot(flags[i], None)) }

  predicate HasSlot(f: Forest, a: ActorId, k: nat) { a in f && f[a].slots.Some? && k < |f[a].slots.value| }

  function SetSlot(f: Forest, a: ActorId, k: nat, child: Option<ActorId>): Forest
    requires HasSlot(f, a, k)
  {
    f[a := f[a].(slots := Some(f[a].slots.value[k := f[a].slots.value[k].(actor := child)]))]
  }

  function After(t: Table, change: Change): Table {
    match change
    case Spawned(id, parent, flags) =>
      if id in t.births then t
      else
        var f := if parent.Some? && HasSlot(t.forest, parent.value.0, parent.value.1)
                 then SetSlot(t.forest, parent.value.0, parent.value.1, Some(id)) else t.forest;
        Table(f[id := Node(false, if flags.Some? then Some(Vacant(flags.value)) else None)], t.births + [id])
    case Cleared(a, k) => if HasSlot(t.forest, a, k) then t.(forest := SetSlot(t.forest, a, k, None)) else t
    case Ended(a) => t.(forest := t.forest - {a})
    case Suspends(a, suspended) => if a in t.forest then t.(forest := t.forest[a := t.forest[a].(suspended := suspended)]) else t
  }

  function RunChanges(t: Table, changes: seq<Change>): Table
    decreases |changes|
  {
    if changes == [] then t else RunChanges(After(t, changes[0]), changes[1..])
  }

  /** How many actors were spawned before `a`. */
  function Birth(births: seq<ActorId>, a: ActorId): (n: nat)
    ensures n <= |births| && (n < |births| <==> a in births)
  {
    if births == [] then 0 else if births[0] == a then 0 else 1 + Birth(births[1..], a)
  }

  lemma {:induction false} BirthStays(births: seq<ActorId>, id: ActorId)
    requires id !in births
    ensures Birth(births + [id], id) == |births|
    ensures forall a :: a in births ==> Birth(births + [id], a) == Birth(births, a)
  {
    if births != [] {
      BirthStays(births[1..], id);
      assert (births + [id])[1..] == births[1..] + [id];
    }
  }

  /** Children were spawned after the supervisor whose slot they run in, and run in one slot only. */
  ghost predicate Grown(t: Table) {
    && t.forest.Keys <= (set a | a in t.births)
    && (forall a, i, c :: Owns(t.forest, a, i, c) ==> c in t.births && Birth(t.births, a) < Birth(t.births, c))
    && OneSlotEach(t.forest)
  }

  lemma SetSlotOwns(f: Forest, a: ActorId, k: nat, child: Option<ActorId>)
    requires HasSlot(f, a, k)
    ensures forall x, i, c :: Owns(SetSlot(f, a, k, child), x, i, c) <==> if x == a && i == k then child == Some(c) else Owns(f, x, i, c)
  {
  }

  /** A child that is spawned runs in its slot, one that is cleared does not, and nothing else about slots has changed. */
  lemma ChangesTakeEffect(t: Table, change: Change)
    ensures var f, g := t.forest, After(t, change).forest;
      match change
      case Spawned(id, parent, flags) =>
        id !in t.births ==>
          && id in g && (g[id].slots.Some? <==> flags.Some?) && (forall k, c :: !Owns(g, id, k, c))
          && (forall x, k, c :: x != id ==> (Owns(g, x, k, c) <==> if parent == Some((x, k)) && HasSlot(f, x, k) then c == id else Owns(f, x, k, c)))
      case Cleared(a, k) => forall x, i, c :: Owns(g, x, i, c) <==> Owns(f, x, i, c) && (x != a || i != k)
      case Ended(a) => a !in g && forall x :: x in f && x != a ==> x in g && g[x] == f[x]
      case Suspends(a, suspended) => g.Keys == f.Keys && forall x :: x in f ==> g[x] == if x == a then f[x].(suspended := suspended) else f[x]
  {
    match change
    case Spawned(id, parent, flags) =>
      if parent.Some? && HasSlot(t.forest, parent.value.0, parent.value.1) {
        SetSlotOwns(t.forest, parent.value.0, parent.value.1, Some(id));
      }
      hide SetSlot;
    case Cleared(a, k) => if HasSlot(t.forest, a, k) { SetSlotOwns(t.forest, a, k, None); }
    case _ =>
  }

  lemma NewcomerOwnsNobody(f: Forest, id: ActorId, flags: Option<seq<bool>>)
    requires id !in f
    ensures var g := f[id := Node(false, if flags.Some? then Some(Vacant(flags.value)) else None)];
      forall x, i, c :: Owns(g, x, i, c) <==> Owns(f, x, i, c)
  {
  }

  /** A newcomer that owns nobody, in at most one slot of someone spawned earlier. */
  lemma NewcomerStaysGrown(t: Table, g: Forest, id: ActorId, parent: Option<(ActorId, nat)>)
    requires Grown(t) && id !in t.births && g.Keys == t.forest.Keys + {id}
    requires parent.Some? ==> parent.value.0 in t.births
    requires forall x, i, c :: Owns(g, x, i, c) ==> if c == id then parent.Some? && (x, i) == parent.value else Owns(t.forest, x, i, c)
    ensures Grown(Table(g, t.births + [id]))
  {
    hide Owns;
    BirthStays(t.births, id);
  }

  lemma SpawnStaysGrown(t: Table, change: Change)
    requires Grown(t) && change.Spawned? && change.id !in t.births
    ensures Grown(After(t, change))
  {
    hide Owns, SetSlot, Vacant;
    var u, id := After(t, change), change.id;
    if change.parent.Some? && HasSlot(t.forest, change.parent.value.0, change.parent.value.1) {
      var (a, k) := change.parent.value;
      var g := SetSlot(t.forest, a, k, Some(id));
      SetSlotOwns(t.forest, a, k, Some(id));
      SetSlotKeys(t.forest, a, k, Some(id));
      NewcomerOwnsNobody(g, id, change.slots);
      assert forall x, i, c :: Owns(u.forest, x, i, c) <==> Owns(g, x, i, c);
      NewcomerStaysGrown(t, u.forest, id, change.parent);
    } else {
      NewcomerOwnsNobody(t.forest, id, change.slots);
      assert forall x, i, c :: Owns(u.forest, x, i, c) <==> Owns(t.forest, x, i, c);
      NewcomerStaysGrown(t, u.forest, id, None);
    }
  }

  lemma SetSlotKeys(f: Forest, a: ActorId, k: nat, child: Option<ActorId>)
    requires HasSlot(f, a, k)
    ensures SetSlot(f, a, k, child).Keys == f.Keys
  {
  }

  lemma ChangeStaysGrown(t: Table, change: Change)
    requires Grown(t)
    ensures Grown(After(t, change))
  {
    if change.Spawned? {
      if change.id !in t.births { SpawnStaysGrown(t, change); }
    } else {
      var u := After(t, change);
      assert forall a, i, c :: Owns(u.forest, a, i, c) ==> Owns(t.forest, a, i, c);
    }
  }

  lemma {:induction false} RunStaysGrown(t: Table, changes: seq<Change>)
    requires Grown(t)
    ensures Grown(RunChanges(t, changes))
    decreases |changes|
  {
    hide Grown, After;
    if changes != [] {
      ChangeStaysGrown(t, changes[0]);
      RunStaysGrown(After(t, changes[0]), changes[1..]);
    }
  }

  /** Every table that spawns, exits and ends can lead to is one the planner finishes on, and lists nobody twice. */
  lemma SnapshotsHaveOrder(changes: seq<Change>)
    ensures var t := RunChanges(Table(map[], []), changes);
      && WellFormed(t.forest, Order(a => Birth(t.births, a), |t.births|)) && OneSlotEach(t.forest)
  {
    var t := RunChanges(Table(map[], []), changes);
    RunStaysGrown(Table(map[], []), changes);
    forall a, i | a in t.forest && t.forest[a].slots.Some? && 0 <= i < |t.forest[a].slots.value|
      && t.forest[a].slots.value[i].actor.Some?
      ensures Birth(t.births, a) < Birth(t.births, t.forest[a].slots.value[i].actor.value)
    {
      assert Owns(t.forest, a, i, t.forest[a].slots.value[i].actor.value);
    }
  }
}
