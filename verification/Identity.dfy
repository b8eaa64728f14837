/** Spawning, finishing and naming actors: who is live, who is gone, and which ids resolve. */
module Identity {
  import opened Types
  import opened ActorIds
  import opened Registries

  datatype SpawnError = CapacityExceeded | NameRejected(error: RegistryError)

  datatype Outcome = Spawned(actor: ActorId) | Refused(error: SpawnError)

  /**
   * Everything the runtime knows about identities, as a value. The table is keyed by slot; `inHand`
   * holds the actors that are out of the table because their turn or their end is running, and
   * `unplaced` the ids that were allocated but not admitted: a refused spawn leaves its id there.
   */
  datatype Census = Census(
    slots: Slots, table: map<nat, ActorId>, inHand: set<ActorId>, completed: set<ActorId>, unplaced: set<ActorId>)
  {
    predicate InTable(a: ActorId) { a.localId in table && table[a.localId] == a }

    /** The live actors, wherever they are. */
    function Count(): nat { |table| + |inHand| }

    /** Every id ever handed out is in exactly one place, and a slot is held unless its id completed. */
    ghost predicate Conserved() {
      && slots.Valid()
      && (forall s :: s in table ==> table[s].localId == s)
      && inHand !! completed !! unplaced
      && (forall a :: InTable(a) ==> a !in inHand && a !in completed && a !in unplaced)
      && (forall a :: slots.Issued(a) <==> InTable(a) || a in inHand || a in completed || a in unplaced)
      && (forall a :: slots.Held(a) <==> InTable(a) || a in inHand || a in unplaced)
    }

    function Allocated(): Census
      requires slots.Valid()
    {
      this.(slots := slots.Allocate().1, unplaced := unplaced + {slots.Allocate().0})
    }

    /** Puts an actor into the table, from the hand or fresh from allocation. */
    function Insert(a: ActorId): Census {
      this.(inHand := inHand - {a}, unplaced := unplaced - {a}, table := table[a.localId := a])
    }

    function Take(a: ActorId): Census { this.(inHand := inHand + {a}, table := table - {a.localId}) }

    function Complete(a: ActorId): Census {
      this.(slots := slots.Release(a), inHand := inHand - {a}, completed := completed + {a})
    }
  }

  /** Nothing that was retired comes back, and no slot's generation moves backwards. */
  ghost predicate Forward(c: Census, d: Census) {
    && c.completed <= d.completed && c.unplaced <= d.unplaced
    && |c.slots.generations| <= |d.slots.generations|
    && (forall s :: 0 <= s < |c.slots.generations| ==> c.slots.generations[s] <= d.slots.generations[s])
  }

  lemma AllocatedConserves(c: Census)
    requires c.Conserved()
    ensures c.Allocated().Conserved()
    ensures !c.slots.Issued(c.slots.Allocate().0)
  {
    AllocateIsFresh(c.slots);
    var d := c.Allocated();
    assert forall a :: d.InTable(a) <==> c.InTable(a);
  }

  /** An id that is held always finds its slot vacant, so putting it in displaces nobody. */
  lemma HeldSlotIsVacant(c: Census, a: ActorId)
    requires c.Conserved() && (a in c.inHand || a in c.unplaced)
    ensures a.localId !in c.table && !c.InTable(a) && c.slots.Held(a)
    ensures a in c.inHand ==> a !in c.unplaced
  {
    assert a.localId in c.table ==> c.InTable(c.table[a.localId]) && c.slots.Held(c.table[a.localId]);
  }

  lemma InsertConserves(c: Census, a: ActorId)
    requires c.Conserved() && (a in c.inHand || a in c.unplaced)
    ensures c.Insert(a).Conserved()
    ensures forall b :: c.Insert(a).InTable(b) <==> c.InTable(b) || b == a
  {
    HeldSlotIsVacant(c, a);
    hide Slots.Valid, Slots.Held, Slots.Issued;
    assert forall b :: c.Insert(a).InTable(b) <==> c.InTable(b) || b == a;
  }

  lemma InsertCounts(c: Census, a: ActorId)
    requires c.Conserved() && (a in c.inHand || a in c.unplaced)
    ensures a in c.inHand ==> Forward(c, c.Insert(a))
    ensures c.Insert(a).Count() == c.Count() + if a in c.inHand then 0 else 1
    ensures a in c.inHand ==> c.unplaced - {a} == c.unplaced
    ensures a in c.unplaced ==> a !in c.inHand && c.inHand - {a} == c.inHand
  {
    HeldSlotIsVacant(c, a);
    assert a in c.unplaced ==> a !in c.inHand;
    hide Census.Conserved;
    assert a !in c.inHand ==> c.inHand - {a} == c.inHand;
    assert a !in c.unplaced ==> c.unplaced - {a} == c.unplaced;
  }

  lemma TakeConserves(c: Census, a: ActorId)
    requires c.Conserved() && c.InTable(a)
    ensures c.Take(a).Conserved() && !c.Take(a).InTable(a)
  {
    hide Slots.Valid, Slots.Held, Slots.Issued;
    assert forall b :: c.Take(a).InTable(b) <==> c.InTable(b) && b != a;
  }

  lemma TakeCounts(c: Census, a: ActorId)
    requires c.Conserved() && c.InTable(a)
    ensures c.Take(a).Count() == c.Count() && Forward(c, c.Take(a))
  {
    assert a !in c.inHand;
    hide Census.Conserved;
    assert c.table.Keys == c.Take(a).table.Keys + {a.localId};
  }

  lemma CompleteConserves(c: Census, a: ActorId)
    requires c.Conserved() && a in c.inHand
    ensures c.Complete(a).Conserved()
  {
    ReleaseRetires(c.slots, a);
    var d := c.Complete(a);
    assert forall b :: d.InTable(b) <==> c.InTable(b);
  }

  /** Both ends of a spawn: the id is new, and admitted or not nothing moves backwards. */
  lemma SpawnIsForward(c: Census)
    requires c.Conserved()
    ensures var id := c.slots.Allocate().0;
      && c.slots.Valid() && !c.slots.Issued(id)
      && id !in c.inHand && !c.InTable(id) && id !in c.unplaced
      && c.Allocated().Conserved() && c.Allocated().Count() == c.Count() && Forward(c, c.Allocated())
      && Forward(c, c.Allocated().Insert(id))
  {
    AllocatedConserves(c);
  }

  lemma CompleteIsForward(c: Census, a: ActorId)
    requires c.Conserved() && a in c.inHand
    ensures c.Complete(a).Conserved() && Forward(c, c.Complete(a))
    ensures c.Complete(a).Count() == c.Count() - 1
  {
    CompleteConserves(c, a);
  }

  /** Names belong to actors that are live and have not begun to finish. */
  ghost predicate NamesAreLive(c: Census, names: Names, closing: set<ActorId>) {
    && names.Inverse()
    && closing <= c.inHand
    && (forall a :: a in names.byActor ==> (c.InTable(a) || a in c.inHand) && a !in closing)
  }

  lemma NamesFollow(c: Census, names: Names, closing: set<ActorId>, a: ActorId)
    requires c.Conserved() && NamesAreLive(c, names, closing)
    ensures NamesAreLive(c.Allocated(), names, closing) && c.slots.Allocate().0 !in names.byActor
    ensures c.InTable(a) ==> NamesAreLive(c.Take(a), names, closing)
    ensures a in c.inHand && a !in closing ==> NamesAreLive(c.Insert(a), names, closing)
    ensures a in closing ==> a in c.inHand && NamesAreLive(c.Complete(a), names, closing - {a})
  {
    AllocateIsFresh(c.slots);
  }

  lemma NamesFollowInsert(c: Census, names: Names, closing: set<ActorId>, a: ActorId, name: string)
    requires c.Conserved() && NamesAreLive(c, names, closing)
    requires a in c.unplaced && a !in names.byActor
    ensures NamesAreLive(c.Insert(a), names, closing)
    ensures NamesAreLive(c.Insert(a), names.Register(a, name), closing)
    ensures names.Refusal(a, name).None? <==> name !in names.byName
  {
    RegisterResolves(names, a, name);
  }

  /** What the rest of the runtime asks of the directory, in any order. */
  datatype Request =
    | DoSpawn(name: Option<string>)
    | DoTake(actor: ActorId)
    | DoReturn(actor: ActorId)
    | DoBeginFinish(actor: ActorId)
    | DoCompleteFinish(actor: ActorId)
    | DoRegister(actor: ActorId, alias: string)

  /** Who is where, who is named, and whose end has begun. */
  datatype Rolls = Rolls(census: Census, names: Names, closing: set<ActorId>)

  /** What one request does, if it applies; a spawn uses up an id whether it is admitted or not. */
  function After(request: Request, r: Rolls, limit: nat): Rolls
    requires r.census.slots.Valid()
  {
    var c := r.census;
    match request
    case DoSpawn(name) =>
      var id := c.slots.Allocate().0;
      if c.Count() < limit && (name.Some? ==> name.value !in r.names.byName) then
        Rolls(c.Allocated().Insert(id), if name.Some? then r.names.Register(id, name.value) else r.names, r.closing)
      else r.(census := c.Allocated())
    case DoTake(a) => if c.InTable(a) then r.(census := c.Take(a)) else r
    case DoReturn(a) => if a in c.inHand && a !in r.closing then r.(census := c.Insert(a)) else r
    case DoBeginFinish(a) => if a in c.inHand && a !in r.closing then r.(names := r.names.Unregister(a), closing := r.closing + {a}) else r
    case DoCompleteFinish(a) => if a in r.closing then r.(census := c.Complete(a), closing := r.closing - {a}) else r
    case DoRegister(a, alias) => if c.InTable(a) && r.names.Refusal(a, alias).None? then r.(names := r.names.Register(a, alias)) else r
  }

  /** Only a spawn hands out an id, and only that one. */
  lemma NewIds(request: Request, r: Rolls, limit: nat)
    requires r.census.Conserved() && (forall a :: a in r.closing ==> a in r.census.inHand)
    ensures r.census.slots.Valid() && After(request, r, limit).census.slots.Valid()
    ensures forall a :: After(request, r, limit).census.slots.Issued(a) && !r.census.slots.Issued(a) ==>
      request.DoSpawn? && a == r.census.slots.Allocate().0
  {
    AllocateIsFresh(r.census.slots);
    if request.DoCompleteFinish? && request.actor in r.closing { ReleaseRetires(r.census.slots, request.actor); }
  }

  /** The rolls between the requests. */
  ghost predicate AllAfter(requests: seq<Request>, rolls: seq<Rolls>, limit: nat) {
    && |rolls| == |requests| + 1
    && forall i :: 0 <= i < |requests| ==> rolls[i].census.slots.Valid() && rolls[i + 1] == After(requests[i], rolls[i], limit)
  }

  lemma OneMoreAfter(requests: seq<Request>, rolls: seq<Rolls>, limit: nat, i: nat, next: Rolls)
    requires i < |requests| && AllAfter(requests[..i], rolls, limit)
    requires rolls[i].census.slots.Valid() && next == After(requests[i], rolls[i], limit)
    ensures AllAfter(requests[..i + 1], rolls + [next], limit)
  {
    hide After, Slots.Valid;
  }

  /** The identity half of the runtime. The allocator and the registry are held by value. */
  class Directory {
    const maxActors: nat
    var ids: Slots
    var registry: Names
    var liveActors: nat
    var actors: map<nat, ActorId>
    var inHand: set<ActorId>
    var completed: set<ActorId>
    var closing: set<ActorId>           // in hand, with their end begun
    ghost var unplaced: set<ActorId>

    ghost function View(): Census
      reads this
    {
      Census(ids, actors, inHand, completed, unplaced)
    }

    ghost function Now(): Rolls
      reads this
    {
      Rolls(View(), registry, closing)
    }

    predicate Contains(actor: ActorId)
      reads this
    {
      actor.localId in actors && actors[actor.localId] == actor
    }

    ghost predicate Valid()
      reads this
    {
      && View().Conserved()
      && NamesAreLive(View(), registry, closing)
      && liveActors == View().Count() && liveActors <= maxActors
    }

    constructor (maxActors: nat)
      ensures Valid() && this.maxActors == maxActors
      ensures actors == map[] && inHand == {} && completed == {} && unplaced == {}
    {
      this.maxActors := maxActors;
      ids, registry := Slots(0, [], []), Names(map[], map[]);
      liveActors, actors, inHand, closing, completed, unplaced := 0, map[], {}, {}, {}, {};
    }

    method AllocateId() returns (id: ActorId)
      requires Valid()
      modifies this`ids, this`unplaced
      ensures Valid() && View() == old(View()).Allocated() && id == old(ids).Allocate().0
      ensures id in unplaced && id !in registry.byActor
    {
      hide Census.Conserved, Census.Count, NamesAreLive, Forward, Slots.Allocate, Slots.Issued;
      SpawnIsForward(View());
      NamesFollow(View(), registry, closing, ids.Allocate().0);
      id := ids.Allocate().0;
      ids := ids.Allocate().1;
      unplaced := unplaced + {id};
    }

    /** Admission: first the limit on live actors, then the name. */
    method InsertActor(id: ActorId, name: Option<string>) returns (error: Option<SpawnError>)
      requires Valid() && id in unplaced && id !in registry.byActor
      modifies this
      ensures error.None? <==> old(liveActors) < maxActors && (name.Some? ==> name.value !in old(registry).byName)
      ensures View() == if error.None? then old(View()).Insert(id) else old(View())
      ensures liveActors == old(liveActors) + (if error.None? then 1 else 0) && closing == old(closing)
      ensures registry == if error.None? && name.Some? then old(registry).Register(id, name.value) else old(registry)
      ensures Valid()
    {
      hide Census.Conserved, Census.Count, NamesAreLive, Forward;
      InsertConserves(View(), id);
      InsertCounts(View(), id);
      NamesFollowInsert(View(), registry, closing, id, if name.Some? then name.value else "");
      if liveActors >= maxActors {
        return Some(CapacityExceeded);
      }
      if name.Some? {
        var refusal := registry.Refusal(id, name.value);
        if refusal.Some? {
          return Some(NameRejected(refusal.value));
        }
        registry := registry.Register(id, name.value);
      }
      actors := actors[id.localId := id];
      unplaced := unplaced - {id};
      liveActors := liveActors + 1;
      return None;
    }

    /** A slot is taken before admission is decided: a refused spawn never gives it back. */
    method Spawn(name: Option<string>) returns (outcome: Outcome)
      requires Valid()
      modifies this
      ensures Valid() && Forward(old(View()), View())
      ensures outcome.Spawned? <==>
        old(liveActors) < maxActors && (name.Some? ==> name.value !in old(registry).byName)
      ensures outcome.Spawned? ==> !old(ids).Issued(outcome.actor) && Contains(outcome.actor)
      ensures Now() == After(DoSpawn(name), old(Now()), maxActors)
      ensures outcome.Refused? ==> View() == old(View()).Allocated() && liveActors == old(liveActors)
      ensures outcome.Spawned? ==>
        View() == old(View()).Allocated().Insert(outcome.actor) && liveActors == old(liveActors) + 1
    {
      hide Census.Conserved, Census.Count, Forward, Slots.Allocate, Slots.Issued;
      SpawnIsForward(View());
      var id := AllocateId();
      var error := InsertActor(id, name);
      outcome := if error.None? then Spawned(id) else Refused(error.value);
    }

    /** Takes a live actor out of the table for its turn or its end; a stale id finds nothing. */
    method TakeActor(actor: ActorId) returns (found: bool)
      requires Valid()
      modifies this`actors, this`inHand
      ensures Valid() && Forward(old(View()), View())
      ensures found == old(Contains(actor)) && !Contains(actor)
      ensures View() == if found then old(View()).Take(actor) else old(View())
    {
      hide Census.Conserved, Census.Count, NamesAreLive;
      found := Contains(actor);
      if !found {
        return;
      }
      TakeConserves(View(), actor);
      TakeCounts(View(), actor);
      NamesFollow(View(), registry, closing, actor);
      actors := actors - {actor.localId};
      inHand := inHand + {actor};
      assert View() == old(View()).Take(actor);
    }

    method ReturnActor(actor: ActorId)
      requires Valid() && actor in inHand && actor !in closing
      modifies this`actors, this`inHand
      ensures Valid() && Forward(old(View()), View())
      ensures View() == old(View()).Insert(actor) && Contains(actor)
    {
      hide Census.Conserved, Census.Count, NamesAreLive, Forward;
      InsertConserves(View(), actor);
      InsertCounts(View(), actor);
      NamesFollow(View(), registry, closing, actor);
      actors := actors[actor.localId := actor];
      inHand := inHand - {actor};
      assert View() == old(View()).Insert(actor);
    }

    /** The start of an actor's end: its name is given up before its links are worked off. */
    method BeginFinish(actor: ActorId)
      requires Valid() && actor in inHand && actor !in closing
      modifies this`closing, this`registry
      ensures Valid() && closing == old(closing) + {actor}
      ensures registry == old(registry).Unregister(actor) && actor !in registry.byActor
    {
      UnregisterUndoes(registry, actor, "");
      registry := registry.Unregister(actor);
      closing := closing + {actor};
    }

    method CompleteFinish(actor: ActorId)
      requires Valid() && actor in closing
      modifies this
      ensures View() == old(View()).Complete(actor) && closing == old(closing) - {actor}
      ensures liveActors == old(liveActors) - 1 && registry == old(registry)
      ensures Valid() && Forward(old(View()), View())
    {
      hide Census.Conserved, Census.Count, NamesAreLive, Forward;
      NamesFollow(View(), registry, closing, actor);
      CompleteIsForward(View(), actor);
      completed := completed + {actor};
      ids := ids.Release(actor);
      liveActors := Monus(liveActors, 1);
      inHand := inHand - {actor};
      closing := closing - {actor};
      assert View() == old(View()).Complete(actor);
    }

    /** Naming from outside is for actors in the table. */
    method RegisterName(actor: ActorId, name: string) returns (error: Option<RegistryError>)
      requires Valid()
      modifies this`registry
      ensures Valid()
      ensures error == if Contains(actor) then old(registry).Refusal(actor, name) else Some(NotLive(actor))
      ensures error.None? <==> Contains(actor) && name in registry.byName && registry.byName[name] == actor
      ensures registry == if error.None? then old(registry).Register(actor, name) else old(registry)
    {
      if !Contains(actor) {
        assert actor in registry.byActor ==> actor in inHand;
        return Some(NotLive(actor));
      }
      assert actor !in inHand;
      RegisterResolves(registry, actor, name);
      error := registry.Refusal(actor, name);
      registry := registry.Register(actor, name);
    }

    /** One request, if it applies; the id of a new actor, if there is one. */
    method Perform(request: Request) returns (spawned: Option<ActorId>)
      requires Valid()
      modifies this
      ensures Valid() && Forward(old(View()), View())
      ensures old(ids).Valid() && Now() == After(request, old(Now()), maxActors)
      ensures spawned.Some? ==> !old(ids).Issued(spawned.value) && Contains(spawned.value)
      ensures forall a :: ids.Valid() && ids.Issued(a) && !old(ids).Issued(a) ==> spawned == Some(a) || a in unplaced
      ensures Remembers(old(View()), View())
    {
      hide Census.Conserved, Census.Count, NamesAreLive, Forward, Remembers, Slots.Valid, Slots.Issued, Slots.Allocate, Slots.Release;
      spawned := None;
      ForwardReflexive(View());
      SpawnRemembers(View());
      SlotsAreValid(View());
      ClosingIsInHand(View(), registry, closing);
      NewIds(request, Now(), maxActors);
      ghost var c := View();
      match request {
        case DoSpawn(name) =>
          var outcome := Spawn(name);
          if outcome.Spawned? { spawned := Some(outcome.actor); }
        case DoTake(actor) => var _ := TakeActor(actor);
        case DoReturn(actor) => if actor in inHand && actor !in closing { ReturnActor(actor); }
        case DoBeginFinish(actor) => if actor in inHand && actor !in closing { BeginFinish(actor); }
        case DoCompleteFinish(actor) => if actor in closing { CompleteRemembers(View(), registry, closing, actor); CompleteFinish(actor); }
        case DoRegister(actor, alias) => var _ := RegisterName(actor, alias);
      }
      if ids == c.slots { SameSlotsRemember(c, View()); }
    }

    /**
     * Any history of spawns, turns, ends and namings: each request does what it should, no id is handed
     * out twice, those not handed out were refused, and one that had been retired when it began is
     * neither handed out again nor resolves at its end.
     */
    method Serve(requests: seq<Request>) returns (handedOut: seq<ActorId>, ghost rolls: seq<Rolls>)
      requires Valid()
      modifies this
      ensures Valid() && Forward(old(View()), View())
      ensures AllAfter(requests, rolls, maxActors) && rolls[0] == old(Now()) && rolls[|requests|] == Now()
      ensures forall i :: 0 <= i < |handedOut| ==> !old(ids).Issued(handedOut[i])
      ensures forall i, j :: 0 <= i < j < |handedOut| ==> handedOut[i] != handedOut[j]
      ensures forall a :: ids.Valid() && ids.Issued(a) && !old(ids).Issued(a) ==> a in handedOut || a in unplaced
      ensures forall a :: a in old(completed) || a in old(unplaced) ==>
        a !in handedOut && !Contains(a) && a !in inHand && a !in registry.byActor && a !in registry.byName.Values
    {
      hide Census.Conserved, Census.Count, NamesAreLive, Forward, Remembers, Slots.Issued, After, AllAfter;
      handedOut, rolls := [], [Now()];
      NoRequestYet(Now(), maxActors);
      assert requests[..0] == [];
      ForwardReflexive(View());
      SlotsAreValid(View());
      SameSlotsRemember(View(), View());
      for i := 0 to |requests|
        invariant Valid() && Forward(old(View()), View())
        invariant Remembers(old(View()), View()) && ids.Valid()
        invariant |rolls| == i + 1 && AllAfter(requests[..i], rolls, maxActors) && rolls[0] == old(Now()) && rolls[i] == Now()
        invariant forall a :: ids.Issued(a) && !old(ids).Issued(a) ==> a in handedOut || a in unplaced
        invariant forall i :: 0 <= i < |handedOut| ==> !old(ids).Issued(handedOut[i]) && ids.Issued(handedOut[i])
        invariant forall i, j :: 0 <= i < j < |handedOut| ==> handedOut[i] != handedOut[j]
      {
        ghost var now := View();
        var spawned := Perform(requests[i]);
        ForwardTransitive(old(View()), now, View());
        RemembersTransitive(old(View()), now, View());
        SlotsAreValid(View());
        StillIssued(old(View()), now);
        StillIssued(now, View());
        OneMoreAfter(requests, rolls, maxActors, i, Now());
        rolls := rolls + [Now()];
        RefusedStayRefused(now, View());
        if spawned.Some? {
          LiveIsIssued(View(), spawned.value);
          handedOut := handedOut + [spawned.value];
        }
      }
      assert requests[..|requests|] == requests;
      RetiredAreGone(old(View()), View(), registry, closing);
      RetiredAreIssued(old(View()));
    }

    /** A completed or refused id never resolves again, by id or by name. */
    lemma RetiredIdsNeverResolve(id: ActorId, name: string)
      requires Valid()
      requires id in completed || id in unplaced
      ensures !Contains(id) && !(name in registry.byName && registry.byName[name] == id)
    {
      assert !View().InTable(id) && id !in inHand;
    }
  }

  lemma ForwardReflexive(c: Census)
    ensures Forward(c, c)
  {
  }

  lemma ForwardTransitive(c: Census, d: Census, e: Census)
    requires Forward(c, d) && Forward(d, e)
    ensures Forward(c, e)
  {
  }

  lemma NoRequestYet(r: Rolls, limit: nat)
    ensures AllAfter([], [r], limit)
  {
  }

  lemma RefusedStayRefused(c: Census, d: Census)
    requires Forward(c, d)
    ensures c.unplaced <= d.unplaced
  {
  }

  lemma ClosingIsInHand(c: Census, names: Names, closing: set<ActorId>)
    requires NamesAreLive(c, names, closing)
    ensures forall a :: a in closing ==> a in c.inHand
  {
  }

  lemma SlotsAreValid(c: Census)
    requires c.Conserved()
    ensures c.slots.Valid()
  {
  }

  /** What has been handed out once counts as handed out for ever. */
  ghost predicate Remembers(c: Census, d: Census) {
    c.slots.Valid() && d.slots.Valid() && forall a :: c.slots.Issued(a) ==> d.slots.Issued(a)
  }

  lemma StillIssued(c: Census, d: Census)
    requires Remembers(c, d)
    ensures c.slots.Valid() && d.slots.Valid() && forall a :: c.slots.Issued(a) ==> d.slots.Issued(a)
  {
  }

  lemma RemembersTransitive(c: Census, d: Census, e: Census)
    requires Remembers(c, d) && Remembers(d, e)
    ensures Remembers(c, e)
  {
  }

  lemma SameSlotsRemember(c: Census, d: Census)
    requires c.Conserved() && d.slots == c.slots
    ensures Remembers(c, d)
  {
  }

  lemma SpawnRemembers(c: Census)
    requires c.Conserved()
    ensures Remembers(c, c.Allocated()) && forall a :: Remembers(c, c.Allocated().Insert(a))
  {
    AllocateIsFresh(c.slots);
  }

  lemma CompleteRemembers(c: Census, names: Names, closing: set<ActorId>, a: ActorId)
    requires c.Conserved() && NamesAreLive(c, names, closing) && a in closing
    ensures Remembers(c, c.Complete(a))
  {
    ReleaseRetires(c.slots, a);
  }

  lemma LiveIsIssued(c: Census, a: ActorId)
    requires c.Conserved() && c.InTable(a)
    ensures c.slots.Issued(a)
  {
  }

  lemma RetiredAreIssued(c: Census)
    requires c.Conserved()
    ensures forall a :: a in c.completed || a in c.unplaced ==> c.slots.Issued(a)
  {
  }

  lemma RetiredAreGone(c: Census, d: Census, names: Names, closing: set<ActorId>)
    requires Forward(c, d) && d.Conserved() && NamesAreLive(d, names, closing)
    ensures forall a :: a in c.completed || a in c.unplaced ==>
      !d.InTable(a) && a !in d.inHand && a !in names.byActor && a !in names.byName.Values
  {
  }

  /** The same fact about two moments: once retired, an id is retired in every later census. */
  lemma RetiredStaysRetired(c: Census, d: Census, id: ActorId)
    requires c.Conserved() && d.Conserved() && Forward(c, d)
    requires id in c.completed || id in c.unplaced
    ensures !d.InTable(id) && id !in d.inHand
    ensures d.slots.Allocate().0 != id
  {
    AllocateIsFresh(d.slots);
    assert d.slots.Issued(id);
  }
}
