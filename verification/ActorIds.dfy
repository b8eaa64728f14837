/** Actor ids as reusable slots plus generations. */
module ActorIds {
  import opened Types

  datatype Slots = Slots(nextSlot: nat, freeSlots: seq<nat>, generations: seq<nat>) {

    ghost predicate Valid() {
      && |generations| == nextSlot
      && (forall i :: 0 <= i < |freeSlots| ==> freeSlots[i] < nextSlot)
      && (forall i, j :: 0 <= i < j < |freeSlots| ==> freeSlots[i] != freeSlots[j])
    }

    /** The id has been handed out and not been taken back. */
    ghost predicate Held(id: ActorId)
      requires |generations| == nextSlot
    {
      id.localId < nextSlot && id.localId !in freeSlots && generations[id.localId] == id.generation
    }

    /** The id has been handed out at some time. */
    ghost predicate Issued(id: ActorId)
      requires |generations| == nextSlot
    {
      Held(id) || (id.localId < nextSlot && id.generation < generations[id.localId])
    }

    function Allocate(): (ActorId, Slots)
      requires |generations| == nextSlot && forall i :: 0 <= i < |freeSlots| ==> freeSlots[i] < nextSlot
    {
      if freeSlots != [] then
        var last := |freeSlots| - 1;
        (ActorId(freeSlots[last], generations[freeSlots[last]]), this.(freeSlots := freeSlots[..last]))
      else
        (ActorId(nextSlot, 0), Slots(nextSlot + 1, freeSlots, generations + [0]))
    }

    function Release(id: ActorId): Slots {
      if id.localId >= |generations| || generations[id.localId] != id.generation then this
      else this.(generations := generations[id.localId := id.generation + 1], freeSlots := freeSlots + [id.localId])
    }
  }

  class ActorSlotAllocator {
    var nextSlot: nat
    var freeSlots: seq<nat>
    var generations: seq<nat>

    function View(): Slots
      reads this
    {
      Slots(nextSlot, freeSlots, generations)
    }

    constructor ()
      ensures View() == Slots(0, [], [])
    {
      nextSlot, freeSlots, generations := 0, [], [];
    }

    method Allocate() returns (id: ActorId)
      requires View().Valid()
      modifies this
      ensures (id, View()) == old(View()).Allocate()
    {
      var slot;
      if freeSlots != [] {
        slot := freeSlots[|freeSlots| - 1];
        freeSlots := freeSlots[..|freeSlots| - 1];
      } else {
        slot := nextSlot;
        nextSlot := nextSlot + 1;
        generations := generations + [0];
      }
      id := ActorId(slot, generations[slot]);
    }

    method Release(id: ActorId)
      modifies this
      ensures View() == old(View()).Release(id)
    {
      if id.localId >= |generations| {
        return;
      }
      if generations[id.localId] != id.generation {
        return;
      }
      generations := generations[id.localId := id.generation + 1];
      freeSlots := freeSlots + [id.localId];
    }
  }

  /** Allocation hands out an id that was never handed out, and disturbs no other. */
  lemma AllocateIsFresh(s: Slots)
    requires s.Valid()
    ensures var (id, t) := s.Allocate();
      && t.Valid() && !s.Issued(id) && t.Held(id)
      && (forall other :: other != id ==> (t.Held(other) <==> s.Held(other)) && (t.Issued(other) <==> s.Issued(other)))
  {
    var (id, t) := s.Allocate();
    if s.freeSlots != [] {
      var last := |s.freeSlots| - 1;
      assert s.freeSlots == s.freeSlots[..last] + [s.freeSlots[last]];
    }
    forall other | other != id
      ensures (t.Held(other) <==> s.Held(other)) && (t.Issued(other) <==> s.Issued(other))
    {
    }
  }

  /** The slot freed last is the next to be handed out, under the next generation; nothing else has changed then. */
  lemma LastFreedIsReused(s: Slots, id: ActorId)
    requires s.Valid() && s.Held(id)
    ensures var (again, t) := s.Release(id).Allocate();
      again == ActorId(id.localId, id.generation + 1) && t == s.(generations := s.generations[id.localId := id.generation + 1])
  {
    assert (s.freeSlots + [id.localId])[..|s.freeSlots|] == s.freeSlots;
  }

  /** A new slot is opened exactly if none is free. */
  lemma OpensSlotOnlyIfNoneIsFree(s: Slots)
    requires s.Valid()
    ensures var (id, t) := s.Allocate();
      && (s.freeSlots == [] <==> id.localId == s.nextSlot)
      && t.nextSlot == s.nextSlot + (if s.freeSlots == [] then 1 else 0) && |t.freeSlots| == |s.freeSlots| - (if s.freeSlots == [] then 0 else 1)
  {
  }

  /** Taking back a held id retires it for good: it stays issued and is never held again. */
  lemma ReleaseRetires(s: Slots, id: ActorId)
    requires s.Valid() && s.Held(id)
    ensures var t := s.Release(id);
      && t.Valid() && !t.Held(id) && t.Issued(id)
      && (forall other :: other != id ==> (t.Held(other) <==> s.Held(other)))
      && (forall other :: t.Issued(other) <==> s.Issued(other))
      && t.generations[id.localId] > s.generations[id.localId]
  {
  }

  /**
   * Release is safe for every id except one: the id a free slot will be given next. Handing that
   * one back puts its slot on the free list twice.
   */
  lemma ReleaseIsSafeUnless(s: Slots, id: ActorId)
    requires s.Valid()
    ensures s.Release(id).Valid()
      <==> !(id.localId in s.freeSlots && s.generations[id.localId] == id.generation)
    ensures s.Issued(id) ==> s.Release(id).Valid()
  {
    var t := s.Release(id);
    if id.localId in s.freeSlots && s.generations[id.localId] == id.generation {
      var i :| 0 <= i < |s.freeSlots| && s.freeSlots[i] == id.localId;
      assert t.freeSlots[i] == t.freeSlots[|s.freeSlots|];
    }
  }
}
