/** One name per actor and one actor per name. */
module Registries {
  import opened Types

  datatype RegistryError =
    | NameTaken(name: string, owner: ActorId)
    | AlreadyRegistered(actor: ActorId, name: string)
    | NotLive(actor: ActorId)

  /** The registry as a value: two indexes that are inverse to each other. */
  datatype Names = Names(byName: map<string, ActorId>, byActor: map<ActorId, string>) {

    ghost predicate Inverse() {
      && (forall n :: n in byName ==> byName[n] in byActor && byActor[byName[n]] == n)
      && (forall a :: a in byActor ==> byActor[a] in byName && byName[byActor[a]] == a)
    }

    function Refusal(actor: ActorId, name: string): Option<RegistryError> {
      if actor in byActor then
        if byActor[actor] == name then None else Some(AlreadyRegistered(actor, byActor[actor]))
      else if name in byName then Some(NameTaken(name, byName[name]))
      else None
    }

    function Register(actor: ActorId, name: string): Names {
      if actor in byActor || name in byName then this
      else Names(byName[name := actor], byActor[actor := name])
    }

    function Unregister(actor: ActorId): Names {
      if actor !in byActor then this
      else Names(byName - {byActor[actor]}, byActor - {actor})
    }
  }

  /** Success means the name now resolves to the actor, and it is refused only when it cannot. */
  lemma RegisterResolves(r: Names, actor: ActorId, name: string)
    requires r.Inverse()
    ensures r.Register(actor, name).Inverse()
    ensures r.Refusal(actor, name).None?
      <==> name in r.Register(actor, name).byName && r.Register(actor, name).byName[name] == actor
    ensures r.Refusal(actor, name).Some? ==> r.Register(actor, name) == r
    ensures forall other :: other != actor ==>
      (other in r.Register(actor, name).byActor <==> other in r.byActor)
  {
  }

  /** Unregistering undoes a registration, and frees exactly the one name. */
  lemma UnregisterUndoes(r: Names, actor: ActorId, name: string)
    requires r.Inverse()
    ensures r.Unregister(actor).Inverse() && actor !in r.Unregister(actor).byActor
    ensures forall n :: n in r.byName && r.byName[n] != actor ==>
      n in r.Unregister(actor).byName && r.Unregister(actor).byName[n] == r.byName[n]
    ensures actor !in r.byActor && r.Refusal(actor, name).None? ==>
      r.Register(actor, name).Unregister(actor) == r
  {
    if actor !in r.byActor && name !in r.byName {
      assert r.byName[name := actor] - {name} == r.byName;
      assert r.byActor[actor := name] - {actor} == r.byActor;
    }
  }

  class Registry {
    var byName: map<string, ActorId>
    var byActor: map<ActorId, string>

    function View(): Names
      reads this
    {
      Names(byName, byActor)
    }

    constructor ()
      ensures View() == Names(map[], map[]) && View().Inverse()
    {
      byName, byActor := map[], map[];
    }

    method Register(actor: ActorId, name: string) returns (error: Option<RegistryError>)
      modifies this
      ensures error == old(View()).Refusal(actor, name)
      ensures View() == old(View()).Register(actor, name)
    {
      if actor in byActor {
        if byActor[actor] == name {
          return None;
        }
        return Some(AlreadyRegistered(actor, byActor[actor]));
      }
      if name in byName {
        return Some(NameTaken(name, byName[name]));
      }
      byName := byName[name := actor];
      byActor := byActor[actor := name];
      return None;
    }

    method Unregister(actor: ActorId) returns (name: Option<string>)
      modifies this
      ensures name == if actor in old(byActor) then Some(old(byActor[actor])) else None
      ensures View() == old(View()).Unregister(actor)
    {
      if actor !in byActor {
        return None;
      }
      name := Some(byActor[actor]);
      byName := byName - {byActor[actor]};
      byActor := byActor - {actor};
    }
  }
}
