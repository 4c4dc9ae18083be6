/**
 The service registry: one dictionary from a service's type to the service
 object. The first registration of a type wins, lookups of an absent type
 give the default value, and entries can be removed one at a time or all at
 once.
 */
module Services {
  import opened Engine

  /** The type a service is registered under (`typeof(T)`). */
  type TypeKey = string

  /** The registry. The source keeps a single static dictionary; here it is
      the one field of a registry object, and `None` is the `default` a
      lookup of an absent type returns. */
  class ServiceLocator<S> {
    var services: map<TypeKey, S>

    constructor ()
      ensures services == map[]
    {
      services := map[];
    }

    /** The service registered under `t`, or `None`. */
    function Get(t: TypeKey): (r: Option<S>)
      reads this
      ensures r.Some? <==> t in services
      ensures r.Some? ==> r.value == services[t]
    {
      if t in services then Some(services[t]) else None
    }

    /** Stores `service` under `t` unless `t` is already taken. */
    method Register(t: TypeKey, service: S)
      modifies this
      ensures t in old(services) ==> services == old(services)
      ensures t !in old(services) ==> services == old(services)[t := service]
      ensures Get(t) == (if t in old(services) then old(Get(t)) else Some(service))
      ensures forall u :: u != t ==> Get(u) == old(Get(u))
    {
      if t in services {
        return;
      }
      services := services[t := service];
    }

    /** Removes the entry for `t`, if there is one. */
    method Unregister(t: TypeKey)
      modifies this
      ensures services == old(services) - {t}
      ensures t !in old(services) ==> services == old(services)
      ensures Get(t) == None
      ensures forall u :: u != t ==> Get(u) == old(Get(u))
    {
      services := services - {t};
    }

    /** Removes every entry. */
    method Clear()
      modifies this
      ensures services == map[]
      ensures forall u :: Get(u) == None
    {
      services := map[];
    }
  }

  /** Registering a new type and unregistering it again leaves the registry
      as it was. */
  method RegisterThenUnregister<S>(locator: ServiceLocator<S>, t: TypeKey, service: S)
    requires t !in locator.services
    modifies locator
    ensures locator.services == old(locator.services)
  {
    locator.Register(t, service);
    locator.Unregister(t);
  }

  /** A second registration under a taken type changes nothing: the first
      one wins. */
  method FirstRegistrationWins<S>(locator: ServiceLocator<S>, t: TypeKey, first: S, second: S)
    requires t !in locator.services
    modifies locator
    ensures locator.Get(t) == Some(first)
    ensures locator.services == old(locator.services)[t := first]
  {
    locator.Register(t, first);
    locator.Register(t, second);
  }
}
