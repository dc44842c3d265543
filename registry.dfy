/**
 * The registry of the vehicle-counting engine: a dictionary from lane id to
 * the service most recently built for that lane. Its one job is to cancel
 * the pending debounce timer of the previous service of a lane before the
 * next event of that lane is handled, so that at most one timer per lane is
 * ever pending and a replaced service never fires.
 *
 * The ghost set `created` holds every service this registry has built; the
 * invariant `Valid` says that the only one of them that may be armed is the
 * one cached under its lane id.
 */
module CountingRegistry {
  import opened LaneService

  class VehicleCounting {
    /** The currently cached services. */
    var services: map<string, Service>
    /** Every service this registry has built. */
    ghost var created: set<Service>

    ghost predicate Valid()
      reads this, created
    {
      && services.Values <= created
      && (forall id | id in services :: services[id].laneId == id)
      && (forall s | s in created && s.armed :: s.laneId in services && services[s.laneId] == s)
    }

    /** The cached service of a lane, as a frame. */
    function Cached(laneId: string): set<Service>
      reads this
    {
      if laneId in services then {services[laneId]} else {}
    }

    constructor ()
      ensures Valid() && services == map[] && created == {}
    {
      services := map[];
      created := {};
    }

    /**
     * Build a fresh service for the lane, cancel the timer of the one cached
     * for that lane, cache the new one in its place and let it handle the event.
     */
    method HandleEvent(info: LaneInfo, ev: EventReceived)
      requires Valid()
      modifies this, Cached(info.id)
      ensures Valid()
      ensures info.id in services && fresh(services[info.id])
      ensures services == old(services)[info.id := services[info.id]]
      ensures created == old(created) + {services[info.id]}
      ensures services[info.id].Snapshot() == AfterEvent(Initial(info), ev)
      ensures info.id in old(services) ==>
        old(services[info.id]).Snapshot() == Cancelled(old(services[info.id].Snapshot()))
    {
      var service := new Service(info);
      if service.laneId in services {
        services[service.laneId].CancelTimeout();
      }
      services := services[service.laneId := service];
      created := created + {service};
      service.Handle(ev);
    }

    /** The pending timer of a lane expires. */
    method FireTimer(laneId: string)
      requires Valid() && laneId in services && services[laneId].armed
      modifies services[laneId]
      ensures Valid()
      ensures services[laneId].Snapshot() == AfterFire(old(services[laneId].Snapshot()))
    {
      services[laneId].Fire();
    }

    /** Remove a lane's service from the cache, cancelling its timer. */
    method ClearState(laneId: string)
      requires Valid()
      modifies this, Cached(laneId)
      ensures Valid() && created == old(created)
      ensures services == old(services) - {laneId}
      ensures laneId in old(services) ==>
        old(services[laneId]).Snapshot() == Cancelled(old(services[laneId].Snapshot()))
    {
      if laneId in services {
        services[laneId].CancelTimeout();
        services := services - {laneId};
      }
    }

    /** Remove every service from the cache, cancelling every timer. */
    method ClearCache()
      requires Valid()
      modifies this, services.Values
      ensures Valid() && created == old(created)
      ensures services == map[]
      ensures forall s | s in created :: !s.armed
      ensures forall id | id in old(services) ::
        old(services[id]).Snapshot() == Cancelled(old(services[id].Snapshot()))
    {
      var keys := services.Keys;
      while keys != {}
        invariant services == old(services) && created == old(created) && keys <= services.Keys
        invariant forall id | id in services :: services[id].laneId == id
        invariant forall id | id in services && id !in keys ::
          services[id].Snapshot() == Cancelled(old(services[id].Snapshot()))
        invariant forall id | id in keys :: services[id].Snapshot() == old(services[id].Snapshot())
        decreases keys
      {
        var id :| id in keys;
        services[id].CancelTimeout();
        keys := keys - {id};
      }
      assert forall s | s in created :: !s.armed by {
        forall s | s in created
          ensures !s.armed
        {
          if s in old(services.Values) {
            var id :| id in services && services[id] == s;
          }
        }
      }
      services := map[];
    }
  }

  /** Every service of the registry other than the one cached for a lane is idle. */
  lemma AtMostOneTimerPerLane(r: VehicleCounting, s: Service, t: Service)
    requires r.Valid()
    requires s in r.created && t in r.created && s.armed && t.armed
    requires s.laneId == t.laneId
    ensures s == t
  {
  }
}
