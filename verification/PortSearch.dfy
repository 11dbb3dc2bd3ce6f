/**
 `PortScanner` and the primary port check of `node_utilities.py`.  What is in use is fixed while one
 search runs; checking a port reserves nothing.
 */
module PortSearch {
  import opened Wrappers
  import opened NodeParts

  /** Which ports the host and the router have in use. */
  datatype Occupancy = Occupancy(host: int -> bool, router: int -> bool)

  /** The rule of `is_port_in_use`: the router only counts for a node that is neither local nor hosted. */
  predicate InUse(o: Occupancy, local: bool, hosted: bool, hasRouter: bool, port: int) {
    o.host(port) || (!local && !hosted && hasRouter && o.router(port))
  }

  ghost predicate LeastFree(o: Occupancy, local: bool, hosted: bool, hasRouter: bool, start: int, port: int) {
    && start <= port && !InUse(o, local, hosted, hasRouter, port)
    && forall p :: start <= p < port ==> InUse(o, local, hosted, hasRouter, p)
  }

  lemma LeastFreeIsUnique(o: Occupancy, local: bool, hosted: bool, hasRouter: bool, start: int, p: int, q: int)
    requires LeastFree(o, local, hosted, hasRouter, start, p) && LeastFree(o, local, hosted, hasRouter, start, q)
    ensures p == q
  {
  }

  class PortScanner {
    const config: NodeConfig
    const router: Router
    const hasRouter: bool
    const occupancy: Occupancy

    constructor (config: NodeConfig, router: Router, hasRouter: bool, occupancy: Occupancy)
      ensures this.config == config && this.router == router && this.hasRouter == hasRouter
              && this.occupancy == occupancy
    {
      this.config, this.router, this.hasRouter, this.occupancy := config, router, hasRouter, occupancy;
    }

    method CheckZmqBind(port: int) returns (occupied: bool)
      ensures occupied == occupancy.host(port)
    {
      occupied := occupancy.host(port);
    }

    method IsPortInUse(port: int) returns (used: bool)
      ensures used == InUse(occupancy, config.local, config.hosted, hasRouter, port)
      ensures config.local || config.hosted || !hasRouter ==> used == occupancy.host(port)
      ensures !config.local && !config.hosted && hasRouter ==> used == (occupancy.host(port) || occupancy.router(port))
    {
      var bound := CheckZmqBind(port);
      if config.local || config.hosted {
        return bound;
      }
      var mapped := false;
      if hasRouter {
        mapped := occupancy.router(port);
      }
      used := bound || mapped;
    }

    method Announce(port: int)
      modifies router
      ensures router.forwards == if !config.local && !config.hosted && hasRouter
                                 then old(router.forwards)[port := router.ownAddress]
                                 else old(router.forwards)
      ensures router.ownAddress == old(router.ownAddress)
    {
      if !config.local && !config.hosted && hasRouter {
        router.ForwardPort(port, None, false);
      }
    }

    /**
     `find_available_port(is_primary=True)`: the search ends if any port from the starting one on is
     free, and finds the least such port.
     */
    method FindPrimaryPort() returns (port: int)
      requires exists p :: config.startingPort <= p && !InUse(occupancy, config.local, config.hosted, hasRouter, p)
      modifies config`primaryPort, router
      ensures LeastFree(occupancy, config.local, config.hosted, hasRouter, config.startingPort, port)
      ensures config.startingPort <= port && !occupancy.host(port)
      ensures var managed := !config.local && !config.hosted && hasRouter;
              && (managed ==> !occupancy.router(port))
              && forall p :: config.startingPort <= p < port ==> occupancy.host(p) || (managed && occupancy.router(p))
      ensures config.primaryPort == port
      ensures router.forwards == if !config.local && !config.hosted && hasRouter
                                 then old(router.forwards)[port := router.ownAddress]
                                 else old(router.forwards)
    {
      ghost var free :| config.startingPort <= free && !InUse(occupancy, config.local, config.hosted, hasRouter, free);
      var candidate := config.startingPort;
      while true
        invariant config.startingPort <= candidate <= free
        invariant forall p :: config.startingPort <= p < candidate ==>
                    InUse(occupancy, config.local, config.hosted, hasRouter, p)
        invariant router.forwards == old(router.forwards) && router.ownAddress == old(router.ownAddress)
        decreases free - candidate
      {
        var used := IsPortInUse(candidate);
        if !used {
          config.primaryPort := candidate;
          break;
        }
        candidate := candidate + 1;
      }
      Announce(candidate);
      port := candidate;
      forall p | config.startingPort <= p < port
        ensures occupancy.host(p) || (!config.local && !config.hosted && hasRouter && occupancy.router(p))
      {
        assert InUse(occupancy, config.local, config.hosted, hasRouter, p);
      }
    }

    /**
     `find_available_port(is_primary=False)` over a sequence of random draws: the first free one, or
     none as long as every draw is in use.
     */
    method FindTransferPort(draws: seq<int>) returns (port: Option<int>)
      modifies router
      ensures port.None? <==>
              forall i :: 0 <= i < |draws| ==> InUse(occupancy, config.local, config.hosted, hasRouter, draws[i])
      ensures port.Some? ==>
                exists i :: 0 <= i < |draws| && draws[i] == port.value
                  && !InUse(occupancy, config.local, config.hosted, hasRouter, draws[i])
                  && forall j :: 0 <= j < i ==> InUse(occupancy, config.local, config.hosted, hasRouter, draws[j])
      ensures router.forwards == if port.Some? && !config.local && !config.hosted && hasRouter
                                 then old(router.forwards)[port.value := router.ownAddress] else old(router.forwards)
    {
      for i := 0 to |draws|
        invariant forall j :: 0 <= j < i ==> InUse(occupancy, config.local, config.hosted, hasRouter, draws[j])
        invariant router.forwards == old(router.forwards) && router.ownAddress == old(router.ownAddress)
      {
        var used := IsPortInUse(draws[i]);
        if !used {
          Announce(draws[i]);
          return Some(draws[i]);
        }
      }
      port := None;
    }

    /**
     `verify_primary_port`: afterwards the primary port passed a bind check.  It is kept if it can be
     bound, and otherwise replaced by the least free port.
     */
    method VerifyPrimaryPort()
      requires occupancy.host(config.primaryPort) ==>
                 exists p :: config.startingPort <= p && !InUse(occupancy, config.local, config.hosted, hasRouter, p)
      modifies config`primaryPort, router
      ensures !occupancy.host(config.primaryPort)
      ensures if !occupancy.host(old(config.primaryPort)) then config.primaryPort == old(config.primaryPort)
              else LeastFree(occupancy, config.local, config.hosted, hasRouter, config.startingPort, config.primaryPort)
      ensures router.forwards == if !config.local && !config.hosted && hasRouter
                                 then old(router.forwards)[config.primaryPort := router.ownAddress]
                                 else old(router.forwards)
    {
      var occupied := CheckZmqBind(config.primaryPort);
      if occupied {
        var port := FindPrimaryPort();
      } else {
        Announce(config.primaryPort);
      }
    }
  }
}
