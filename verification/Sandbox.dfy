/**
  The sandbox host as a Box turn's worker uses it, and the worker's cleanup over it.
  */
module Sandboxes {
  import opened Protocol

  /** A delivery's sandbox: named after its run and its number. */
  datatype BoxName = BoxName(run: RunId, attempt: nat)

  /** A host of sandboxes. The in-memory one can remove any that is up; another may be stuck with some. */
  class SandboxHost {
    var live: set<BoxName>
    /** Sandboxes the host cannot remove now: none, for the in-memory host. */
    var stuck: set<BoxName>

    constructor ()
      ensures live == {} && stuck == {}
    {
      live, stuck := {}, {};
    }

    method Provision(name: BoxName) returns (ok: bool)
      modifies this`live
      ensures ok <==> name !in old(live)
      ensures live == old(live) + {name}
    {
      if name in live {
        return false;
      }
      live := live + {name};
      return true;
    }

    method Destroy(name: BoxName) returns (ok: bool)
      modifies this`live
      ensures ok <==> name in old(live) && name !in stuck
      ensures live == if ok then old(live) - {name} else old(live)
    {
      if name !in live || name in stuck {
        return false;
      }
      live := live - {name};
      return true;
    }

    method Absent(name: BoxName) returns (absent: bool)
      ensures absent <==> name !in live
    {
      return name !in live;
    }
  }

  /** The sandboxes of a run's deliveries 1 to `attempts`. */
  predicate UpTo(run: RunId, attempts: nat, name: BoxName) {
    name.run == run && 1 <= name.attempt <= attempts
  }

  /**
    Removes the sandboxes of deliveries 1 to `attempts`, each confirmed gone. On success none of them is
    up; a removal that fails stops it there. No other sandbox is touched.
    */
  method CleanBox(host: SandboxHost, run: RunId, attempts: nat) returns (ok: bool)
    modifies host`live
    ensures ok <==> forall name <- old(host.live) :: UpTo(run, attempts, name) ==> name !in host.stuck
    ensures ok ==> forall name <- host.live :: !UpTo(run, attempts, name)
    ensures forall name <- old(host.live) :: !UpTo(run, attempts, name) ==> name in host.live
    ensures host.live <= old(host.live)
  {
    for attempt := 1 to attempts + 1
      invariant host.live <= old(host.live)
      invariant forall name <- host.live :: !UpTo(run, attempt - 1, name)
      invariant forall name <- old(host.live) :: !UpTo(run, attempt - 1, name) ==> name in host.live
      invariant forall name <- old(host.live) :: UpTo(run, attempt - 1, name) ==> name !in host.stuck
    {
      var name := BoxName(run, attempt);
      var absent := host.Absent(name);
      if absent {
        continue;
      }
      var removed := host.Destroy(name);
      if !removed {
        assert UpTo(run, attempts, name);
        return false;
      }
      absent := host.Absent(name);
      if !absent {
        return false;
      }
    }
    return true;
  }
}
