/** The mutable state the factory threads through a build. */
module Lifecycle {
  import opened Pipeline

  /** The lifecycle manager: the ordered list of every service registered
      for start and stop. Starting and stopping the services is not part of
      this model; only the registrations the factory makes are. */
  class LifecycleManager {
    var registered: seq<Service>

    constructor ()
      ensures registered == []
    {
      registered := [];
    }

    /** `Register` appends one service. */
    method Register(s: Service)
      modifies this
      ensures registered == old(registered) + [s]
    {
      registered := registered + [s];
    }
  }

  /** The two slices the factory appends to through pointers: the sources
      and the destinations of the regular sync. The factory's callers pass
      both pointers or neither, so one object stands for the pair, and a
      null reference for two nil pointers. */
  class SyncTargets {
    var syncFrom: seq<Service>
    var syncTo: seq<Service>

    constructor ()
      ensures syncFrom == [] && syncTo == []
    {
      syncFrom, syncTo := [], [];
    }
  }
}
