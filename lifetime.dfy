// The process-wide device instance counter that decides when LibOVR is
// initialised (ovr_Initialize) and shut down (ovr_Shutdown). The source keeps it
// in a std::atomic; the model is the sequential counter.
module LibOvrLifetime {

  datatype LibCall = Initialize | Shutdown

  /** The library calls alternate, starting with Initialize. */
  ghost predicate Alternating(calls: seq<LibCall>)
  {
    forall i :: 0 <= i < |calls| ==> calls[i] == (if i % 2 == 0 then Initialize else Shutdown)
  }

  /** LibOVR is up: the last library call made was Initialize. */
  predicate LibraryUp(calls: seq<LibCall>)
  {
    |calls| > 0 && calls[|calls| - 1] == Initialize
  }

  class InstanceCounter {
    var count: nat
    var calls: seq<LibCall>

    /** The calls alternate, and LibOVR is up exactly while some device is alive. */
    ghost predicate Valid()
      reads this
    {
      Alternating(calls) && (count > 0 <==> |calls| % 2 == 1)
    }

    constructor ()
      ensures Valid() && count == 0 && calls == []
    {
      count, calls := 0, [];
    }

    /** `if (!COUNT++) ovr_Initialize()`: the first live device initialises LibOVR. */
    method Acquire()
      requires Valid()
      modifies this
      ensures Valid()
      ensures count == old(count) + 1
      ensures calls == old(calls) + (if old(count) == 0 then [Initialize] else [])
      ensures LibraryUp(calls)
    {
      if count == 0 {
        calls := calls + [Initialize];
      }
      count := count + 1;
    }

    /**
     * `if (!--COUNT) ovr_Shutdown()`: the last destroyed device shuts LibOVR down.
     * A destructor only runs after its constructor, so the count is positive.
     */
    method Release()
      requires Valid() && count > 0
      modifies this
      ensures Valid()
      ensures count == old(count) - 1
      ensures calls == old(calls) + (if old(count) == 1 then [Shutdown] else [])
      ensures LibraryUp(calls) <==> count > 0
    {
      count := count - 1;
      if count == 0 {
        calls := calls + [Shutdown];
      }
    }
  }
}
