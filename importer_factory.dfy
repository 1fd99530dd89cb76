/** FabricaImportadores: the list of format adapters an import chooses
    from. An adapter is any value of type `A`; what `puedeManear` answers
    for it is the function `accepts` the factory is built with, so the
    bank adapter is one instance (`BankAdapters.CanHandle`) among any. */
module ImporterFactories {
  import opened Wrappers

  /** `obtenerAdaptador` on a list: the first adapter, in registration
      order, that accepts the content, or `NoAdapter` when none does. */
  function FirstAccepting<A>(adapters: seq<A>, accepts: (A, string) -> bool, content: string): (r: Result<A>)
    decreases |adapters|
    ensures r.Ok? <==> exists i :: 0 <= i < |adapters| && accepts(adapters[i], content)
    ensures r.Err? ==> r.error == NoAdapter
    ensures r.Ok? ==>
              exists i :: 0 <= i < |adapters| && adapters[i] == r.value && accepts(adapters[i], content) &&
                          forall j :: 0 <= j < i ==> !accepts(adapters[j], content)
  {
    if |adapters| == 0 then Err(NoAdapter)
    else if accepts(adapters[0], content) then Ok(adapters[0])
    else FirstAccepting(adapters[1..], accepts, content)
  }

  /** Registering an adapter at the end changes no lookup that already
      succeeded; a lookup that failed now finds the new adapter exactly
      when it accepts the content. */
  lemma {:induction false} FirstAcceptingAppend<A>(adapters: seq<A>, a: A, accepts: (A, string) -> bool, content: string)
    decreases |adapters|
    ensures FirstAccepting(adapters, accepts, content).Ok? ==>
              FirstAccepting(adapters + [a], accepts, content) == FirstAccepting(adapters, accepts, content)
    ensures FirstAccepting(adapters, accepts, content).Err? ==>
              FirstAccepting(adapters + [a], accepts, content) == if accepts(a, content) then Ok(a) else Err(NoAdapter)
  {
    if |adapters| > 0 {
      assert (adapters + [a])[1..] == adapters[1..] + [a];
      FirstAcceptingAppend(adapters[1..], a, accepts, content);
    }
  }

  class ImporterFactory<A> {
    var adapters: seq<A>
    const accepts: (A, string) -> bool

    /** A new factory holds no adapter. */
    constructor (accepts: (A, string) -> bool)
      ensures adapters == [] && this.accepts == accepts
    {
      adapters := [];
      this.accepts := accepts;
    }

    /** `obtenerAdaptador`: the first registered adapter that accepts the
        content, or `NoAdapter`. */
    function Get(content: string): (r: Result<A>)
      reads this
      ensures r.Ok? <==> exists i :: 0 <= i < |adapters| && accepts(adapters[i], content)
      ensures r.Err? ==> r.error == NoAdapter
      ensures r.Ok? ==>
                exists i :: 0 <= i < |adapters| && adapters[i] == r.value && accepts(adapters[i], content) &&
                            forall j :: 0 <= j < i ==> !accepts(adapters[j], content)
    {
      FirstAccepting(adapters, accepts, content)
    }

    /** `registrarAdaptador`: the adapter goes at the end, so it is only
        chosen for content no earlier adapter accepts. */
    method Register(a: A)
      modifies this
      ensures adapters == old(adapters) + [a]
      ensures forall content :: old(Get(content)).Ok? ==> Get(content) == old(Get(content))
      ensures forall content :: old(Get(content)).Err? ==> Get(content) == if accepts(a, content) then Ok(a) else Err(NoAdapter)
    {
      ghost var before := adapters;
      adapters := adapters + [a];
      forall content
        ensures FirstAccepting(before, accepts, content).Ok? ==> Get(content) == FirstAccepting(before, accepts, content)
        ensures FirstAccepting(before, accepts, content).Err? ==> Get(content) == if accepts(a, content) then Ok(a) else Err(NoAdapter)
      {
        FirstAcceptingAppend(before, a, accepts, content);
      }
    }

    /** `limpiarAdaptadores`: afterwards every lookup fails. */
    method Clear()
      modifies this
      ensures adapters == []
      ensures forall content :: Get(content) == Err(NoAdapter)
    {
      adapters := [];
    }
  }
}
