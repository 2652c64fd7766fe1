/** `loadJS`: fetch the player's script bundle once per page. Whether the
    library is already there is the page-wide `window.H5PStandalone`; a fetch
    that fails leaves the returned promise pending for ever. */
module ScriptLoading {

  /** `loaded`: the library object is set on the page; `fetches`: script
      fetches issued so far. */
  datatype LoaderState = LoaderState(loaded: bool, fetches: nat)

  /** The state after one call, and whether the call's promise resolves. */
  datatype LoadOutcome = LoadOutcome(after: LoaderState, resolved: bool)

  const NotLoaded := LoaderState(false, 0)

  /** One call of `loadJS`; `fetchSucceeds` is the outcome of the script fetch,
      consulted only when a fetch is made. */
  function Load(ls: LoaderState, fetchSucceeds: bool): (r: LoadOutcome)
    ensures ls.loaded ==> r == LoadOutcome(ls, true)
    ensures !ls.loaded ==> r.after.fetches == ls.fetches + 1
    ensures r.resolved <==> r.after.loaded
    ensures r.after.loaded <==> ls.loaded || fetchSucceeds
  {
    if ls.loaded then LoadOutcome(ls, true)
    else if fetchSucceeds then LoadOutcome(LoaderState(true, ls.fetches + 1), true)
    else LoadOutcome(LoaderState(false, ls.fetches + 1), false)
  }

  /** Calls of `loadJS` made one after another, each only once the previous
      one has resolved (as the block queue makes them); `outcomes` gives each
      call's fetch outcome. A call that never resolves ends the sequence. */
  function LoadInSequence(ls: LoaderState, outcomes: seq<bool>): LoaderState
    decreases |outcomes|
  {
    if outcomes == [] then ls
    else
      var r := Load(ls, outcomes[0]);
      if r.resolved then LoadInSequence(r.after, outcomes[1..]) else r.after
  }

  /** Once the library is loaded, later calls resolve without fetching. */
  lemma {:induction false} LoadedStaysCached(ls: LoaderState, outcomes: seq<bool>)
    requires ls.loaded
    ensures LoadInSequence(ls, outcomes) == ls
  {
    if outcomes != [] {
      LoadedStaysCached(ls, outcomes[1..]);
    }
  }

  /** However many calls are made in sequence, the script is fetched at most
      once, and after a successful fetch the library stays loaded. */
  lemma {:induction false} FetchedAtMostOnce(outcomes: seq<bool>)
    ensures LoadInSequence(NotLoaded, outcomes).fetches <= 1
    ensures outcomes != [] && outcomes[0] ==> LoadInSequence(NotLoaded, outcomes) == LoaderState(true, 1)
  {
    if outcomes != [] && outcomes[0] {
      LoadedStaysCached(LoaderState(true, 1), outcomes[1..]);
    }
  }

  /** The page's `loadJS` guard. */
  class ScriptLoader {
    var loaded: bool
    var fetches: nat

    function State(): LoaderState
      reads this
    {
      LoaderState(loaded, fetches)
    }

    constructor ()
      ensures State() == NotLoaded
    {
      loaded, fetches := false, 0;
    }

    /** `loadJS()`: `resolved` is false when the promise never settles. */
    method LoadJs(fetchSucceeds: bool) returns (resolved: bool)
      modifies this
      ensures LoadOutcome(State(), resolved) == Load(old(State()), fetchSucceeds)
    {
      if loaded {
        resolved := true;
      } else {
        fetches := fetches + 1;
        if fetchSucceeds {
          loaded := true;
          resolved := true;
        } else {
          resolved := false;
        }
      }
    }
  }
}
