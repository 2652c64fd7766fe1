/** How one block's initialisation settles: `initWithH5P` (mount check and
    player construction) and `initH5PBlock` (load the library by the module
    loader or by `loadJS`, then `initWithH5P`). The third-party outcomes are
    inputs. */
module Init {
  import opened ScriptLoading

  /** The mount element `h5p-<player_id>`: not in the page, in the page without
      an `.h5p-iframe-wrapper` child, or already holding one. */
  datatype Mount = Absent | Ready | HasWrapper

  /** Outcome of `await new H5PStandalone.H5P(...)` together with the
      subscription to the global dispatcher that follows it. */
  datatype Construction = Constructs | Throws(message: string) | Stalls

  /** The third-party outcomes one initialisation depends on. `libraryArrives`:
      the module loader calls back with the library, or the script fetch
      succeeds (consulted only when a fetch is made). */
  datatype Inputs = Inputs(libraryArrives: bool, construction: Construction)

  /** The value an initialisation resolves with: `undefined` when nothing was
      constructed, the success marker otherwise. */
  datatype InitValue = NoValue | SuccessMarker

  datatype Settlement = Resolved(value: InitValue) | Rejected(reason: string) | Pending

  /** A mount point that `initWithH5P` leaves alone. */
  predicate Skips(mount: Mount) {
    mount != Ready
  }

  /** `initWithH5P`: nothing is constructed for a missing or already
      initialised mount point and the promise resolves with no value; a
      construction error becomes a rejection with its message. */
  function InitWithH5P(mount: Mount, c: Construction): (r: Settlement)
    ensures r == Resolved(NoValue) <==> Skips(mount)
    ensures r == Resolved(SuccessMarker) <==> !Skips(mount) && c == Constructs
    ensures r.Rejected? <==> !Skips(mount) && c.Throws?
    ensures r.Rejected? ==> r.reason == c.message
  {
    if Skips(mount) then Resolved(NoValue)
    else
      match c
      case Constructs => Resolved(SuccessMarker)
      case Throws(message) => Rejected(message)
      case Stalls => Pending
  }

  /** The promise built around the module loader's callback is resolved by
      `.then(resolve)` only: a rejection of `initWithH5P` leaves it pending. */
  function ThroughModuleLoader(s: Settlement): (r: Settlement)
    ensures !r.Rejected?
    ensures r.Resolved? <==> s.Resolved?
    ensures r.Resolved? ==> r == s
  {
    if s.Rejected? then Pending else s
  }

  /** One run of `initH5PBlock`: how it settles, the loader state after it,
      and whether a player was constructed and subscribed. */
  datatype InitRun = InitRun(settlement: Settlement, loader: LoaderState, constructed: bool)

  /** The library is on hand when the module loader calls back, or when
      `loadJS` resolves. */
  predicate LibraryAvailable(usesModuleLoader: bool, loader: LoaderState, inputs: Inputs) {
    if usesModuleLoader then inputs.libraryArrives else loader.loaded || inputs.libraryArrives
  }

  /** `initH5PBlock`, with `usesModuleLoader` the page's `typeof require === "function"`. */
  function InitH5PBlock(usesModuleLoader: bool, loader: LoaderState, mount: Mount, inputs: Inputs): (r: InitRun)
    // the script is fetched only by `loadJS`, and only when not yet loaded
    ensures r.loader.fetches == loader.fetches + (if !usesModuleLoader && !loader.loaded then 1 else 0)
    ensures usesModuleLoader ==> r.loader == loader
    ensures loader.loaded ==> r.loader == loader
    // it resolves when the library is on hand and the mount is skipped or the player is built
    ensures r.settlement.Resolved? <==>
      LibraryAvailable(usesModuleLoader, loader, inputs) && (Skips(mount) || inputs.construction == Constructs)
    // only the `loadJS` path can reject, and only with a construction error
    ensures r.settlement.Rejected? <==>
      !usesModuleLoader && LibraryAvailable(usesModuleLoader, loader, inputs) && !Skips(mount) && inputs.construction.Throws?
    // a skipped mount constructs nothing and resolves with no value, if it settles at all
    ensures Skips(mount) ==> !r.constructed && r.settlement in {Resolved(NoValue), Pending}
    ensures r.constructed <==> r.settlement == Resolved(SuccessMarker)
    // a player is built exactly when the library is on hand, the mount is ready and construction succeeds
    ensures r.constructed <==>
      LibraryAvailable(usesModuleLoader, loader, inputs) && !Skips(mount) && inputs.construction == Constructs
    // on the `loadJS` path the loader state is that after one `loadJS` call
    ensures !usesModuleLoader ==> r.loader == Load(loader, inputs.libraryArrives).after
  {
    if usesModuleLoader then
      if !inputs.libraryArrives then InitRun(Pending, loader, false)
      else
        var s := ThroughModuleLoader(InitWithH5P(mount, inputs.construction));
        InitRun(s, loader, s == Resolved(SuccessMarker))
    else
      var load := Load(loader, inputs.libraryArrives);
      if !load.resolved then InitRun(Pending, load.after, false)
      else
        var s := InitWithH5P(mount, inputs.construction);
        InitRun(s, load.after, s == Resolved(SuccessMarker))
  }

  /** With the library on hand and every construction succeeding, every
      initialisation resolves, on either loading path. */
  lemma SucceedingInputsResolve(usesModuleLoader: bool, loader: LoaderState, mount: Mount)
    ensures InitH5PBlock(usesModuleLoader, loader, mount, Inputs(true, Constructs)).settlement.Resolved?
  {
  }
}
