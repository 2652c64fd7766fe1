/** The block queue as the page holds it: the shared queue and flag, the
    worker's position, the `loadJS` guard, the mount elements, the subscribed
    xAPI handlers and the POSTs issued. Each method is specified by the
    `BlockQueue` step it performs, and keeps the page invariant. */
module Scheduler {
  import opened Js
  import opened ScriptLoading
  import opened Init
  import opened BlockQueue

  class BlockScheduler {
    /** `typeof require === "function"` on this page. */
    const usesModuleLoader: bool
    const loader: ScriptLoader
    /** `window.H5PBlocksQueue` exists. */
    var queueCreated: bool
    /** `window.H5PBlocksQueue` */
    var queue: seq<Entry>
    /** `window.H5PBlocksQueueProcessing` */
    var processing: bool
    var worker: Worker
    var dom: map<string, Mount>
    var listeners: seq<Entry>
    var posts: seq<Post>
    ghost var enqueued: seq<Entry>
    ghost var started: seq<Entry>
    ghost var finished: seq<Entry>

    ghost function Model(): Page
      reads this, loader
    {
      Page(usesModuleLoader, queueCreated, queue, processing, worker, loader.State(),
           dom, listeners, posts, enqueued, started, finished)
    }

    ghost predicate Valid()
      reads this, loader
    {
      Inv(Model())
    }

    constructor (usesModuleLoader: bool, dom: map<string, Mount>)
      ensures Valid() && fresh(loader)
      ensures Model() == Initial(usesModuleLoader, dom)
    {
      this.usesModuleLoader := usesModuleLoader;
      loader := new ScriptLoader();
      queueCreated, queue, processing, worker := false, [], false, Idle;
      this.dom, listeners, posts := dom, [], [];
      enqueued, started, finished := [], [], [];
      new;
      InitialInv(usesModuleLoader, dom);
    }

    /** `H5PPlayerXBlock(runtime, element, args)` */
    method PlayerXBlock(e: Entry)
      requires Valid()
      modifies this
      ensures Valid()
      ensures Model() == Embed(old(Model()), e)
    {
      EmbedPreservesInv(Model(), e);
      if !queueCreated {
        queueCreated, queue, processing := true, [], false;
      }
      queue := queue + [e];
      enqueued := enqueued + [e];
      if !processing {
        ProcessNextBlock();
      }
    }

    /** The synchronous part of `processNextBlock`. */
    method ProcessNextBlock()
      modifies this
      ensures Model() == ProcessNext(old(Model()))
    {
      processing := true;
      if |queue| > 0 {
        var head := queue[0];
        queue := queue[1..];
        started := started + [head];
        worker := Awaiting(head);
      } else {
        processing := false;
        worker := Idle;
      }
    }

    /** `initH5PBlock` for the entry's mount element, run to its settlement. */
    method InitH5PBlock(e: Entry, inputs: Inputs) returns (s: Settlement, constructed: bool)
      modifies loader
      ensures InitRun(s, loader.State(), constructed)
           == Init.InitH5PBlock(usesModuleLoader, old(loader.State()), MountOf(dom, e), inputs)
    {
      var mount := MountOf(dom, e);
      if usesModuleLoader {
        if !inputs.libraryArrives {
          s := Pending;
        } else {
          s := ThroughModuleLoader(InitWithH5P(mount, inputs.construction));
        }
      } else {
        var resolved := loader.LoadJs(inputs.libraryArrives);
        if !resolved {
          s := Pending;
        } else {
          s := InitWithH5P(mount, inputs.construction);
        }
      }
      constructed := s == Resolved(SuccessMarker);
    }

    /** The initialisation the worker awaits settles; the worker goes on after
        its `await` only on resolution. */
    method InitSettled(inputs: Inputs)
      requires Valid()
      modifies this, loader
      ensures Valid()
      ensures Model() == Resume(old(Model()), inputs)
    {
      ResumePreservesInv(Model(), inputs);
      match worker
      case Awaiting(e) => {
        var s, constructed := InitH5PBlock(e, inputs);
        if constructed {
          dom := dom[MountElementId(e) := HasWrapper];
          listeners := listeners + [e];
        }
        match s {
          case Resolved(_) =>
            finished := finished + [e];
            ProcessNextBlock();
          case Rejected(_) =>
            worker := Aborted(e);
          case Pending =>
            worker := Hung(e);
        }
      }
      case _ => {
      }
    }

    /** A player emits an xAPI event; every subscribed handler runs. */
    method OnXApi(event: Json)
      requires Valid()
      modifies this`posts
      ensures Valid()
      ensures Model() == Emit(old(Model()), event)
    {
      EmitPreservesInv(Model(), event);
      posts := posts + Dispatch(listeners, event);
    }
  }

  /** Two blocks embedded one after the other on a fresh page: the first
      starts the worker at once, the second waits in the queue until the
      first has resolved. */
  method TwoBlocksInOrder(a: Entry, b: Entry, dom: map<string, Mount>)
  {
    var page := new BlockScheduler(false, dom);
    page.PlayerXBlock(a);
    assert page.worker == Awaiting(a) && page.queue == [];
    page.PlayerXBlock(b);
    assert page.worker == Awaiting(a) && page.queue == [b];
    page.InitSettled(Inputs(true, Constructs));
    assert page.worker == Awaiting(b) && page.queue == [] && page.loader.fetches == 1;
    page.InitSettled(Inputs(true, Constructs));
    assert page.worker == Idle && !page.processing && page.finished == [a, b];
    assert page.loader.fetches == 1;
  }
}
