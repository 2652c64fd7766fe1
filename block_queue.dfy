/** The page-wide block queue as a state machine: each `H5PPlayerXBlock` call
    appends an entry and starts the worker only when none is running; the
    worker shifts one entry at a time and awaits its initialisation before it
    looks at the queue again. Asynchrony is reduced to discrete steps: an
    embed call, the settling of the initialisation the worker awaits, and an
    xAPI event emitted by a player. */
module BlockQueue {
  import opened Js
  import opened XApi
  import opened ScriptLoading
  import opened Init

  /** A block on the page; it determines the block's handler URLs. */
  type BlockId = nat

  /** One `H5PPlayerXBlock(runtime, element, args)` call: `block` stands for
      `runtime` and `element`, `playerId` for `args.player_id`. */
  datatype Entry = Entry(block: BlockId, playerId: string)

  /** The id of the entry's mount element, `"h5p-" + args.player_id`. */
  function MountElementId(e: Entry): (id: string)
    ensures |id| == |e.playerId| + 4 && id[..4] == "h5p-" && id[4..] == e.playerId
  {
    "h5p-" + e.playerId
  }

  /** Two entries share a mount element exactly when they have the same player id. */
  lemma SameMountIffSamePlayer(a: Entry, b: Entry)
    ensures MountElementId(a) == MountElementId(b) <==> a.playerId == b.playerId
  {
    if MountElementId(a) == MountElementId(b) {
      assert a.playerId == MountElementId(a)[4..];
    }
  }

  /** What `getElementById` and the `.h5p-iframe-wrapper` test find: a missing
      element is `Absent`, a present one is as the page holds it. */
  function MountOf(dom: map<string, Mount>, e: Entry): (m: Mount)
    ensures MountElementId(e) !in dom ==> m == Absent
    ensures m != Absent ==> MountElementId(e) in dom && dom[MountElementId(e)] == m
  {
    if MountElementId(e) in dom then dom[MountElementId(e)] else Absent
  }

  /** Where the worker (`processNextBlock`) is: not running; suspended at the
      `await` of an entry's initialisation; ended by that initialisation's
      rejection; or waiting for an initialisation that never settles. */
  datatype Worker = Idle | Awaiting(entry: Entry) | Aborted(entry: Entry) | Hung(entry: Entry)

  predicate Stalled(w: Worker) {
    w.Aborted? || w.Hung?
  }

  /** The entry whose initialisation has begun and not resolved. */
  function InFlight(w: Worker): seq<Entry> {
    match w
    case Idle => []
    case Awaiting(e) => [e]
    case Aborted(e) => [e]
    case Hung(e) => [e]
  }

  /** A POST of a statement to a block's result handler. */
  datatype Post = Post(block: BlockId, body: Json)

  /** The page: `window.H5PBlocksQueue` (created or not, and its contents),
      `window.H5PBlocksQueueProcessing`, the worker, the `loadJS` guard, the
      mount elements, the xAPI handlers on the global dispatcher (one per
      constructed player), and the POSTs issued. `enqueued`, `started` and
      `finished` record the entries embedded, shifted off by the worker, and
      whose initialisation resolved, in order. */
  datatype Page = Page(
    usesModuleLoader: bool,
    queueCreated: bool,
    queue: seq<Entry>,
    processing: bool,
    worker: Worker,
    loader: LoaderState,
    dom: map<string, Mount>,
    listeners: seq<Entry>,
    posts: seq<Post>,
    enqueued: seq<Entry>,
    started: seq<Entry>,
    finished: seq<Entry>)

  /** A page before any block is embedded. */
  function Initial(usesModuleLoader: bool, dom: map<string, Mount>): Page {
    Page(usesModuleLoader, false, [], false, Idle, NotLoaded, dom, [], [], [], [], [])
  }

  /** The synchronous part of `processNextBlock`: set the flag, then shift the
      head and begin its initialisation, or, on an empty queue, clear the flag
      and stop. */
  function ProcessNext(p: Page): (r: Page)
    ensures r.processing <==> p.queue != []
    ensures p.queue != [] ==> r.worker == Awaiting(p.queue[0]) && r.queue == p.queue[1..]
    ensures p.queue == [] ==> r.worker == Idle && r.queue == []
    ensures r.started == p.started + InFlight(r.worker)
    // nothing but the queue, the flag, the worker and the start record changes
    ensures r.queueCreated == p.queueCreated && r.enqueued == p.enqueued && r.finished == p.finished
    ensures r.loader == p.loader && r.dom == p.dom && r.listeners == p.listeners && r.posts == p.posts
    ensures r.usesModuleLoader == p.usesModuleLoader
  {
    var p1 := p.(processing := true);
    if |p1.queue| > 0 then
      p1.(queue := p1.queue[1..], worker := Awaiting(p1.queue[0]), started := p1.started + [p1.queue[0]])
    else
      p1.(processing := false, worker := Idle)
  }

  /** `H5PPlayerXBlock`: create the queue on first use, append the entry, and
      start the worker if the flag is not set. */
  function Embed(p: Page, e: Entry): (r: Page)
    ensures r.queueCreated && r.enqueued == p.enqueued + [e]
    // on first use the queue starts empty, the flag false, and the worker starts on this entry
    ensures !p.queueCreated ==> r.queue == [] && r.worker == Awaiting(e) && r.processing
    // with a worker running, the entry joins the tail and nothing else changes
    ensures p.queueCreated && p.processing ==> r == p.(queue := p.queue + [e], enqueued := p.enqueued + [e])
    // with the flag clear (first use, or after the worker drained the queue) a worker starts
    // at once on the head of the queue that now ends with this entry
    ensures !(p.queueCreated && p.processing) ==>
      var q := (if p.queueCreated then p.queue else []) + [e];
      r.processing && r.worker == Awaiting(q[0]) && r.queue == q[1..] && r.started == p.started + [q[0]]
    ensures !p.processing && p.queue == [] ==>
      r.worker == Awaiting(e) && r.queue == [] && r.processing && r.started == p.started + [e]
    ensures r.loader == p.loader && r.dom == p.dom && r.listeners == p.listeners
    ensures r.posts == p.posts && r.finished == p.finished
    ensures r.usesModuleLoader == p.usesModuleLoader
  {
    var p1 := if !p.queueCreated then p.(queueCreated := true, queue := [], processing := false) else p;
    var p2 := p1.(queue := p1.queue + [e], enqueued := p1.enqueued + [e]);
    if !p2.processing then ProcessNext(p2) else p2
  }

  /** The initialisation the worker awaits settles, with `inputs` the
      third-party outcomes. A constructed player marks its mount element and
      subscribes its xAPI handler. On resolution the worker goes on with
      `processNextBlock`; a rejection ends it before the recursive call; a
      promise that never settles keeps it waiting. */
  function Resume(p: Page, inputs: Inputs): (r: Page)
    ensures !p.worker.Awaiting? ==> r == p
    ensures r.enqueued == p.enqueued && r.posts == p.posts && r.usesModuleLoader == p.usesModuleLoader
    ensures r.queueCreated == p.queueCreated
    ensures p.worker.Awaiting? ==>
      var e := p.worker.entry;
      var run := InitH5PBlock(p.usesModuleLoader, p.loader, MountOf(p.dom, e), inputs);
      // the init's effects: loader state, the marked mount element, the subscribed handler
      && r.loader == run.loader
      && r.dom == (if run.constructed then p.dom[MountElementId(e) := HasWrapper] else p.dom)
      && r.listeners == (if run.constructed then p.listeners + [e] else p.listeners)
      // resolved: the entry is finished and the worker moves to the next head, or stops and clears the flag
      && (run.settlement.Resolved? ==>
            && r.finished == p.finished + [e]
            && r.worker == (if p.queue == [] then Idle else Awaiting(p.queue[0]))
            && r.queue == (if p.queue == [] then [] else p.queue[1..])
            && r.started == p.started + InFlight(r.worker)
            && (r.processing <==> p.queue != []))
      // rejected or never settling: the worker stalls on this entry, queue and flag untouched
      && (!run.settlement.Resolved? ==>
            && Stalled(r.worker) && r.worker.entry == e
            && r.queue == p.queue && r.processing == p.processing
            && r.started == p.started && r.finished == p.finished)
      && (run.settlement.Rejected? ==> r.worker.Aborted?)
      && (run.settlement.Pending? ==> r.worker.Hung?)
  {
    match p.worker
    case Awaiting(e) =>
      var run := InitH5PBlock(p.usesModuleLoader, p.loader, MountOf(p.dom, e), inputs);
      var p1 := p.(
        loader := run.loader,
        dom := if run.constructed then p.dom[MountElementId(e) := HasWrapper] else p.dom,
        listeners := if run.constructed then p.listeners + [e] else p.listeners);
      (match run.settlement
       case Resolved(_) => ProcessNext(p1.(finished := p1.finished + [e]))
       case Rejected(_) => p1.(worker := Aborted(e))
       case Pending => p1.(worker := Hung(e)))
    case _ => p
  }

  /** The POSTs one subscribed handler issues for an event: the statement
      itself to the handler's own block, and only for a root completion. */
  function HandlerPosts(l: Entry, event: Json): (r: seq<Post>)
    ensures r != [] <==> RootCompletion(Walk(event, StatementPath))
    ensures r != [] ==> r == [Post(l.block, Walk(event, StatementPath))]
  {
    match HandleXApi(event)
    case None => []
    case Some(statement) => [Post(l.block, statement)]
  }

  /** The global dispatcher calls every subscribed handler; each sends a root
      completion statement to its own block's result handler. */
  function Dispatch(listeners: seq<Entry>, event: Json): (r: seq<Post>)
    decreases |listeners|
    ensures !RootCompletion(Walk(event, StatementPath)) ==> r == []
    ensures RootCompletion(Walk(event, StatementPath)) ==>
      |r| == |listeners| &&
      forall i :: 0 <= i < |r| ==> r[i] == Post(listeners[i].block, Walk(event, StatementPath))
  {
    if listeners == [] then [] else HandlerPosts(listeners[0], event) + Dispatch(listeners[1..], event)
  }

  /** A player emits an xAPI event: the global dispatcher runs every
      subscribed handler. Only the POST record grows, by one POST per handler
      for a root completion and by none otherwise. */
  function Emit(p: Page, event: Json): (r: Page)
    ensures r == p.(posts := r.posts)
    ensures |r.posts| == |p.posts| + (if RootCompletion(Walk(event, StatementPath)) then |p.listeners| else 0)
    ensures r.posts[..|p.posts|] == p.posts
  {
    p.(posts := p.posts + Dispatch(p.listeners, event))
  }

  datatype Action = EmbedCall(entry: Entry) | InitSettles(inputs: Inputs) | XApiEmitted(event: Json)

  function Apply(p: Page, a: Action): Page {
    match a
    case EmbedCall(e) => Embed(p, e)
    case InitSettles(inputs) => Resume(p, inputs)
    case XApiEmitted(event) => Emit(p, event)
  }

  function Run(p: Page, actions: seq<Action>): Page
    decreases |actions|
  {
    if actions == [] then p else Run(Apply(p, actions[0]), actions[1..])
  }

  // ----- invariants -----

  /** FIFO without overlap: every embedded entry is started in embedding order,
      and each started entry resolved before the next one was started. The
      flag is set exactly while a worker exists; an idle worker leaves an empty
      queue. */
  predicate QueueInv(p: Page) {
    && (!p.queueCreated ==> p.enqueued == [] && !p.processing)
    && (p.processing <==> !p.worker.Idle?)
    && (p.worker.Idle? ==> p.queue == [])
    && p.started + p.queue == p.enqueued
    && p.started == p.finished + InFlight(p.worker)
  }

  /** At most one script fetch; a fetch that did not load the library is the
      one the worker hangs on. */
  predicate LoaderInv(p: Page) {
    && p.loader.fetches <= 1
    && (p.usesModuleLoader ==> p.loader == NotLoaded)
    && (p.loader.fetches == 1 && !p.loader.loaded ==> p.worker.Hung?)
  }

  /** Handlers are subscribed only for resolved entries whose mount element
      now holds the player, and never twice for one mount element. */
  predicate WiringInv(p: Page) {
    && (forall i :: 0 <= i < |p.listeners| ==> MountOf(p.dom, p.listeners[i]) == HasWrapper)
    && (forall i :: 0 <= i < |p.listeners| ==> p.listeners[i] in p.finished)
    && (forall i, j :: 0 <= i < j < |p.listeners| ==>
          MountElementId(p.listeners[i]) != MountElementId(p.listeners[j]))
  }

  function ListenerBlocks(listeners: seq<Entry>): set<BlockId> {
    set l | l in listeners :: l.block
  }

  /** Every POST carries a root completion statement to a subscribed block. */
  predicate PostsInv(p: Page) {
    forall i :: 0 <= i < |p.posts| ==>
      RootCompletion(p.posts[i].body) && p.posts[i].block in ListenerBlocks(p.listeners)
  }

  predicate Inv(p: Page) {
    QueueInv(p) && LoaderInv(p) && WiringInv(p) && PostsInv(p)
  }

  lemma InitialInv(usesModuleLoader: bool, dom: map<string, Mount>)
    ensures Inv(Initial(usesModuleLoader, dom))
  {
  }

  lemma EmbedPreservesInv(p: Page, e: Entry)
    requires Inv(p)
    ensures Inv(Embed(p, e))
  {
    var r := Embed(p, e);
    if p.queueCreated && p.processing {
      assert r.started + r.queue == p.started + p.queue + [e];
    } else {
      assert p.queue == [] && p.started == p.enqueued && p.worker == Idle;
      assert r.started == p.started + [e];
      assert r.enqueued == p.enqueued + [e];
    }
  }

  lemma ResumePreservesInv(p: Page, inputs: Inputs)
    requires Inv(p)
    ensures Inv(Resume(p, inputs))
  {
    if p.worker.Awaiting? {
      var e := p.worker.entry;
      var run := InitH5PBlock(p.usesModuleLoader, p.loader, MountOf(p.dom, e), inputs);
      var listeners := if run.constructed then p.listeners + [e] else p.listeners;
      var dom := if run.constructed then p.dom[MountElementId(e) := HasWrapper] else p.dom;
      var r := Resume(p, inputs);
      assert r.listeners == listeners && r.dom == dom;
      if run.constructed {
        assert MountOf(p.dom, e) == Ready;
        forall i | 0 <= i < |p.listeners|
          ensures MountElementId(p.listeners[i]) != MountElementId(e)
        {
          assert MountOf(p.dom, p.listeners[i]) == HasWrapper;
        }
        assert r.finished == p.finished + [e];
      }
      assert ListenerBlocks(p.listeners) <= ListenerBlocks(r.listeners);
      match run.settlement
      case Resolved(_) =>
        assert r.started + r.queue == p.started + p.queue;
      case Rejected(_) =>
      case Pending =>
    }
  }

  lemma EmitPreservesInv(p: Page, event: Json)
    requires Inv(p)
    ensures Inv(Emit(p, event))
  {
    var r := Emit(p, event);
    var d := Dispatch(p.listeners, event);
    forall i | 0 <= i < |d|
      ensures RootCompletion(d[i].body) && d[i].block in ListenerBlocks(p.listeners)
    {
      assert p.listeners[i] in p.listeners;
    }
    forall i | 0 <= i < |r.posts|
      ensures RootCompletion(r.posts[i].body) && r.posts[i].block in ListenerBlocks(r.listeners)
    {
      if i >= |p.posts| {
        assert r.posts[i] == d[i - |p.posts|];
      }
    }
  }

  lemma ApplyPreservesInv(p: Page, a: Action)
    requires Inv(p)
    ensures Inv(Apply(p, a))
  {
    match a
    case EmbedCall(e) => EmbedPreservesInv(p, e);
    case InitSettles(inputs) => ResumePreservesInv(p, inputs);
    case XApiEmitted(event) => EmitPreservesInv(p, event);
  }

  lemma {:induction false} RunPreservesInv(p: Page, actions: seq<Action>)
    requires Inv(p)
    ensures Inv(Run(p, actions))
    decreases |actions|
  {
    if actions != [] {
      ApplyPreservesInv(p, actions[0]);
      RunPreservesInv(Apply(p, actions[0]), actions[1..]);
    }
  }

  /** Whatever embeds, settlements and events happen on a page: entries are
      initialised in embedding order, one at a time (the worker holds at most
      one entry, so `started == finished + InFlight(worker)` says that every
      started entry but the one in flight has resolved); the flag is set exactly
      while a worker exists; the script is fetched at most once; no mount
      element gets two players; every POST is a root completion. */
  lemma {:induction false} PageGuarantees(usesModuleLoader: bool, dom: map<string, Mount>, actions: seq<Action>)
    ensures var q := Run(Initial(usesModuleLoader, dom), actions);
      && q.started + q.queue == q.enqueued
      && q.started == q.finished + InFlight(q.worker)
      && (q.processing <==> !q.worker.Idle?)
      && (!q.processing ==> q.queue == [])
      && q.loader.fetches <= 1
      && (forall i, j :: 0 <= i < j < |q.listeners| ==>
            MountElementId(q.listeners[i]) != MountElementId(q.listeners[j]))
      && (forall i :: 0 <= i < |q.posts| ==> RootCompletion(q.posts[i].body))
  {
    InitialInv(usesModuleLoader, dom);
    RunPreservesInv(Initial(usesModuleLoader, dom), actions);
  }

  // ----- behaviour over several steps -----

  /** Once an initialisation has rejected or never settles, nothing more is
      initialised: the worker never runs again, the flag stays set, and later
      embeds only lengthen the queue. */
  lemma {:induction false} StallIsPermanent(p: Page, actions: seq<Action>)
    requires Inv(p) && Stalled(p.worker)
    ensures var q := Run(p, actions);
      && q.worker == p.worker && q.processing
      && q.started == p.started && q.finished == p.finished
      && q.loader == p.loader && q.dom == p.dom && q.listeners == p.listeners
      && |p.queue| <= |q.queue| && q.queue[..|p.queue|] == p.queue
    decreases |actions|
  {
    if actions != [] {
      var p1 := Apply(p, actions[0]);
      ApplyPreservesInv(p, actions[0]);
      assert p1.worker == p.worker && p1.queue[..|p.queue|] == p.queue;
      StallIsPermanent(p1, actions[1..]);
    }
  }

  /** A settlement that rejects or never settles stalls the queue for good:
      whatever happens afterwards, no further entry is started or resolved,
      the flag stays set, and the remaining entries stay queued in order. */
  lemma FailureStallsQueue(p: Page, inputs: Inputs, actions: seq<Action>)
    requires Inv(p) && p.worker.Awaiting?
    requires !InitH5PBlock(p.usesModuleLoader, p.loader, MountOf(p.dom, p.worker.entry), inputs).settlement.Resolved?
    ensures var q := Run(Resume(p, inputs), actions);
      && Stalled(q.worker) && q.worker.entry == p.worker.entry && q.processing
      && q.started == p.started && q.finished == p.finished
      && |p.queue| <= |q.queue| && q.queue[..|p.queue|] == p.queue
  {
    ResumePreservesInv(p, inputs);
    StallIsPermanent(Resume(p, inputs), actions);
  }

  function Repeat(a: Action, n: nat): (r: seq<Action>)
    ensures |r| == n
  {
    if n == 0 then [] else [a] + Repeat(a, n - 1)
  }

  /** When every initialisation has the library on hand and every construction
      succeeds, the awaiting worker drains the queue: one settlement per
      entry, all entries resolved in order, the queue empty and the flag
      cleared. */
  lemma {:induction false} DrainsWhenAllResolve(p: Page)
    requires Inv(p) && p.worker.Awaiting?
    ensures var q := Run(p, Repeat(InitSettles(Inputs(true, Constructs)), |p.queue| + 1));
      && q.worker == Idle && !q.processing && q.queue == []
      && q.finished == p.enqueued && q.enqueued == p.enqueued
    decreases |p.queue|
  {
    var a := InitSettles(Inputs(true, Constructs));
    var actions := Repeat(a, |p.queue| + 1);
    assert actions[0] == a && actions[1..] == Repeat(a, |p.queue|);
    var p1 := Apply(p, a);
    SucceedingInputsResolve(p.usesModuleLoader, p.loader, MountOf(p.dom, p.worker.entry));
    ResumePreservesInv(p, Inputs(true, Constructs));
    if p.queue == [] {
      assert p1.worker == Idle;
      assert Run(p1, actions[1..]) == p1;
    } else {
      assert p1.worker.Awaiting? && |p1.queue| == |p.queue| - 1;
      DrainsWhenAllResolve(p1);
    }
  }

  /** Embedding a block whose mount element already holds a player (or does
      not exist) constructs nothing when its turn comes: the mount elements
      and the subscribed handlers stay as they were. */
  lemma RepeatedEmbedIsNoOp(p: Page, inputs: Inputs)
    requires p.worker.Awaiting? && Skips(MountOf(p.dom, p.worker.entry))
    ensures Resume(p, inputs).dom == p.dom
    ensures Resume(p, inputs).listeners == p.listeners
  {
  }
}
