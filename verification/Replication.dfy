/**
 A conversation replicated to a browser: the server numbers its states, a listener queues frames and
 throws them away when too many wait, and the client applies only what follows on from what it has.
 */
module Replication {
  import opened Basics

  type Item = string
  type Chunk = string

  const QUEUE_SIZE := 256
  const SNAPSHOT_HISTORY_LIMIT := 200

  /** What a conversation shows at one version. */
  datatype Snap = Snap(prefix: seq<Item>, living: seq<Chunk>)

  datatype Frame =
    | SnapshotFrame(conv: string, prefix: seq<Item>, living: seq<Chunk>, version: nat)
    | DeltaFrame(conv: string, chunk: Chunk, version: nat)
    | CommitFrame(conv: string, append: seq<Item>, version: nat)
    | ErrorFrame(conv: string)

  /** `asked` is set from a request for a snapshot until one arrives. */
  datatype Client = Client(conv: string, version: nat, prefix: seq<Item>, living: seq<Chunk>, asked: bool)

  /** All states of a conversation object, the version being the index of the last. */
  type History = seq<Snap>

  datatype World = World(
    convs: map<string, History>,
    subscribed: set<string>,
    queue: seq<Frame>,        // waiting in the listener
    wire: seq<Frame>,         // sent, not handled yet
    opens: nat,               // requests for a snapshot not answered yet
    client: Client)

  datatype Step =
    | Create(conv: string, prefix: seq<Item>)
    | Delta(conv: string, chunk: Chunk)
    | Commit(conv: string, append: seq<Item>)
    | Fail(conv: string)
    | Open(conv: string)      // opened on this listener otherwise than by the client's requests
    | Close(conv: string)
    | ServeOpen
    | RefuseOpen              // the conversation or its actor is not found
    | Send
    | Receive
    | Reconnect

  // ---------------------------------------------------------------- the server's side

  /** A full queue is emptied for the new frame; a snapshot always empties it. */
  function Enqueued(queue: seq<Frame>, frame: Frame): (r: seq<Frame>)
    ensures |queue| <= QUEUE_SIZE ==> |r| <= QUEUE_SIZE
    ensures r != [] && Last(r) == frame
  {
    if frame.SnapshotFrame? || |queue| >= QUEUE_SIZE then [frame] else queue + [frame]
  }

  function Published(w: World, conv: string, frame: Frame): World {
    if conv in w.subscribed then w.(queue := Enqueued(w.queue, frame)) else w
  }

  function Tail<T>(s: seq<T>): seq<T> {
    if |s| <= SNAPSHOT_HISTORY_LIMIT then s else s[|s| - SNAPSHOT_HISTORY_LIMIT..]
  }

  predicate Alive(w: World, conv: string) {
    conv in w.convs && w.convs[conv] != []
  }

  function VersionOf(w: World, conv: string): nat
    requires Alive(w, conv)
  {
    |w.convs[conv]| - 1
  }

  function SnapshotOf(conv: string, history: History): Frame
    requires history != []
  {
    SnapshotFrame(conv, Tail(Last(history).prefix), Last(history).living, |history| - 1)
  }

  function Opened(w: World, conv: string): World
    requires Alive(w, conv)
  {
    Published(w.(subscribed := w.subscribed + {conv}), conv, SnapshotOf(conv, w.convs[conv]))
  }

  function Advanced(w: World, conv: string, snap: Snap): World
    requires conv in w.convs
  {
    w.(convs := w.convs[conv := w.convs[conv] + [snap]])
  }

  // ---------------------------------------------------------------- the client's side

  /** Asks for a snapshot unless one was asked for already. */
  function GapNoticed(w: World): World {
    if w.client.asked then w else w.(client := w.client.(asked := true), opens := w.opens + 1)
  }

  function Handled(w: World, frame: Frame): World {
    var c := w.client;
    if frame.conv != c.conv then w
    else match frame
      case SnapshotFrame(_, prefix, living, version) => w.(client := Client(c.conv, version, prefix, living, false))
      case DeltaFrame(_, chunk, version) =>
        if version <= c.version then w
        else if version != c.version + 1 then GapNoticed(w)
        else w.(client := c.(version := version, living := c.living + [chunk]))
      case CommitFrame(_, append, version) =>
        if version <= c.version then w
        else if version != c.version + 1 then GapNoticed(w)
        else w.(client := c.(version := version, prefix := c.prefix + append, living := []))
      case ErrorFrame(_) => w
  }

  // ---------------------------------------------------------------- steps

  predicate Enabled(w: World, step: Step) {
    match step
    case Create(conv, _) => conv !in w.convs
    case Delta(conv, _) => Alive(w, conv)
    case Commit(conv, _) => Alive(w, conv)
    case Open(conv) => Alive(w, conv)
    case ServeOpen => w.opens > 0 && Alive(w, w.client.conv)
    case RefuseOpen => w.opens > 0
    case Send => w.queue != []
    case Receive => w.wire != []
    case _ => true
  }

  function Next(w: World, step: Step): World
    requires Enabled(w, step)
  {
    match step
    case Create(conv, prefix) => w.(convs := w.convs[conv := [Snap(prefix, [])]])
    case Delta(conv, chunk) =>
      var last := Last(w.convs[conv]);
      Published(Advanced(w, conv, last.(living := last.living + [chunk])), conv,
                DeltaFrame(conv, chunk, |w.convs[conv]|))
    case Commit(conv, append) =>
      var last := Last(w.convs[conv]);
      Published(Advanced(w, conv, Snap(last.prefix + append, [])), conv, CommitFrame(conv, append, |w.convs[conv]|))
    case Fail(conv) => Published(w, conv, ErrorFrame(conv))
    case Open(conv) => Opened(w, conv)
    case Close(conv) => w.(subscribed := w.subscribed - {conv})
    case ServeOpen => Opened(w.(opens := w.opens - 1), w.client.conv)
    case RefuseOpen => w.(opens := w.opens - 1)
    case Send => w.(queue := w.queue[1..], wire := w.wire + [w.queue[0]])
    case Receive => Handled(w.(wire := w.wire[1..]), w.wire[0])
    case Reconnect => w.(queue := [], wire := [], subscribed := {}, opens := 1, client := w.client.(asked := true))
  }

  ghost predicate Runs(w: World, steps: seq<Step>, v: World)
    decreases |steps|
  {
    if steps == [] then w == v else Enabled(w, steps[0]) && Runs(Next(w, steps[0]), steps[1..], v)
  }

  // ---------------------------------------------------------------- safety

  ghost predicate Suffix<T>(part: seq<T>, whole: seq<T>) {
    |part| <= |whole| && part == whole[|whole| - |part|..]
  }

  /** A frame says what happened in its conversation. */
  ghost predicate FrameTrue(convs: map<string, History>, f: Frame) {
    f.ErrorFrame? ||
    (&& f.conv in convs && f.version < |convs[f.conv]|
     && var now := convs[f.conv][f.version];
        match f
        case SnapshotFrame(_, prefix, living, _) => Suffix(prefix, now.prefix) && living == now.living
        case DeltaFrame(_, chunk, v) =>
          v > 0 && now == Snap(convs[f.conv][v - 1].prefix, convs[f.conv][v - 1].living + [chunk])
        case CommitFrame(_, append, v) => v > 0 && now == Snap(convs[f.conv][v - 1].prefix + append, []))
  }

  /** What the client shows is what the server showed at the client's version, but for older history. */
  ghost predicate ClientTrue(convs: map<string, History>, c: Client) {
    if c.conv in convs then
      && c.version < |convs[c.conv]|
      && c.living == convs[c.conv][c.version].living
      && Suffix(c.prefix, convs[c.conv][c.version].prefix)
    else c.version == 0 && c.living == [] && c.prefix == []
  }

  ghost predicate FramesTrue(convs: map<string, History>, frames: seq<Frame>) {
    forall k {:trigger FrameTrue(convs, frames[k])} :: 0 <= k < |frames| ==> FrameTrue(convs, frames[k])
  }

  ghost predicate Inv(w: World) {
    && |w.queue| <= QUEUE_SIZE
    && FramesTrue(w.convs, w.queue) && FramesTrue(w.convs, w.wire)
    && ClientTrue(w.convs, w.client)
  }

  /** Conversations only gain states. */
  ghost predicate Grows(convs: map<string, History>, more: map<string, History>) {
    forall conv {:trigger more[conv]} {:trigger convs[conv]} ::
      conv in convs ==> conv in more && convs[conv] <= more[conv]
  }

  lemma FrameStays(convs: map<string, History>, more: map<string, History>, f: Frame)
    requires FrameTrue(convs, f) && Grows(convs, more)
    ensures FrameTrue(more, f)
  {
  }

  lemma FramesStay(convs: map<string, History>, more: map<string, History>, frames: seq<Frame>)
    requires FramesTrue(convs, frames) && Grows(convs, more)
    ensures FramesTrue(more, frames)
  {
    forall k | 0 <= k < |frames|
      ensures FrameTrue(more, frames[k])
    {
      assert FrameTrue(convs, frames[k]);
      FrameStays(convs, more, frames[k]);
    }
  }

  lemma ClientStays(convs: map<string, History>, more: map<string, History>, c: Client)
    requires ClientTrue(convs, c) && Grows(convs, more)
    requires c.conv in convs || c.conv !in more || (more[c.conv] != [] && more[c.conv][0].living == [])
    ensures ClientTrue(more, c)
  {
  }

  lemma EnqueuedTrue(convs: map<string, History>, queue: seq<Frame>, f: Frame)
    requires FramesTrue(convs, queue) && FrameTrue(convs, f)
    ensures FramesTrue(convs, Enqueued(queue, f))
  {
  }

  lemma PublishedInv(w: World, conv: string, f: Frame)
    requires Inv(w) && FrameTrue(w.convs, f)
    ensures Inv(Published(w, conv, f))
  {
    EnqueuedTrue(w.convs, w.queue, f);
  }

  lemma AdvancedInv(w: World, conv: string, snap: Snap)
    requires Inv(w) && conv in w.convs
    ensures Inv(Advanced(w, conv, snap))
    ensures Last(Advanced(w, conv, snap).convs[conv]) == snap
  {
    var more := Advanced(w, conv, snap).convs;
    assert Grows(w.convs, more);
    FramesStay(w.convs, more, w.queue);
    FramesStay(w.convs, more, w.wire);
    ClientStays(w.convs, more, w.client);
  }

  lemma TailSuffix<T>(s: seq<T>)
    ensures Suffix(Tail(s), s)
  {
  }

  /** Only the newest items are sent along: two hundred of them, or all there are. */
  lemma TailExact<T>(s: seq<T>)
    ensures |Tail(s)| == if |s| < 200 then |s| else 200
    ensures forall k {:trigger Tail(s)[k]} :: 0 <= k < |Tail(s)| ==> Tail(s)[k] == s[|s| - |Tail(s)| + k]
  {
  }

  /**
   What a client gets from an opening: the snapshot is alone in the queue, and handling it shows the newest
   version with all its chunks and the newest items, and ends the wait.
   */
  lemma OpeningShows(w: World)
    requires Alive(w, w.client.conv)
    ensures var now, v := Last(w.convs[w.client.conv]), Opened(w, w.client.conv);
            && v.convs == w.convs && v.subscribed == w.subscribed + {w.client.conv} && v.client == w.client
            && v.wire == w.wire && v.opens == w.opens && |v.queue| == 1
            && var c := Handled(w, v.queue[0]).client;
               && c.version == |w.convs[w.client.conv]| - 1 && c.living == now.living && !c.asked
               && Suffix(c.prefix, now.prefix) && |c.prefix| == if |now.prefix| < 200 then |now.prefix| else 200
  {
    TailSuffix(Last(w.convs[w.client.conv]).prefix);
    TailExact(Last(w.convs[w.client.conv]).prefix);
  }

  /** The states a conversation goes through, and what a subscriber is told of each: the newest frame that waits. */
  lemma ServedExact(w: World, conv: string, chunk: Chunk, append: seq<Item>)
    requires Alive(w, conv)
    ensures var now, v := Last(w.convs[conv]), Next(w, Delta(conv, chunk));
            && v.convs == w.convs[conv := w.convs[conv] + [Snap(now.prefix, now.living + [chunk])]]
            && v.client == w.client && v.wire == w.wire && v.opens == w.opens && v.subscribed == w.subscribed
            && (conv !in w.subscribed ==> v.queue == w.queue)
            && (conv in w.subscribed ==> v.queue != [] && Last(v.queue) == DeltaFrame(conv, chunk, |w.convs[conv]|))
    ensures var now, v := Last(w.convs[conv]), Next(w, Commit(conv, append));
            && v.convs == w.convs[conv := w.convs[conv] + [Snap(now.prefix + append, [])]]
            && v.client == w.client && v.wire == w.wire && v.opens == w.opens && v.subscribed == w.subscribed
            && (conv !in w.subscribed ==> v.queue == w.queue)
            && (conv in w.subscribed ==> v.queue != [] && Last(v.queue) == CommitFrame(conv, append, |w.convs[conv]|))
    ensures conv in w.subscribed && |w.queue| < 256 ==>
              && Front(Next(w, Delta(conv, chunk)).queue) == w.queue
              && Front(Next(w, Commit(conv, append)).queue) == w.queue
    ensures conv in w.subscribed && |w.queue| >= 256 ==>
              |Next(w, Delta(conv, chunk)).queue| == 1 && |Next(w, Commit(conv, append)).queue| == 1
  {
  }

  lemma OpenedInv(w: World, conv: string)
    requires Inv(w) && Alive(w, conv)
    ensures Inv(Opened(w, conv))
  {
    TailSuffix(Last(w.convs[conv]).prefix);
    PublishedInv(w.(subscribed := w.subscribed + {conv}), conv, SnapshotOf(conv, w.convs[conv]));
  }

  /** Handling a true frame leaves the client true. */
  lemma HandledTrue(w: World, f: Frame)
    requires ClientTrue(w.convs, w.client) && FrameTrue(w.convs, f)
    ensures ClientTrue(w.convs, Handled(w, f).client)
    ensures Handled(w, f).convs == w.convs && Handled(w, f).queue == w.queue && Handled(w, f).wire == w.wire
  {
  }

  lemma ReceiveInv(w: World)
    requires Inv(w) && w.wire != []
    ensures Inv(Next(w, Receive))
  {
    var v := w.(wire := w.wire[1..]);
    assert FrameTrue(w.convs, w.wire[0]);
    forall k | 0 <= k < |v.wire|
      ensures FrameTrue(w.convs, v.wire[k])
    {
      assert FrameTrue(w.convs, w.wire[k + 1]);
    }
    HandledTrue(v, w.wire[0]);
  }

  lemma SendInv(w: World)
    requires Inv(w) && w.queue != []
    ensures Inv(Next(w, Send))
  {
  }

  lemma CreateInv(w: World, conv: string, prefix: seq<Item>)
    requires Inv(w) && conv !in w.convs
    ensures Inv(Next(w, Create(conv, prefix)))
  {
    var more := Next(w, Create(conv, prefix)).convs;
    assert Grows(w.convs, more);
    FramesStay(w.convs, more, w.queue);
    FramesStay(w.convs, more, w.wire);
    ClientStays(w.convs, more, w.client);
  }

  lemma DeltaInv(w: World, conv: string, chunk: Chunk)
    requires Inv(w) && Alive(w, conv)
    ensures Inv(Next(w, Delta(conv, chunk)))
  {
    var last := Last(w.convs[conv]);
    var snap := last.(living := last.living + [chunk]);
    AdvancedInv(w, conv, snap);
    PublishedInv(Advanced(w, conv, snap), conv, DeltaFrame(conv, chunk, |w.convs[conv]|));
  }

  lemma CommitInv(w: World, conv: string, append: seq<Item>)
    requires Inv(w) && Alive(w, conv)
    ensures Inv(Next(w, Commit(conv, append)))
  {
    var snap := Snap(Last(w.convs[conv]).prefix + append, []);
    AdvancedInv(w, conv, snap);
    PublishedInv(Advanced(w, conv, snap), conv, CommitFrame(conv, append, |w.convs[conv]|));
  }

  lemma StepKeepsInv(w: World, step: Step)
    requires Inv(w) && Enabled(w, step)
    ensures Inv(Next(w, step))
  {
    match step
    case Create(conv, prefix) => CreateInv(w, conv, prefix);
    case Delta(conv, chunk) => DeltaInv(w, conv, chunk);
    case Commit(conv, append) => CommitInv(w, conv, append);
    case Fail(conv) => PublishedInv(w, conv, ErrorFrame(conv));
    case Open(conv) => OpenedInv(w, conv);
    case Close(conv) =>
    case ServeOpen => OpenedInv(w.(opens := w.opens - 1), w.client.conv);
    case RefuseOpen =>
    case Send => SendInv(w);
    case Receive => ReceiveInv(w);
    case Reconnect =>
  }

  lemma {:induction false} RunKeepsInv(w: World, steps: seq<Step>, v: World)
    requires Inv(w) && Runs(w, steps, v)
    ensures Inv(v)
    decreases |steps|
  {
    if steps != [] {
      StepKeepsInv(w, steps[0]);
      RunKeepsInv(Next(w, steps[0]), steps[1..], v);
    }
  }

  function Start(conv: string): World {
    World(map[], {}, [], [], 0, Client(conv, 0, [], [], false))
  }

  /**
   Over every run of deltas, commits, errors, openings, refusals, overflows and reconnections, the client shows
   the living chunks the server had at the client's version and a suffix of the history it had then;
   and the queue never holds more than its size.
   */
  lemma ClientNeverWrong(conv: string, steps: seq<Step>, w: World)
    requires Runs(Start(conv), steps, w) && conv == w.client.conv && conv in w.convs
    ensures w.client.version < |w.convs[conv]|
    ensures w.client.living == w.convs[conv][w.client.version].living
    ensures Suffix(w.client.prefix, w.convs[conv][w.client.version].prefix)
    ensures |w.queue| <= QUEUE_SIZE
  {
    RunKeepsInv(Start(conv), steps, w);
  }
}
