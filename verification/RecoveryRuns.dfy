/** Runs of Replication that leave the client behind. */
module RecoveryRuns {
  import opened Basics
  import opened Replication
  import opened Recovery

  lemma {:induction false} RunsOn(w: World, steps: seq<Step>, v: World, step: Step)
    requires Runs(w, steps, v) && Enabled(v, step)
    ensures Runs(w, steps + [step], Next(v, step))
    decreases |steps|
  {
    if steps == [] {
      assert ([step])[1..] == [];
    } else {
      assert (steps + [step])[1..] == steps[1..] + [step];
      RunsOn(Next(w, steps[0]), steps[1..], v, step);
    }
  }

  /** A run with one more step. */
  lemma GoOn(start: World, steps: seq<Step>, v: World, step: Step) returns (more: seq<Step>, w: World)
    requires Runs(start, steps, v) && Enabled(v, step)
    ensures Runs(start, more, w) && more == steps + [step] && w == Next(v, step)
  {
    RunsOn(start, steps, v, step);
    more, w := steps + [step], Next(v, step);
  }

  /** `n` deltas in a row. */
  function Deltas(w: World, n: nat): World
    requires Alive(w, w.client.conv)
    ensures Alive(Deltas(w, n), w.client.conv) && Deltas(w, n).client == w.client
    ensures Deltas(w, n).subscribed == w.subscribed && Deltas(w, n).wire == w.wire && Deltas(w, n).opens == w.opens
    ensures |Deltas(w, n).convs[w.client.conv]| == |w.convs[w.client.conv]| + n
  {
    if n == 0 then w else Next(Deltas(w, n - 1), Delta(w.client.conv, "x"))
  }

  lemma {:induction false} DeltasQueue(w: World, n: nat)
    requires Alive(w, w.client.conv) && w.client.conv in w.subscribed && |w.queue| + n <= QUEUE_SIZE
    ensures |Deltas(w, n).queue| == |w.queue| + n
  {
    if n > 0 {
      DeltasQueue(w, n - 1);
    }
  }

  /** Deltas only. */
  ghost predicate Plain(steps: seq<Step>, from: nat) {
    forall k :: from <= k < |steps| ==> steps[k].Delta?
  }

  lemma {:induction false} GoOnDeltas(start: World, steps: seq<Step>, v: World, n: nat) returns (more: seq<Step>)
    requires Runs(start, steps, v) && Alive(v, v.client.conv)
    ensures Runs(start, more, Deltas(v, n))
    ensures steps <= more && |more| == |steps| + n && Plain(more, |steps|)
  {
    more := steps;
    if n > 0 {
      more := GoOnDeltas(start, steps, v, n - 1);
      RunsOn(start, more, Deltas(v, n - 1), Delta(v.client.conv, "x"));
      more := more + [Delta(v.client.conv, "x")];
    }
  }

  /** One delta more than the queue takes: only the last one waits. */
  lemma DeltasOverflow(w: World, n: nat)
    requires Alive(w, w.client.conv) && w.client.conv in w.subscribed && |w.queue| + n == QUEUE_SIZE
    ensures Deltas(w, n + 1).queue == [DeltaFrame(w.client.conv, "x", VersionOf(w, w.client.conv) + n + 1)]
  {
    DeltasQueue(w, n);
  }

  /** One conversation and one client, without errors, commits and further openings. */
  ghost predicate OneReader(steps: seq<Step>) {
    forall k {:trigger steps[k]} :: 0 <= k < |steps| ==>
      !steps[k].Commit? && !steps[k].Fail? && !steps[k].Open? && !steps[k].Close? && (k > 0 ==> !steps[k].Create?)
  }

  ghost predicate Reads(conv: string, steps: seq<Step>, w: World) {
    Runs(Start(conv), steps, w) && steps != [] && OneReader(steps)
  }

  /** A run of one reader with one more step. */
  lemma ReadsOn(conv: string, steps: seq<Step>, w: World, step: Step) returns (more: seq<Step>)
    requires Reads(conv, steps, w) && Enabled(w, step) && OneReader([step]) && !step.Create?
    ensures Reads(conv, more, Next(w, step)) && more == steps + [step]
  {
    RunsOn(Start(conv), steps, w, step);
    more := steps + [step];
    assert [step][0] == step;
  }

  lemma ReadsDeltas(conv: string, steps: seq<Step>, w: World, n: nat) returns (more: seq<Step>)
    requires Reads(conv, steps, w) && Alive(w, w.client.conv)
    ensures Reads(conv, more, Deltas(w, n))
  {
    more := GoOnDeltas(Start(conv), steps, w, n);
    forall k | 0 <= k < |more|
      ensures !more[k].Commit? && !more[k].Fail? && !more[k].Open? && !more[k].Close? && (k > 0 ==> !more[k].Create?)
    {
      if k < |steps| {
        assert more[k] == steps[k];
      }
    }
  }

  /** The conversation is open on the listener, has this version, and the client has `shown` of it. */
  ghost predicate At(w: World, conv: string, version: nat, shown: nat, asked: bool) {
    && Alive(w, conv) && VersionOf(w, conv) == version && conv in w.subscribed
    && w.client.conv == conv && w.client.version == shown && w.client.asked == asked
  }

  /** The first snapshot is on its way and nothing else waits. */
  lemma SendsFirst(conv: string) returns (steps: seq<Step>, w: World)
    ensures Reads(conv, steps, w) && At(w, conv, 0, 0, true)
    ensures w.queue == [] && w.wire == [SnapshotFrame(conv, [], [], 0)] && w.opens == 0
  {
    var a := Next(Start(conv), Create(conv, []));
    assert Runs(a, [], a) && ([Create(conv, [])])[1..] == [];
    steps := ReadsOn(conv, [Create(conv, [])], a, Reconnect);
    var b := Next(a, Reconnect);
    steps := ReadsOn(conv, steps, b, ServeOpen);
    var c := Next(b, ServeOpen);
    assert c.queue == [SnapshotFrame(conv, [], [], 0)];
    steps := ReadsOn(conv, steps, c, Send);
    w := Next(c, Send);
  }

  /** The socket is busy with a frame while the queue overflows. */
  lemma OverflowsBehind(conv: string, steps: seq<Step>, w: World, version: nat, shown: nat, asked: bool)
      returns (more: seq<Step>, v: World)
    requires Reads(conv, steps, w) && At(w, conv, version, shown, asked) && |w.queue| <= 1
    ensures Reads(conv, more, v)
    ensures var last := version + QUEUE_SIZE - |w.queue| + 1;
            At(v, conv, last, shown, asked) && v.queue == [DeltaFrame(conv, "x", last)]
    ensures v.wire == w.wire && v.opens == w.opens
  {
    var n := QUEUE_SIZE - |w.queue|;
    DeltasOverflow(w, n);
    more := ReadsDeltas(conv, steps, w, n + 1);
    v := Deltas(w, n + 1);
  }

  /** The frame that was being sent arrives and the next one is being sent. */
  lemma Passes(conv: string, steps: seq<Step>, w: World) returns (more: seq<Step>)
    requires Reads(conv, steps, w) && |w.wire| == 1 && w.queue != []
    ensures Reads(conv, more, Next(Next(w, Receive), Send))
  {
    more := ReadsOn(conv, steps, w, Receive);
    more := ReadsOn(conv, more, Next(w, Receive), Send);
  }

  lemma FirstShown(w: World, conv: string, version: nat)
    requires At(w, conv, version, 0, true) && w.wire == [SnapshotFrame(conv, [], [], 0)]
    requires w.opens == 0 && w.queue == [DeltaFrame(conv, "x", version)]
    ensures var v := Next(Next(w, Receive), Send);
            At(v, conv, version, 0, false) && v.opens == 0 && v.queue == [] && v.wire == w.queue
  {
  }

  lemma GapSeen(w: World, conv: string, version: nat, sent: nat)
    requires At(w, conv, version, 0, false) && w.wire == [DeltaFrame(conv, "x", sent)] && sent > 1
    requires w.queue == [DeltaFrame(conv, "x", version)] && w.opens == 0
    ensures var v := Next(Next(w, Receive), Send);
            At(v, conv, version, 0, true) && v.opens == 1 && v.queue == [] && v.wire == w.queue
  {
  }

  /** Two frames that do not follow on. */
  lemma TwoSkipped(w: World, conv: string, version: nat, sent: nat)
    requires At(w, conv, version, 0, true) && w.opens == 0 && sent > 1 && version > 1
    requires w.wire == [DeltaFrame(conv, "x", sent)] && w.queue == [DeltaFrame(conv, "x", version)]
    ensures Stuck(w)
  {
    FateOne(conv, Ends(0, true), DeltaFrame(conv, "x", sent));
    FateOne(conv, Ends(0, true), DeltaFrame(conv, "x", version));
  }

  /** The first delta after an overflow is being sent to a client that has seen the first snapshot. */
  lemma FirstGap(conv: string) returns (steps: seq<Step>, w: World)
    ensures Reads(conv, steps, w) && At(w, conv, QUEUE_SIZE + 1, 0, false) && w.queue == [] && w.opens == 0
    ensures w.wire == [DeltaFrame(conv, "x", QUEUE_SIZE + 1)]
  {
    steps, w := SendsFirst(conv);
    steps, w := OverflowsBehind(conv, steps, w, 0, 0, true);
    FirstShown(w, conv, QUEUE_SIZE + 1);
    steps := Passes(conv, steps, w);
    w := Next(Next(w, Receive), Send);
  }

  /** The client asks for a snapshot and the request is served while the next delta is being sent. */
  lemma AsksWhileBusy(conv: string) returns (steps: seq<Step>, w: World)
    ensures Reads(conv, steps, w) && At(w, conv, QUEUE_SIZE + 2, 0, true) && |w.queue| == 1 && w.opens == 0
    ensures w.wire == [DeltaFrame(conv, "x", QUEUE_SIZE + 2)]
  {
    steps, w := FirstGap(conv);
    steps := ReadsOn(conv, steps, w, Delta(conv, "x"));
    w := Next(w, Delta(conv, "x"));
    GapSeen(w, conv, QUEUE_SIZE + 2, QUEUE_SIZE + 1);
    steps := Passes(conv, steps, w);
    w := Next(Next(w, Receive), Send);
    steps := ReadsOn(conv, steps, w, ServeOpen);
    w := Next(w, ServeOpen);
  }

  /**
   One conversation, one client and a socket that takes one frame at a time: while it takes the first
   snapshot the queue overflows; the gap makes the client ask; and the queue that holds the answer overflows
   while the next delta is being sent.
   */
  lemma SlowSocketSticks(conv: string) returns (steps: seq<Step>, w: World)
    ensures Runs(Start(conv), steps, w) && OneReader(steps) && Stuck(w)
  {
    steps, w := AsksWhileBusy(conv);
    steps, w := OverflowsBehind(conv, steps, w, QUEUE_SIZE + 2, 0, true);
    TwoSkipped(w, conv, 2 * QUEUE_SIZE + 2, QUEUE_SIZE + 2);
  }

  /** The request after a reconnection is refused, and the client does not ask again. */
  lemma RefusalSticks(conv: string) returns (steps: seq<Step>, w: World)
    ensures Runs(Start(conv), steps, w) && Stuck(w)
    ensures steps == [Create(conv, []), Delta(conv, "x"), Reconnect, RefuseOpen]
  {
    var start := Start(conv);
    assert Runs(start, [], start);
    steps, w := GoOn(start, [], start, Create(conv, []));
    steps, w := GoOn(start, steps, w, Delta(conv, "x"));
    steps, w := GoOn(start, steps, w, Reconnect);
    steps, w := GoOn(start, steps, w, RefuseOpen);
  }

  /** A client that waits for its first snapshot, not served yet, while another conversation's is sent. */
  ghost predicate BusyWithOther(w: World, conv: string, other: string) {
    && conv in w.convs && w.convs[conv] == [Snap([], [])] && other in w.convs && w.convs[other] == [Snap([], [])]
    && w.queue == [] && w.wire == [SnapshotFrame(other, [], [], 0)] && w.opens == 1
    && w.client == Client(conv, 0, [], [], true)
  }

  lemma OtherSent(conv: string, other: string) returns (steps: seq<Step>, w: World)
    requires conv != other
    ensures Runs(Start(conv), steps, w) && BusyWithOther(w, conv, other)
    ensures steps == [Create(conv, []), Create(other, []), Reconnect, Open(other), Send]
  {
    var start := Start(conv);
    assert Runs(start, [], start);
    steps, w := GoOn(start, [], start, Create(conv, []));
    steps, w := GoOn(start, steps, w, Create(other, []));
    steps, w := GoOn(start, steps, w, Reconnect);
    steps, w := GoOn(start, steps, w, Open(other));
    assert w.queue == [SnapshotFrame(other, [], [], 0)];
    steps, w := GoOn(start, steps, w, Send);
  }

  lemma OtherInTheWay(w: World, conv: string, other: string)
    requires BusyWithOther(w, conv, other) && conv != other
    ensures var u := Next(w, ServeOpen);
            u.opens == 0 && Alive(u, conv) && Stuck(Next(Next(u, Delta(conv, "x")), Open(other)))
  {
    var u := Next(Next(w, ServeOpen), Delta(conv, "x"));
    assert u.wire == w.wire && u.client == w.client && VersionOf(u, conv) == 1 && u.opens == 0;
    assert u.convs[other] == w.convs[other];
    var f := SnapshotFrame(other, [], [], 0);
    var v := Next(u, Open(other));
    assert v.queue == [f];
    FateOne(conv, Ends(0, true), f);
  }

  /**
   Opening another conversation on the same listener is enough, without any overflow: its snapshot throws
   away the one the client waits for.
   */
  lemma OtherOpeningSticks(conv: string, other: string) returns (steps: seq<Step>, w: World)
    requires conv != other
    ensures Runs(Start(conv), steps, w) && Stuck(w)
    ensures steps == [Create(conv, []), Create(other, []), Reconnect, Open(other), Send, ServeOpen,
                      Delta(conv, "x"), Open(other)]
  {
    steps, w := OtherSent(conv, other);
    OtherInTheWay(w, conv, other);
    steps, w := GoOn(Start(conv), steps, w, ServeOpen);
    steps, w := GoOn(Start(conv), steps, w, Delta(conv, "x"));
    steps, w := GoOn(Start(conv), steps, w, Open(other));
  }

  lemma FullBehindFirst(conv: string) returns (steps: seq<Step>, w: World)
    ensures Reads(conv, steps, w) && At(w, conv, QUEUE_SIZE, 0, true)
    ensures |w.queue| == QUEUE_SIZE && w.wire == [SnapshotFrame(conv, [], [], 0)] && w.opens == 0
  {
    steps, w := SendsFirst(conv);
    DeltasQueue(w, QUEUE_SIZE);
    steps := ReadsDeltas(conv, steps, w, QUEUE_SIZE);
    w := Deltas(w, QUEUE_SIZE);
  }

  /**
   One conversation, one client, 256 deltas behind the first snapshot, and an error: all is handled, nothing
   is asked for, and the client still shows the first version.
   */
  lemma ErrorLeavesUnaware(conv: string) returns (before: seq<Step>, steps: seq<Step>, w: World)
    ensures Runs(Start(conv), steps, w) && OneReader(before) && steps == before + [Fail(conv), Receive, Send, Receive]
    ensures Settled(w) && Unaware(w) && At(w, conv, QUEUE_SIZE, 0, false)
  {
    before, w := FullBehindFirst(conv);
    steps := before;
    steps, w := GoOn(Start(conv), steps, w, Fail(conv));
    assert w.queue == [ErrorFrame(conv)];
    steps, w := GoOn(Start(conv), steps, w, Receive);
    steps, w := GoOn(Start(conv), steps, w, Send);
    steps, w := GoOn(Start(conv), steps, w, Receive);
    assert w.wire == [] && w.queue == [];
  }
}
