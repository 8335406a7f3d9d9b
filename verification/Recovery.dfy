/**
 Whether the client of Replication comes up to date: what waits decides it while nothing new happens, and
 for every step that brings something new it is said exactly when the step leaves the client behind.
 */
module Recovery {
  import opened Basics
  import opened Replication

  /** Where the frames on their way leave the client: it asks for a snapshot, or it ends at a version. */
  datatype Fate = Asks | Ends(version: nat, asked: bool)

  function Told(conv: string, fate: Fate, f: Frame): Fate {
    if fate.Asks? || f.conv != conv || f.ErrorFrame? then fate
    else if f.SnapshotFrame? then Ends(f.version, false)
    else if f.version <= fate.version then fate
    else if f.version == fate.version + 1 then Ends(f.version, fate.asked)
    else if fate.asked then fate
    else Asks
  }

  function FateOf(conv: string, fate: Fate, frames: seq<Frame>): Fate
    decreases |frames|
  {
    if frames == [] then fate else FateOf(conv, Told(conv, fate, frames[0]), frames[1..])
  }

  /** After what was sent. */
  function WireFate(w: World): Fate {
    FateOf(w.client.conv, Ends(w.client.version, w.client.asked), w.wire)
  }

  /** After all that waits. */
  function FullFate(w: World): Fate {
    FateOf(w.client.conv, WireFate(w), w.queue)
  }

  predicate EndsBehind(w: World, fate: Fate, asked: bool) {
    Alive(w, w.client.conv) && fate.Ends? && fate.version < VersionOf(w, w.client.conv) && fate.asked == asked
  }

  /** The client waits for a snapshot that is not coming. */
  predicate Stuck(w: World) {
    w.opens == 0 && EndsBehind(w, FullFate(w), true)
  }

  /** The client is behind and nothing on its way tells it so. */
  predicate Unaware(w: World) {
    w.opens == 0 && EndsBehind(w, FullFate(w), false)
  }

  /** A request is open, or what waits makes the client ask or leads to the newest version. */
  predicate Comes(w: World)
    requires Alive(w, w.client.conv)
  {
    w.opens > 0 || FullFate(w).Asks? || FullFate(w).version == VersionOf(w, w.client.conv)
  }

  lemma {:induction false} FateConcat(conv: string, fate: Fate, a: seq<Frame>, b: seq<Frame>)
    ensures FateOf(conv, fate, a + b) == FateOf(conv, FateOf(conv, fate, a), b)
    decreases |a|
  {
    if a == [] {
      assert a + b == b;
    } else {
      assert (a + b)[1..] == a[1..] + b;
      FateConcat(conv, Told(conv, fate, a[0]), a[1..], b);
    }
  }

  lemma FateOn(conv: string, fate: Fate, frames: seq<Frame>, f: Frame)
    ensures FateOf(conv, fate, frames + [f]) == Told(conv, FateOf(conv, fate, frames), f)
  {
    FateConcat(conv, fate, frames, [f]);
  }

  lemma FateOne(conv: string, fate: Fate, f: Frame)
    ensures FateOf(conv, fate, [f]) == Told(conv, fate, f)
  {
    assert ([f])[1..] == [];
  }

  /** A client that waits at the end waited all along, and never for less. */
  lemma {:induction false} WaitedBefore(conv: string, fate: Fate, frames: seq<Frame>)
    requires FateOf(conv, fate, frames).Ends? && FateOf(conv, fate, frames).asked
    ensures fate.Ends? && fate.asked && fate.version <= FateOf(conv, fate, frames).version
    decreases |frames|
  {
    if frames != [] {
      WaitedBefore(conv, Told(conv, fate, frames[0]), frames[1..]);
    }
  }

  lemma {:induction false} AsksOnce(conv: string, frames: seq<Frame>)
    ensures FateOf(conv, Asks, frames) == Asks
  {
    if frames != [] {
      AsksOnce(conv, frames[1..]);
    }
  }

  lemma {:induction false} FateBounded(convs: map<string, History>, conv: string, fate: Fate, frames: seq<Frame>)
    requires FramesTrue(convs, frames) && conv in convs
    requires fate.Ends? ==> fate.version < |convs[conv]|
    ensures FateOf(conv, fate, frames).Ends? ==> FateOf(conv, fate, frames).version < |convs[conv]|
    decreases |frames|
  {
    if frames != [] {
      assert FrameTrue(convs, frames[0]);
      forall k | 0 <= k < |frames[1..]|
        ensures FrameTrue(convs, frames[1..][k])
      {
        assert FrameTrue(convs, frames[k + 1]);
      }
      FateBounded(convs, conv, Told(conv, fate, frames[0]), frames[1..]);
    }
  }

  lemma FatesBounded(w: World)
    requires Inv(w) && Alive(w, w.client.conv)
    ensures WireFate(w).Ends? ==> WireFate(w).version <= VersionOf(w, w.client.conv)
    ensures FullFate(w).Ends? ==> FullFate(w).version <= VersionOf(w, w.client.conv)
  {
    FateBounded(w.convs, w.client.conv, Ends(w.client.version, w.client.asked), w.wire);
    FateBounded(w.convs, w.client.conv, WireFate(w), w.queue);
  }

  /** A client comes up to date, waits in vain or is unaware, and only one of them. */
  lemma OneOfThree(w: World)
    requires Inv(w) && Alive(w, w.client.conv)
    ensures Comes(w) <==> !Stuck(w) && !Unaware(w)
    ensures !(Stuck(w) && Unaware(w))
  {
    FatesBounded(w);
  }

  // ---------------------------------------------------------------- quiet runs

  /** What happens without anything new in the conversations, with the connection as it is and no refusal. */
  predicate Quiet(step: Step) {
    step.ServeOpen? || step.Send? || step.Receive?
  }

  predicate Settled(w: World) {
    w.queue == [] && w.wire == [] && w.opens == 0
  }

  ghost predicate QuietRun(steps: seq<Step>) {
    forall k {:trigger Quiet(steps[k])} :: 0 <= k < |steps| ==> Quiet(steps[k])
  }

  lemma HandledTold(w: World, f: Frame)
    ensures var c, d := w.client, Handled(w, f).client;
            && d.conv == c.conv
            && Told(c.conv, Ends(c.version, c.asked), f) ==
               if Handled(w, f).opens > w.opens then Asks else Ends(d.version, d.asked)
    ensures w.opens <= Handled(w, f).opens <= w.opens + 1
    ensures Handled(w, f).convs == w.convs && Handled(w, f).wire == w.wire && Handled(w, f).queue == w.queue
    ensures Handled(w, f).subscribed == w.subscribed
  {
  }

  lemma ReceiveFate(w: World)
    requires w.wire != []
    ensures var v := Next(w, Receive);
            && v.convs == w.convs && v.client.conv == w.client.conv
            && if v.opens > w.opens then FullFate(w).Asks?
               else v.opens == w.opens && WireFate(v) == WireFate(w) && FullFate(v) == FullFate(w)
  {
    var u := w.(wire := w.wire[1..]);
    HandledTold(u, w.wire[0]);
    if Handled(u, w.wire[0]).opens > w.opens {
      AsksOnce(w.client.conv, w.wire[1..]);
      AsksOnce(w.client.conv, w.queue);
    }
  }

  lemma SendFate(w: World)
    requires w.queue != []
    ensures FullFate(Next(w, Send)) == FullFate(w)
  {
    FateOn(w.client.conv, Ends(w.client.version, w.client.asked), w.wire, w.queue[0]);
  }

  lemma ServeFate(w: World)
    requires Enabled(w, ServeOpen)
    ensures FullFate(Next(w, ServeOpen)) ==
              if WireFate(w).Asks? then Asks else Ends(VersionOf(w, w.client.conv), false)
  {
    var snapshot := SnapshotOf(w.client.conv, w.convs[w.client.conv]);
    assert Next(w, ServeOpen).queue == [snapshot];
    FateOne(w.client.conv, WireFate(w), snapshot);
  }

  /** A quiet step neither helps nor hurts. */
  lemma QuietKeeps(w: World, step: Step)
    requires Alive(w, w.client.conv) && Quiet(step) && Enabled(w, step)
    ensures Next(w, step).convs == w.convs && Next(w, step).client.conv == w.client.conv
    ensures Comes(Next(w, step)) <==> Comes(w)
    ensures Stuck(Next(w, step)) <==> Stuck(w)
    ensures Unaware(Next(w, step)) <==> Unaware(w)
  {
    match step
    case ServeOpen => ServeFate(w);
    case Send => SendFate(w);
    case Receive => ReceiveFate(w);
  }

  function Weight(frames: seq<Frame>, passing: nat): nat {
    if frames == [] then 0
    else (if frames[0].SnapshotFrame? then passing else passing + 3) + Weight(frames[1..], passing)
  }

  /** Bounds the quiet steps that are left: a gap costs a frame and makes at most one request. */
  function Left(w: World): nat {
    Weight(w.queue, 2) + Weight(w.wire, 1) + 3 * w.opens
  }

  lemma {:induction false} WeightOn(frames: seq<Frame>, f: Frame, passing: nat)
    ensures Weight(frames + [f], passing) == Weight(frames, passing) + Weight([f], passing)
  {
    if frames == [] {
      assert frames + [f] == [f];
    } else {
      assert (frames + [f])[1..] == frames[1..] + [f];
      WeightOn(frames[1..], f, passing);
    }
  }

  lemma QuietShrinks(w: World, step: Step)
    requires Quiet(step) && Enabled(w, step)
    ensures Left(Next(w, step)) < Left(w)
  {
    match step
    case ServeOpen =>
      var snapshot := SnapshotOf(w.client.conv, w.convs[w.client.conv]);
      assert Next(w, step).queue == [snapshot] && Weight([snapshot], 2) == 2;
    case Send => WeightOn(w.wire, w.queue[0], 1);
    case Receive => HandledTold(w.(wire := w.wire[1..]), w.wire[0]);
  }

  lemma {:induction false} QuietRunKeeps(w: World, steps: seq<Step>, v: World)
    requires Alive(w, w.client.conv) && Runs(w, steps, v) && QuietRun(steps)
    ensures v.convs == w.convs && v.client.conv == w.client.conv
    ensures Comes(v) <==> Comes(w)
    ensures |steps| + Left(v) <= Left(w)
    decreases |steps|
  {
    if steps != [] {
      assert Quiet(steps[0]);
      QuietKeeps(w, steps[0]);
      QuietShrinks(w, steps[0]);
      forall k | 0 <= k < |steps[1..]|
        ensures Quiet(steps[1..][k])
      {
        assert Quiet(steps[k + 1]);
      }
      QuietRunKeeps(Next(w, steps[0]), steps[1..], v);
    }
  }

  /**
   Left to themselves, server, listener and client settle after a bounded number of steps, in whatever
   order these come; and the client then shows the newest version exactly when a request was open, or what
   waited made it ask or led there.  Requests are served here; EvenIfRefused and RefusalsShow are about refusals.
   */
  lemma QuietRunsConverge(w: World, steps: seq<Step>, v: World)
    requires Inv(w) && Alive(w, w.client.conv) && Runs(w, steps, v) && QuietRun(steps)
    ensures |steps| <= Left(w)
    ensures v.convs == w.convs && v.client.conv == w.client.conv
    ensures Settled(v) <==> forall step :: Quiet(step) ==> !Enabled(v, step)
    ensures Settled(v) ==> (v.client.version == VersionOf(v, v.client.conv) <==> Comes(w))
    ensures Settled(v) && !Comes(w) ==> (v.client.asked <==> Stuck(v))
  {
    QuietRunKeeps(w, steps, v);
    RunKeepsInv(w, steps, v);
    FatesBounded(v);
    assert Quiet(ServeOpen) && Quiet(Send) && Quiet(Receive);
  }

  // ---------------------------------------------------------------- when requests are refused

  function Shown(conv: string, version: nat, f: Frame): nat {
    if f.conv == conv && !f.ErrorFrame? && (f.SnapshotFrame? || f.version == version + 1) then f.version else version
  }

  /** The version the client shows after these frames, whatever it asks for on the way. */
  function ShownAfter(conv: string, version: nat, frames: seq<Frame>): nat
    decreases |frames|
  {
    if frames == [] then version else ShownAfter(conv, Shown(conv, version, frames[0]), frames[1..])
  }

  function ShownAtLast(w: World): nat {
    ShownAfter(w.client.conv, w.client.version, w.wire + w.queue)
  }

  lemma {:induction false} ShownOn(conv: string, version: nat, frames: seq<Frame>, f: Frame)
    ensures ShownAfter(conv, version, frames + [f]) == Shown(conv, ShownAfter(conv, version, frames), f)
    decreases |frames|
  {
    if frames == [] {
      assert frames + [f] == [f] && ([f])[1..] == [];
    } else {
      assert (frames + [f])[1..] == frames[1..] + [f];
      ShownOn(conv, Shown(conv, version, frames[0]), frames[1..], f);
    }
  }

  predicate Answering(step: Step) {
    Quiet(step) || step.RefuseOpen?
  }

  ghost predicate AnsweringRun(steps: seq<Step>) {
    forall k {:trigger Answering(steps[k])} :: 0 <= k < |steps| ==> Answering(steps[k])
  }

  lemma ReceiveShows(w: World)
    requires w.wire != []
    ensures var v := Next(w, Receive);
            ShownAtLast(v) == ShownAtLast(w) && v.convs == w.convs && v.client.conv == w.client.conv
  {
    HandledShown(w.(wire := w.wire[1..]), w.wire[0]);
    assert (w.wire + w.queue)[1..] == w.wire[1..] + w.queue;
  }

  lemma HandledShown(w: World, f: Frame)
    ensures Handled(w, f).client.version == Shown(w.client.conv, w.client.version, f)
    ensures Handled(w, f).client.conv == w.client.conv && Handled(w, f).convs == w.convs
    ensures Handled(w, f).wire == w.wire && Handled(w, f).queue == w.queue
  {
  }

  lemma ServeShows(w: World)
    requires Enabled(w, ServeOpen)
    ensures var v := Next(w, ServeOpen);
            && ShownAtLast(v) == VersionOf(w, w.client.conv)
            && v.convs == w.convs && v.client.conv == w.client.conv
  {
    var snapshot := SnapshotOf(w.client.conv, w.convs[w.client.conv]);
    assert Next(w, ServeOpen).queue == [snapshot];
    ShownOn(w.client.conv, w.client.version, w.wire, snapshot);
  }

  lemma SendShows(w: World)
    requires w.queue != []
    ensures var v := Next(w, Send);
            ShownAtLast(v) == ShownAtLast(w) && v.convs == w.convs && v.client.conv == w.client.conv
  {
    assert w.wire + [w.queue[0]] + w.queue[1..] == w.wire + w.queue;
  }

  /** Sending and receiving do not change what is shown at last, nor does a refusal; serving makes it the newest. */
  lemma AnsweringShows(w: World, step: Step)
    requires Alive(w, w.client.conv) && Answering(step) && Enabled(w, step)
    ensures Next(w, step).convs == w.convs && Next(w, step).client.conv == w.client.conv
    ensures ShownAtLast(Next(w, step)) == if step.ServeOpen? then VersionOf(w, w.client.conv) else ShownAtLast(w)
  {
    match step
    case ServeOpen => ServeShows(w);
    case RefuseOpen =>
    case Send => SendShows(w);
    case Receive => ReceiveShows(w);
  }

  lemma AnsweringShrinks(w: World, step: Step)
    requires Answering(step) && Enabled(w, step)
    ensures Left(Next(w, step)) < Left(w)
  {
    if !step.RefuseOpen? {
      QuietShrinks(w, step);
    }
  }

  /**
   When the frames that wait lead to the newest version, the client shows it once all is settled, whichever
   of its requests are served or refused.
   */
  lemma {:induction false} EvenIfRefused(w: World, steps: seq<Step>, v: World)
    requires Alive(w, w.client.conv) && ShownAtLast(w) == VersionOf(w, w.client.conv)
    requires Runs(w, steps, v) && AnsweringRun(steps)
    ensures |steps| + Left(v) <= Left(w)
    ensures v.convs == w.convs && v.client.conv == w.client.conv
    ensures Settled(v) ==> v.client.version == VersionOf(w, w.client.conv)
    decreases |steps|
  {
    if steps == [] {
    } else {
      assert Answering(steps[0]);
      AnsweringShows(w, steps[0]);
      AnsweringShrinks(w, steps[0]);
      forall k | 0 <= k < |steps[1..]|
        ensures Answering(steps[1..][k])
      {
        assert Answering(steps[k + 1]);
      }
      EvenIfRefused(Next(w, steps[0]), steps[1..], v);
    }
  }

  /** Otherwise it may not: when all its requests are refused it shows just what the frames lead to. */
  lemma {:induction false} RefusalsShow(w: World) returns (steps: seq<Step>, v: World)
    requires Alive(w, w.client.conv)
    ensures Runs(w, steps, v) && AnsweringRun(steps) && Settled(v)
    ensures v.convs == w.convs && v.client.conv == w.client.conv && v.client.version == ShownAtLast(w)
    decreases Left(w)
  {
    if Settled(w) {
      steps, v := [], w;
    } else {
      var step := if w.queue != [] then Send else if w.wire != [] then Receive else RefuseOpen;
      AnsweringShows(w, step);
      AnsweringShrinks(w, step);
      var rest;
      rest, v := RefusalsShow(Next(w, step));
      steps := [step] + rest;
      assert steps[1..] == rest;
      forall k | 0 <= k < |steps|
        ensures Answering(steps[k])
      {
        assert k > 0 ==> steps[k] == rest[k - 1] && Answering(rest[k - 1]);
      }
    }
  }

  // ---------------------------------------------------------------- what leaves a client behind

  /** The step throws away what waits in the queue. */
  predicate Drains(w: World, step: Step) {
    match step
    case Open(_) => true
    case Delta(conv, _) => conv in w.subscribed && |w.queue| >= QUEUE_SIZE
    case Commit(conv, _) => conv in w.subscribed && |w.queue| >= QUEUE_SIZE
    case Fail(conv) => conv in w.subscribed && |w.queue| >= QUEUE_SIZE
    case _ => false
  }

  /**
   When a step leaves the client behind, waiting or not: its last request is refused and what waits does not
   help; or, with no request open, a new version is not told to the listener, or comes in place of a queue
   the client waits for, or another frame comes in place of the queue it needs.
   */
  predicate Misses(w: World, step: Step, asked: bool) {
    var conv := w.client.conv;
    && Alive(w, conv) && w.opens == (if step.RefuseOpen? then 1 else 0)
    && if step.RefuseOpen? then EndsBehind(w, FullFate(w), asked)
       else if (step.Delta? || step.Commit?) && step.conv == conv then
         if conv in w.subscribed then asked && Drains(w, step) && EndsBehind(w, WireFate(w), true)
         else FullFate(w) == Ends(VersionOf(w, conv), asked)
       else step != Open(conv) && Drains(w, step) && EndsBehind(w, WireFate(w), asked)
  }

  lemma PublishedFate(w: World, conv: string, f: Frame)
    requires conv in w.subscribed
    ensures FullFate(Published(w, conv, f)) ==
              Told(w.client.conv, if f.SnapshotFrame? || |w.queue| >= QUEUE_SIZE then WireFate(w) else FullFate(w), f)
  {
    FateOn(w.client.conv, WireFate(w), w.queue, f);
    FateOne(w.client.conv, WireFate(w), f);
  }

  lemma ToldMisses(w: World, step: Step, f: Frame)
    requires Inv(w) && Alive(w, w.client.conv) && (step.Delta? || step.Commit?) && step.conv == w.client.conv
    requires f.conv == w.client.conv && (f.DeltaFrame? || f.CommitFrame?) && f.version == VersionOf(w, f.conv) + 1
    requires f.conv in w.subscribed && w.opens == 0
    ensures var fate := FullFate(Published(w, f.conv, f));
            && (fate.Ends? && fate.version < f.version && fate.asked ==> Misses(w, step, true) || Stuck(w))
            && (Misses(w, step, true) ==> fate.Ends? && fate.version < f.version && fate.asked)
            && !(fate.Ends? && fate.version < f.version && !fate.asked)
  {
    PublishedFate(w, f.conv, f);
    FatesBounded(w);
  }

  /** The client's own conversation has a new version. */
  lemma VersionSticks(w: World, step: Step)
    requires Inv(w) && Alive(w, w.client.conv) && (step.Delta? || step.Commit?) && step.conv == w.client.conv
    requires w.opens == 0 && Enabled(w, step)
    ensures Stuck(Next(w, step)) <==> Misses(w, step, true) || Stuck(w)
    ensures Unaware(Next(w, step)) <==> Misses(w, step, false) || (Unaware(w) && step.conv !in w.subscribed)
  {
    if step.conv in w.subscribed {
      var f := if step.Delta? then DeltaFrame(step.conv, step.chunk, |w.convs[step.conv]|)
               else CommitFrame(step.conv, step.append, |w.convs[step.conv]|);
      ToldMisses(w, step, f);
      assert FullFate(Next(w, step)) == FullFate(Published(w, f.conv, f));
      if Stuck(w) {
        PublishedFate(w, f.conv, f);
        WaitedBefore(f.conv, WireFate(w), w.queue);
      }
    } else {
      assert FullFate(Next(w, step)) == FullFate(w);
      FatesBounded(w);
    }
  }

  /** Anything else that is published, in the client's conversation or not. */
  lemma OtherFate(w: World, step: Step)
    requires Enabled(w, step) && !Answering(step) && !step.Reconnect? && step != Open(w.client.conv)
    requires (step.Delta? || step.Commit?) ==> step.conv != w.client.conv
    ensures FullFate(Next(w, step)) == if Drains(w, step) then WireFate(w) else FullFate(w)
    ensures Next(w, step).client == w.client && Next(w, step).opens == w.opens
    ensures w.client.conv in w.convs ==>
              w.client.conv in Next(w, step).convs && Next(w, step).convs[w.client.conv] == w.convs[w.client.conv]
  {
    match step
    case Create(conv, _) =>
    case Delta(conv, chunk) =>
      if conv in w.subscribed { PublishedFate(w, conv, DeltaFrame(conv, chunk, |w.convs[conv]|)); }
    case Commit(conv, append) =>
      if conv in w.subscribed { PublishedFate(w, conv, CommitFrame(conv, append, |w.convs[conv]|)); }
    case Fail(conv) =>
      if conv in w.subscribed { PublishedFate(w, conv, ErrorFrame(conv)); }
    case Open(conv) =>
      PublishedFate(w.(subscribed := w.subscribed + {conv}), conv, SnapshotOf(conv, w.convs[conv]));
    case Close(conv) =>
  }

  /** An opening of the client's conversation helps whatever waited before. */
  lemma OpenComes(w: World)
    requires Alive(w, w.client.conv)
    ensures Comes(Next(w, Open(w.client.conv)))
  {
    PublishedFate(w.(subscribed := w.subscribed + {w.client.conv}), w.client.conv,
                  SnapshotOf(w.client.conv, w.convs[w.client.conv]));
  }

  lemma StuckIsBehind(w: World)
    requires Stuck(w)
    ensures w.client.asked && w.client.version < VersionOf(w, w.client.conv)
    ensures EndsBehind(w, WireFate(w), true)
  {
    WaitedBefore(w.client.conv, WireFate(w), w.queue);
    WaitedBefore(w.client.conv, Ends(w.client.version, w.client.asked), w.wire);
  }

  lemma CreateSticks(w: World, conv: string, prefix: seq<Item>)
    requires Inv(w) && conv !in w.convs && conv == w.client.conv
    ensures !Stuck(Next(w, Create(conv, prefix)))
  {
    var v := Next(w, Create(conv, prefix));
    StepKeepsInv(w, Create(conv, prefix));
    FatesBounded(v);
  }

  /**
   Whatever the interleaving, a step leaves the client waiting for a snapshot that is not coming exactly
   when it makes it miss something it waits for, or the client was stuck and the step neither reconnects
   nor opens its conversation.
   */
  lemma StepSticks(w: World, step: Step)
    requires Inv(w) && Enabled(w, step)
    ensures Stuck(Next(w, step)) <==>
              Misses(w, step, true) || (Stuck(w) && !step.Reconnect? && step != Open(w.client.conv))
  {
    var conv := w.client.conv;
    if !Alive(w, conv) {
      if step.Create? && step.conv == conv {
        CreateSticks(w, conv, step.prefix);
      }
    } else if Quiet(step) {
      QuietKeeps(w, step);
    } else if step.Reconnect? || step.RefuseOpen? {
    } else if step == Open(conv) {
      OpenComes(w);
    } else if (step.Delta? || step.Commit?) && step.conv == conv {
      if w.opens == 0 {
        VersionSticks(w, step);
      }
    } else {
      OtherFate(w, step);
      if Stuck(w) {
        StuckIsBehind(w);
      }
    }
  }

  /**
   And it leaves a client behind without a word exactly when it makes a client that would have come up to
   date miss a frame that it does not know of; the next version told to the listener ends that.
   */
  lemma StepUnaware(w: World, step: Step)
    requires Inv(w) && Alive(w, w.client.conv) && Enabled(w, step)
    ensures Comes(w) ==> (Unaware(Next(w, step)) <==> Misses(w, step, false))
    ensures (step.Delta? || step.Commit?) && step.conv == w.client.conv && step.conv in w.subscribed ==>
              !Unaware(Next(w, step))
  {
    var conv := w.client.conv;
    FatesBounded(w);
    if Quiet(step) {
      QuietKeeps(w, step);
    } else if step.Reconnect? || step.RefuseOpen? {
    } else if step == Open(conv) {
      OpenComes(w);
    } else if (step.Delta? || step.Commit?) && step.conv == conv {
      if w.opens == 0 {
        VersionSticks(w, step);
      }
    } else {
      OtherFate(w, step);
    }
  }

  /** A stuck client stays behind, whatever the conversations, the listener and the client do. */
  lemma {:induction false} StuckForever(w: World, steps: seq<Step>, v: World)
    requires Inv(w) && Stuck(w) && Runs(w, steps, v)
    requires forall k :: 0 <= k < |steps| ==> !steps[k].Reconnect? && steps[k] != Open(w.client.conv)
    ensures Stuck(v) && v.client.conv == w.client.conv && v.client.version < VersionOf(v, v.client.conv)
    decreases |steps|
  {
    if steps == [] {
      StuckIsBehind(w);
    } else {
      assert !steps[0].Reconnect? && steps[0] != Open(w.client.conv);
      StepSticks(w, steps[0]);
      StepKeepsInv(w, steps[0]);
      StuckForever(Next(w, steps[0]), steps[1..], v);
    }
  }

  /**
   The queue overflows while the client is behind and nothing is under way: the gap makes the client ask
   for a snapshot exactly when it was not waiting for one already; if it was, and the request had been
   served, the snapshot was among the frames thrown away.
   */
  lemma OverflowAsks(w: World, step: Step)
    requires Inv(w) && Alive(w, w.client.conv) && w.client.conv in w.subscribed
    requires (step.Delta? || step.Commit?) && step.conv == w.client.conv
    requires |w.queue| == QUEUE_SIZE && w.wire == [] && w.client.version < VersionOf(w, w.client.conv)
    ensures var v := Next(Next(Next(w, step), Send), Receive);
            && (v.opens == w.opens + 1 <==> !w.client.asked)
            && (Stuck(v) <==> w.client.asked && w.opens == 0)
  {
    var a := Next(w, step);
    assert |a.queue| == 1 && a.queue[0].conv == w.client.conv && a.queue[0].version == |w.convs[w.client.conv]|;
    StepSticks(w, step);
    QuietKeeps(a, Send);
    QuietKeeps(Next(a, Send), Receive);
    if Stuck(w) {
      StuckIsBehind(w);
    }
  }

  // ---------------------------------------------------------------- frames without a version

  predicate Carries(f: Frame, conv: string, version: nat) {
    f.conv == conv && (f.DeltaFrame? || f.CommitFrame?) && f.version == version
  }

  predicate HasVersion(frames: seq<Frame>, conv: string, version: nat) {
    exists k :: 0 <= k < |frames| && Carries(frames[k], conv, version)
  }

  /** The newest version of a conversation is among the frames that wait. */
  predicate NewestWaits(w: World, conv: string) {
    Alive(w, conv) && HasVersion(w.queue, conv, VersionOf(w, conv))
  }

  /** Every delta and commit of an open conversation waits when it was published, overflow or not. */
  lemma NewestRetained(w: World, conv: string, step: Step)
    requires Alive(w, conv) && conv in w.subscribed && (step.Delta? || step.Commit?) && step.conv == conv
    ensures NewestWaits(Next(w, step), conv)
  {
  }

  /**
   In place of a full queue, an error frame reaches the client without changing what it shows or making it
   ask, and nothing else is left to reach it.
   */
  lemma ErrorUnnoticed(w: World)
    requires Inv(w) && w.client.conv in w.subscribed && |w.queue| == QUEUE_SIZE && w.wire == []
    ensures var v := Next(Next(Next(w, Fail(w.client.conv)), Send), Receive);
            v == w.(queue := [])
  {
    assert Next(w, Fail(w.client.conv)).queue == [ErrorFrame(w.client.conv)];
  }
}
