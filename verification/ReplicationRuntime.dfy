/** Conversation, listener and client as they are updated, against Replication. */
module ReplicationRuntime {
  import opened Basics
  import opened Replication

  class WsListener {
    var frames: seq<Frame>
    var closed: bool

    constructor ()
      ensures frames == [] && !closed
    {
      frames, closed := [], false;
    }

    ghost function After(frame: Frame): seq<Frame>
      reads this
    {
      if closed then frames else Enqueued(frames, frame)
    }

    method Drain()
      modifies this`frames
      ensures frames == []
    {
      while frames != []
        decreases |frames|
      {
        frames := frames[1..];
      }
    }

    method Enqueue(frame: Frame, reset: bool)
      requires reset == frame.SnapshotFrame?
      modifies this`frames
      ensures frames == old(After(frame))
    {
      if closed {
        return;
      }
      if reset {
        Drain();
      }
      if |frames| >= QUEUE_SIZE {
        Drain();
      }
      frames := frames + [frame];
    }

    /** Only the newest items of the history are sent along. */
    method OnSnapshot(conv: string, prefix: seq<Item>, living: seq<Chunk>, version: nat)
      modifies this`frames
      ensures frames == old(After(SnapshotFrame(conv, Tail(prefix), living, version)))
    {
      var newest := if |prefix| > SNAPSHOT_HISTORY_LIMIT then prefix[|prefix| - SNAPSHOT_HISTORY_LIMIT..] else prefix;
      Enqueue(SnapshotFrame(conv, newest, living, version), true);
    }

    method OnDelta(conv: string, chunk: Chunk, version: nat)
      modifies this`frames
      ensures frames == old(After(DeltaFrame(conv, chunk, version)))
    {
      Enqueue(DeltaFrame(conv, chunk, version), false);
    }

    method OnCommit(conv: string, append: seq<Item>, version: nat)
      modifies this`frames
      ensures frames == old(After(CommitFrame(conv, append, version)))
    {
      Enqueue(CommitFrame(conv, append, version), false);
    }

    method OnError(conv: string)
      modifies this`frames
      ensures frames == old(After(ErrorFrame(conv)))
    {
      Enqueue(ErrorFrame(conv), false);
    }
  }

  class Conversation {
    const id: string
    var prefix: seq<Item>
    var livingChunks: seq<Chunk>
    var version: nat
    var subscribers: set<WsListener>
    ghost var history: History

    constructor (id: string, prefix: seq<Item>)
      ensures Valid() && this.id == id && history == [Snap(prefix, [])] && subscribers == {}
    {
      this.id := id;
      this.prefix, livingChunks, version, subscribers := prefix, [], 0, {};
      history := [Snap(prefix, [])];
    }

    /** The fields are the last state; the version counts the states before it. */
    ghost predicate Valid()
      reads this
    {
      history != [] && Last(history) == Snap(prefix, livingChunks) && version == |history| - 1
    }

    method Subscribe(listener: WsListener)
      requires Valid()
      modifies this`subscribers, listener`frames
      ensures Valid() && subscribers == old(subscribers) + {listener}
      ensures listener.frames == old(listener.After(SnapshotOf(id, history)))
    {
      subscribers := subscribers + {listener};
      listener.OnSnapshot(id, prefix, livingChunks, version);
    }

    method Unsubscribe(listener: WsListener)
      requires Valid()
      modifies this`subscribers
      ensures Valid() && subscribers == old(subscribers) - {listener}
    {
      subscribers := subscribers - {listener};
    }

    /** Every subscriber is told. */
    method Notify(frame: Frame)
      requires !frame.SnapshotFrame? && frame.conv == id
      modifies subscribers`frames
      ensures forall s :: s in subscribers ==> s.frames == old(s.After(frame))
    {
      var todo := subscribers;
      while todo != {}
        invariant todo <= subscribers
        invariant forall s :: s in subscribers ==> s.frames == if s in todo then old(s.frames) else old(s.After(frame))
        decreases |todo|
      {
        var s :| s in todo;
        match frame {
          case DeltaFrame(_, chunk, v) => s.OnDelta(id, chunk, v);
          case CommitFrame(_, append, v) => s.OnCommit(id, append, v);
          case ErrorFrame(_) => s.OnError(id);
        }
        todo := todo - {s};
      }
    }

    method EmitDelta(chunk: Chunk)
      requires Valid()
      modifies this`livingChunks, this`version, this`history, subscribers`frames
      ensures Valid() && history == old(history) + [Last(old(history)).(living := Last(old(history)).living + [chunk])]
      ensures forall s :: s in subscribers ==> s.frames == old(s.After(DeltaFrame(id, chunk, |history|)))
    {
      livingChunks := livingChunks + [chunk];
      version := version + 1;
      history := history + [Snap(prefix, livingChunks)];
      Notify(DeltaFrame(id, chunk, version));
    }

    method PublishCommit(append: seq<Item>)
      requires Valid()
      modifies this`prefix, this`livingChunks, this`version, this`history, subscribers`frames
      ensures Valid() && history == old(history) + [Snap(Last(old(history)).prefix + append, [])]
      ensures forall s :: s in subscribers ==> s.frames == old(s.After(CommitFrame(id, append, |history|)))
    {
      prefix := prefix + append;
      livingChunks := [];
      version := version + 1;
      history := history + [Snap(prefix, livingChunks)];
      Notify(CommitFrame(id, append, version));
    }

    method EmitError()
      requires Valid()
      modifies subscribers`frames
      ensures Valid() && forall s :: s in subscribers ==> s.frames == old(s.After(ErrorFrame(id)))
    {
      Notify(ErrorFrame(id));
    }
  }

  /** The browser's copy of one conversation. */
  class Session {
    const conv: string
    var localVersion: nat
    var prefix: seq<Item>
    var living: seq<Chunk>
    var resubscribing: bool

    constructor (conv: string)
      ensures View() == Start(conv).client
    {
      this.conv := conv;
      localVersion, prefix, living, resubscribing := 0, [], [], false;
    }

    ghost function View(): Client
      reads this
    {
      Client(conv, localVersion, prefix, living, resubscribing)
    }

    method RequestSnapshot() returns (sent: bool)
      modifies this`resubscribing
      ensures resubscribing && sent == !old(resubscribing)
    {
      if resubscribing {
        return false;
      }
      resubscribing := true;
      sent := true;
    }

    /** `sent` tells whether a snapshot was asked for. */
    method Handle(frame: Frame) returns (sent: bool)
      modifies this
      ensures forall w: World :: w.client == old(View()) ==>
                Handled(w, frame) == w.(client := View(), opens := w.opens + if sent then 1 else 0)
    {
      sent := false;
      if frame.conv != conv || frame.ErrorFrame? {
        return;
      }
      if frame.SnapshotFrame? {
        localVersion, prefix, living, resubscribing := frame.version, frame.prefix, frame.living, false;
        return;
      }
      if frame.version <= localVersion {
        return;
      }
      if frame.version != localVersion + 1 {
        sent := RequestSnapshot();
        return;
      }
      localVersion := frame.version;
      if frame.DeltaFrame? {
        living := living + [frame.chunk];
      } else {
        prefix := prefix + frame.append;
        living := [];
      }
    }
  }
}
