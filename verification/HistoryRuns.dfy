/** Runs of ResponseHistory in which a request does not read all of the conversation. */
module HistoryRuns {
  import opened Basics
  import opened ResponseHistory

  // ---------------------------------------------------------------- a lost append and a reload

  lemma {:induction false} RunsOn(c: Session, steps: seq<Step>, d: Session, step: Step)
    requires Runs(c, steps, d) && Enabled(d, step)
    ensures Runs(c, steps + [step], Next(d, step))
    decreases |steps|
  {
    if steps == [] {
      assert ([step])[1..] == [];
    } else {
      assert (steps + [step])[1..] == steps[1..] + [step];
      RunsOn(Next(c, steps[0]), steps[1..], d, step);
    }
  }

  /** A run with one more step. */
  lemma GoOn(start: Session, steps: seq<Step>, c: Session, step: Step) returns (more: seq<Step>, d: Session)
    requires Runs(start, steps, c) && Enabled(c, step)
    ensures Runs(start, more, d) && more == steps + [step] && d == Next(c, step)
  {
    RunsOn(start, steps, c, step);
    more, d := steps + [step], Next(c, step);
  }

  predicate Plain(items: seq<HistoryItem>) {
    forall k {:trigger items[k]} :: 0 <= k < |items| ==> !items[k].ToolSpecs? && !items[k].SystemPrompt?
  }

  lemma {:induction false} PlainMessages(items: seq<HistoryItem>)
    requires Plain(items)
    ensures Messages(items) == items
  {
    if items != [] {
      assert Plain(Front(items));
      PlainMessages(Front(items));
      assert MessageOf(items[|items| - 1]) == [items[|items| - 1]];
    }
  }

  const NEW := Session([], [], CLEARED, [], CLEARED, [])

  function Says(text: string): HistoryItem { Input("user", "user", text) }

  /** One turn: what the user says is written and a response completes. */
  lemma Turn(steps: seq<Step>, c: Session, text: string, id: string) returns (more: seq<Step>, d: Session)
    requires Runs(NEW, steps, c) && c.pending == [] && Plain(c.items) && !Mismatch(c.state, "e", "m")
    requires id != "" && !Known(c.log, "e", id)
    ensures Runs(NEW, more, d)
    ensures more == steps + [Append([Says(text)]), Commit, Request("e", "m", Completed(id))]
    ensures d.items == c.items + [Says(text)] && d.storedItems == c.storedItems + [Says(text)] && d.pending == []
    ensures d.state == State(Some("e"), Some("m"), id, |d.items|, c.state.compacted)
    ensures |d.log| == |c.log| + 1 && d.log[..|c.log|] == c.log && Last(d.log).id == id
    ensures d.storedState == c.storedState
  {
    more, d := GoOn(NEW, steps, c, Append([Says(text)]));
    more, d := GoOn(NEW, more, d, Commit);
    PlainMessages(d.items);
    more, d := GoOn(NEW, more, d, Request("e", "m", Completed(id)));
  }

  function Word(text: string): HistoryItem { Generated(text) }

  /** Only generated items: messages of which nothing is ever sent. */
  predicate Words(items: seq<HistoryItem>) {
    forall k {:trigger items[k]} :: 0 <= k < |items| ==> items[k].Generated?
  }

  /** An answer is in memory, and its write is lost with the run. */
  lemma AnswerLost(steps: seq<Step>, c: Session, lost: seq<HistoryItem>) returns (more: seq<Step>, d: Session)
    requires Runs(NEW, steps, c) && c.pending == []
    ensures Runs(NEW, more, d) && more == steps + [Append(lost), Lose]
    ensures d == c.(items := c.items + lost)
  {
    more, d := GoOn(NEW, steps, c, Append(lost));
    more, d := GoOn(NEW, more, d, Lose);
  }

  lemma AnswerKept(steps: seq<Step>, c: Session) returns (more: seq<Step>, d: Session)
    requires Runs(NEW, steps, c) && c.pending == []
    ensures Runs(NEW, more, d) && more == steps + [Append([Word("a")]), Commit, Persist]
    ensures d == c.(items := c.items + [Word("a")], storedItems := c.storedItems + [Word("a")], storedState := c.state)
  {
    more, d := GoOn(NEW, steps, c, Append([Word("a")]));
    more, d := GoOn(NEW, more, d, Commit);
    more, d := GoOn(NEW, more, d, Persist);
  }

  /** The stored cursor counts the lost items, which the store does not have. */
  ghost predicate Ahead(c: Session, lost: seq<HistoryItem>) {
    && c.items == [Says("1")] + lost + [Says("2")] + [Word("a")] && c.pending == []
    && c.storedItems == [Says("1"), Says("2"), Word("a")]
    && c.storedState == State(Some("e"), Some("m"), "r2", |lost| + 2, None)
  }

  function StepsAhead(lost: seq<HistoryItem>): seq<Step> {
    [Append([Says("1")]), Commit, Request("e", "m", Completed("r1"))] + [Append(lost), Lose]
    + [Append([Says("2")]), Commit, Request("e", "m", Completed("r2"))] + [Append([Word("a")]), Commit, Persist]
  }

  /** The first answer is lost with its run; the next turn completes and is written. */
  lemma CursorAhead(lost: seq<HistoryItem>) returns (c: Session)
    requires Words(lost)
    ensures Runs(NEW, StepsAhead(lost), c) && Ahead(c, lost)
  {
    var steps;
    steps, c := Turn([], NEW, "1", "r1");
    steps, c := AnswerLost(steps, c, lost);
    steps, c := Turn(steps, c, "2", "r2");
    steps, c := AnswerKept(steps, c);
    assert steps == StepsAhead(lost);
  }

  function Heard(text: string): Wire { Message("user", text) }

  lemma ItemsOn(history: seq<HistoryItem>, item: HistoryItem)
    ensures ResponseItems(history + [item]) == ResponseItems(history) + WireOf(item)
  {
    assert Front(history + [item]) == history;
  }

  lemma {:induction false} WordsUnsent(items: seq<HistoryItem>)
    requires Words(items)
    ensures ResponseItems(items) == []
  {
    if items != [] {
      assert Words(Front(items));
      WordsUnsent(Front(items));
      assert items[|items| - 1].Generated?;
    }
  }

  lemma SaysOne(text: string)
    ensures ResponseItems([Says(text)]) == [Heard(text)]
  {
    assert Front([Says(text)]) == [];
  }

  lemma InputsLive(lost: seq<HistoryItem>)
    requires Words(lost)
    ensures ResponseItems([Says("1")] + lost + [Says("2")]) == [Heard("1"), Heard("2")]
  {
    WordsUnsent(lost);
    SaysOne("1");
    ItemsConcat([Says("1")], lost);
    ItemsOn([Says("1")] + lost, Says("2"));
  }

  lemma InputsStored()
    ensures ResponseItems([Says("1"), Says("2"), Word("a"), Says("3")]) == [Heard("1"), Heard("2"), Heard("3")]
  {
    SaysOne("1");
    ItemsOn([Says("1")], Says("2"));
    assert [Says("1")] + [Says("2")] == [Says("1"), Says("2")];
    ItemsOn([Says("1"), Says("2")], Word("a"));
    assert [Says("1"), Says("2")] + [Word("a")] == [Says("1"), Says("2"), Word("a")];
    ItemsOn([Says("1"), Says("2"), Word("a")], Says("3"));
    assert [Says("1"), Says("2"), Word("a")] + [Says("3")] == [Says("1"), Says("2"), Word("a"), Says("3")];
  }

  lemma NoReload(lost: seq<HistoryItem>)
    ensures forall k {:trigger StepsAhead(lost)[k]} :: 0 <= k < |StepsAhead(lost)| ==> !StepsAhead(lost)[k].Reload?
  {
  }

  /** What the endpoint holds. */
  lemma AheadContext(c: Session, lost: seq<HistoryItem>)
    requires Words(lost) && Runs(NEW, StepsAhead(lost), c) && Ahead(c, lost)
    ensures Context(c.log, "e", "r2") == [Heard("1"), Heard("2")]
  {
    NoReload(lost);
    LiveIsSafe(NEW, StepsAhead(lost), c);
    RunKeepsInv(NEW, StepsAhead(lost), c);
    var sent := [Says("1")] + lost + [Says("2")];
    PlainMessages(c.items);
    assert c.items == sent + [Word("a")] && c.items[..|lost| + 2] == sent;
    InputsLive(lost);
  }

  lemma LoadsAgain(steps: seq<Step>, c: Session, specs: seq<Spec>, prompt: string)
        returns (more: seq<Step>, e: Session)
    requires Runs(NEW, steps, c) && c.storedItems != []
    ensures Runs(NEW, more, e) && more == steps + [Reload(specs, prompt)] && e.pending == []
    ensures Messages(e.items) == Messages(c.storedItems) && e.state == c.storedState && e.log == c.log
  {
    ReloadKeeps(c, specs, prompt);
    more, e := GoOn(NEW, steps, c, Reload(specs, prompt));
  }

  lemma InputWritten(steps: seq<Step>, c: Session, text: string) returns (more: seq<Step>, d: Session)
    requires Runs(NEW, steps, c) && c.pending == []
    ensures Runs(NEW, more, d) && more == steps + [Append([Says(text)])] + [Commit]
    ensures Messages(d.items) == Messages(c.items) + [Says(text)] && d.state == c.state && d.log == c.log
  {
    more, d := GoOn(NEW, steps, c, Append([Says(text)]));
    PlainMessages([Says(text)]);
    MessagesConcat(c.items, [Says(text)]);
    more, d := GoOn(NEW, more, d, Commit);
  }

  /** The conversation is loaded again and the next input is written, as each run of it begins. */
  lemma LoadedAgain(lost: seq<HistoryItem>, specs: seq<Spec>, prompt: string) returns (steps: seq<Step>, d: Session)
    requires Words(lost)
    ensures Runs(NEW, steps, d)
    ensures steps == StepsAhead(lost) + [Reload(specs, prompt)] + [Append([Says("3")])] + [Commit]
    ensures Messages(d.items) == [Says("1"), Says("2"), Word("a"), Says("3")]
    ensures d.state == State(Some("e"), Some("m"), "r2", |lost| + 2, None)
    ensures Context(d.log, "e", "r2") == [Heard("1"), Heard("2")]
  {
    var c := CursorAhead(lost);
    AheadContext(c, lost);
    PlainMessages(c.storedItems);
    steps, d := LoadsAgain(StepsAhead(lost), c, specs, prompt);
    steps, d := InputWritten(steps, d, "3");
  }

  /** The request made now, of three inputs. */
  lemma RequestReads(d: Session, cursor: nat)
    requires Context(d.log, "e", "r2") == [Heard("1"), Heard("2")]
    requires d.state == State(Some("e"), Some("m"), "r2", cursor, None)
    requires Messages(d.items) == [Says("1"), Says("2"), Word("a"), Says("3")] && 4 <= cursor
    ensures ResponseItems(Messages(d.items)) == [Heard("1"), Heard("2"), Heard("3")]
    ensures Reads(d.log, "e", RequestOf(Checked(d.state, "e", "m"), Messages(d.items))) ==
              [Heard("1"), Heard("2")] + if cursor == 4 then [] else [Heard("1"), Heard("2"), Heard("3")]
  {
    var messages := Messages(d.items);
    InputsStored();
    assert Compacted(d.state) + ResponseItems(messages) == ResponseItems(messages);
    assert messages[4..] == [];
  }

  /** An answer of more than two items is lost: the cursor lies beyond the messages, two inputs are read twice. */
  lemma ReadTwice(lost: seq<HistoryItem>, specs: seq<Spec>, prompt: string) returns (steps: seq<Step>, d: Session)
    requires Words(lost) && |lost| > 2
    ensures Runs(NEW, steps, d)
    ensures steps == StepsAhead(lost) + [Reload(specs, prompt)] + [Append([Says("3")])] + [Commit]
    ensures ResponseItems(Messages(d.items)) == [Heard("1"), Heard("2"), Heard("3")]
    ensures Reads(d.log, "e", RequestOf(Checked(d.state, "e", "m"), Messages(d.items))) ==
              [Heard("1"), Heard("2"), Heard("1"), Heard("2"), Heard("3")]
  {
    steps, d := LoadedAgain(lost, specs, prompt);
    RequestReads(d, |lost| + 2);
  }

  /** An answer of two items is lost: the next input falls below the cursor and the model does not read it. */
  lemma NeverSent(lost: seq<HistoryItem>, specs: seq<Spec>, prompt: string) returns (steps: seq<Step>, d: Session)
    requires Words(lost) && |lost| == 2
    ensures Runs(NEW, steps, d)
    ensures steps == StepsAhead(lost) + [Reload(specs, prompt)] + [Append([Says("3")])] + [Commit]
    ensures ResponseItems(Messages(d.items)) == [Heard("1"), Heard("2"), Heard("3")]
    ensures Reads(d.log, "e", RequestOf(Checked(d.state, "e", "m"), Messages(d.items))) == [Heard("1"), Heard("2")]
  {
    steps, d := LoadedAgain(lost, specs, prompt);
    RequestReads(d, 4);
  }

  // ---------------------------------------------------------------- a compaction that is dropped

  /** One step from a conversation that starts from a compaction made for another endpoint. */
  lemma CompactionDropped() returns (c: Session, d: Session)
    ensures Fresh(c) && c.state == State(Some("e"), Some("m"), "", 0, Some([Heard("summary")]))
    ensures Runs(c, [Append([Says("1")])], d)
    ensures Reads(d.log, "e", RequestOf(Checked(d.state, "e", "m"), Messages(d.items))) ==
              [Heard("summary"), Heard("1")]
    ensures Reads(d.log, "f", RequestOf(Checked(d.state, "f", "m"), Messages(d.items))) == [Heard("1")]
  {
    c := NEW.(state := State(Some("e"), Some("m"), "", 0, Some([Heard("summary")])));
    d := Next(c, Append([Says("1")]));
    assert ([Append([Says("1")])])[1..] == [];
    assert d.items == [Says("1")];
    PlainMessages(d.items);
    ItemsOn([], Says("1"));
    assert [] + [Says("1")] == [Says("1")];
  }
}
