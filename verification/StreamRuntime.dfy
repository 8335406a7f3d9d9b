/** The stream code as it runs: buffers, event lists and the merge loop, against StreamModel. */
module StreamRuntime {
  import opened Basics
  import opened StreamModel
  import opened StreamTheorems
  import StreamChoices

  function Then(first: Emitted, next: Emitted): Emitted {
    Emitted(next.state, first.events + next.events)
  }

  lemma ThenAssociates(a: Emitted, b: Emitted, c: Emitted)
    ensures Then(Then(a, b), c) == Then(a, Then(b, c))
  {
    Regroup(a.events, b.events, c.events);
  }

  lemma LastJoins<T>(a: seq<T>, b: seq<T>)
    requires b != []
    ensures Front(b) + [Last(b)] == b && (a + Front(b)) + [Last(b)] == a + b
  {
  }

  lemma EmitOn(s: ToolState, a: seq<Delta>, d: Delta)
    ensures EmitFrom(s, a + [d]) == Then(EmitFrom(s, a), EmitDelta(EmitFrom(s, a).state, d))
  {
    assert Front(a + [d]) == a;
  }

  lemma {:induction false} EmitThen(s: ToolState, a: seq<Delta>, b: seq<Delta>)
    ensures EmitFrom(s, a + b) == Then(EmitFrom(s, a), EmitFrom(EmitFrom(s, a).state, b))
  {
    if b == [] {
      assert a + b == a;
    } else {
      var some, d := Front(b), Last(b);
      EmitThen(s, a, some);
      EmitThenOn(s, a, some, d);
      LastJoins(a, b);
    }
  }

  lemma EmitThenOn(s: ToolState, a: seq<Delta>, b: seq<Delta>, d: Delta)
    requires EmitFrom(s, a + b) == Then(EmitFrom(s, a), EmitFrom(EmitFrom(s, a).state, b))
    ensures EmitFrom(s, (a + b) + [d]) == Then(EmitFrom(s, a), EmitFrom(EmitFrom(s, a).state, b + [d]))
  {
    EmitOn(s, a + b, d);
    EmitOn(EmitFrom(s, a).state, b, d);
    ThenAssociates(EmitFrom(s, a), EmitFrom(EmitFrom(s, a).state, b), EmitDelta(EmitFrom(s, a + b).state, d));
  }

  lemma EmitConcat(s: ToolState, a: seq<Delta>, b: seq<Delta>)
    ensures EmitFrom(s, a + b).state == EmitFrom(EmitFrom(s, a).state, b).state
    ensures EmitFrom(s, a + b).events == EmitFrom(s, a).events + EmitFrom(EmitFrom(s, a).state, b).events
  {
    EmitThen(s, a, b);
  }

  lemma EmitNext(s: ToolState, a: seq<Delta>, d: Delta)
    ensures EmitFrom(s, a + [d]).state == EmitDelta(EmitFrom(s, a).state, d).state
    ensures EmitFrom(s, a + [d]).events == EmitFrom(s, a).events + EmitDelta(EmitFrom(s, a).state, d).events
  {
  }

  lemma CallsOfMore(calls: seq<ToolDelta>, k: nat)
    requires k < |calls|
    ensures ToolDeltas(calls[..k + 1]) == ToolDeltas(calls[..k]) + ToolDeltas([calls[k]])
    ensures ToolDeltas([calls[k]]) == if calls[k].kind.Some? && calls[k].kind.value != "function" then []
                                      else [Tool(calls[k].index, calls[k].id, calls[k].name, calls[k].arguments)]
  {
    assert Front(calls[..k + 1]) == calls[..k] && Last(calls[..k + 1]) == calls[k];
    assert Front([calls[k]]) == [];
  }

  method SendFragments(index: int, fragments: seq<string>, events: seq<Event>) returns (more: seq<Event>)
    ensures more == events + ArgumentEvents(GroupOf(index), fragments)
  {
    more := events;
    var k := 0;
    while k < |fragments|
      invariant 0 <= k <= |fragments|
      invariant more == events + ArgumentEvents(GroupOf(index), fragments)[..k]
    {
      more := more + [Event(GroupOf(index), ToolArgumentsDelta(fragments[k]))];
      k := k + 1;
    }
  }

  lemma {:induction false} ChoicesOfMore(a: seq<Choice>, b: seq<Choice>)
    ensures AllDeltas(a + b) == AllDeltas(a) + AllDeltas(b)
  {
    if b == [] {
      assert a + b == a;
    } else {
      assert Front(a + b) == a + Front(b) && Last(a + b) == Last(b);
      ChoicesOfMore(a, Front(b));
      Regroup(AllDeltas(a), AllDeltas(Front(b)), DeltasOf(Last(b)));
    }
  }

  lemma {:induction false} FinishOfMore(a: seq<Choice>, b: seq<Choice>)
    ensures FinishReason(a + b) ==
              if forall c :: c in b ==> c.finishReason.None? then FinishReason(a) else FinishReason(b)
  {
    if b == [] {
      assert a + b == a;
    } else {
      assert Front(a + b) == a + Front(b) && Last(a + b) == Last(b);
      FinishOfMore(a, Front(b));
      assert forall c :: c in b <==> c in Front(b) || c == Last(b);
    }
  }

  lemma ChoiceInPieces(s: ToolState, c: Choice)
    ensures var words := EmitFrom(s, WordsOf(c));
            var legacy := EmitFrom(words.state, LegacyCall(c));
            var calls := EmitFrom(legacy.state, ToolDeltas(c.toolCalls));
            EmitFrom(s, DeltasOf(c)) == Emitted(calls.state, words.events + legacy.events + calls.events)
  {
    EmitConcat(s, WordsOf(c), LegacyCall(c));
    EmitConcat(s, WordsOf(c) + LegacyCall(c), ToolDeltas(c.toolCalls));
  }

  class ToolStreamState {
    var seen: set<int>
    var named: set<int>
    var ids: map<int, string>
    var pendingArguments: map<int, seq<string>>

    constructor ()
      ensures View() == NO_TOOLS && seen == {}
    {
      seen, named, ids, pendingArguments := {}, {}, map[], map[];
    }

    ghost function View(): ToolState
      reads this
    {
      ToolState(named, ids, pendingArguments)
    }

    /** The first nonempty name announces the call and lets the fragments held back go. */
    method EmitToolName(index: int, toolId: string, name: string, events: seq<Event>) returns (more: seq<Event>)
      modifies this`named, this`ids, this`pendingArguments
      ensures View() == EmitName(old(View()), index, toolId, name).state
      ensures more == events + EmitName(old(View()), index, toolId, name).events
    {
      more := events;
      if name == "" || index in named {
        return;
      }
      if toolId != "" {
        if index !in ids {
          ids := ids[index := toolId];
        }
      }
      var naming := Event(GroupOf(index), ToolName(name, if index in ids then ids[index] else GroupOf(index)));
      more := more + [naming];
      named := named + {index};
      var held := if index in pendingArguments then pendingArguments[index] else [];
      pendingArguments := pendingArguments - {index};
      more := SendFragments(index, held, more);
      Regroup(events, [naming], ArgumentEvents(GroupOf(index), held));
    }

    method EmitToolArguments(index: int, arguments: string, events: seq<Event>) returns (more: seq<Event>)
      modifies this`pendingArguments
      ensures View() == EmitArguments(old(View()), index, arguments).state
      ensures more == events + EmitArguments(old(View()), index, arguments).events
    {
      more := events;
      if arguments == "" {
        return;
      }
      if index in named {
        more := more + [Event(GroupOf(index), ToolArgumentsDelta(arguments))];
      } else {
        if index !in pendingArguments {
          pendingArguments := pendingArguments[index := []];
        }
        pendingArguments := pendingArguments[index := pendingArguments[index] + [arguments]];
      }
    }

    /** One tool_calls entry, or the legacy function_call read as entry 0. */
    method EmitCall(index: int, id: string, name: string, arguments: string, events: seq<Event>)
          returns (more: seq<Event>)
      modifies this
      ensures View() == EmitTool(old(View()), index, id, name, arguments).state
      ensures more == events + EmitTool(old(View()), index, id, name, arguments).events
    {
      seen := seen + {index};
      if id != "" && index !in ids {
        ids := ids[index := id];
      }
      more := EmitToolName(index, if id != "" then id else GroupOf(index), name, events);
      more := EmitToolArguments(index, arguments, more);
    }

    method EmitCalls(calls: seq<ToolDelta>, events: seq<Event>) returns (more: seq<Event>)
      modifies this
      ensures View() == EmitFrom(old(View()), ToolDeltas(calls)).state
      ensures more == events + EmitFrom(old(View()), ToolDeltas(calls)).events
    {
      more := events;
      ghost var start := View();
      var k := 0;
      while k < |calls|
        invariant 0 <= k <= |calls|
        invariant View() == EmitFrom(start, ToolDeltas(calls[..k])).state
        invariant more == events + EmitFrom(start, ToolDeltas(calls[..k])).events
      {
        CallsOfMore(calls, k);
        more := EmitEntry(calls[k], start, ToolDeltas(calls[..k]), events, more);
        k := k + 1;
      }
      assert calls[..k] == calls;
    }

    /** One entry, unless it is of another type. */
    method EmitEntry(call: ToolDelta, ghost start: ToolState, ghost done: seq<Delta>, ghost before: seq<Event>,
                     events: seq<Event>)
      returns (more: seq<Event>)
      requires View() == EmitFrom(start, done).state && events == before + EmitFrom(start, done).events
      modifies this
      ensures View() == EmitFrom(start, done + ToolDeltas([call])).state
      ensures more == before + EmitFrom(start, done + ToolDeltas([call])).events
    {
      CallsOfMore([call], 0);
      if call.kind.Some? && call.kind.value != "function" {
        assert done + [] == done;
        more := events;
      } else {
        ghost var d := Tool(call.index, call.id, call.name, call.arguments);
        ghost var sent := EmitFrom(start, done);
        EmitNext(start, done, d);
        Regroup(before, sent.events, EmitDelta(sent.state, d).events);
        more := EmitCall(call.index, call.id, call.name, call.arguments, events);
      }
    }

    /** Text and reasoning of one choice. */
    method EmitWords(choice: Choice, events: seq<Event>) returns (more: seq<Event>)
      ensures EmitFrom(View(), WordsOf(choice)).state == View()
      ensures more == events + EmitFrom(View(), WordsOf(choice)).events
    {
      more := events;
      ghost var words: seq<Delta> := [];
      if choice.content != "" {
        EmitNext(View(), words, Text(choice.content));
        words := words + [Text(choice.content)];
        more := more + [Event(TEXT_GROUP, TextDelta(choice.content))];
      }
      if choice.reasoning != "" {
        EmitNext(View(), words, Reasoning(choice.reasoning));
        words := words + [Reasoning(choice.reasoning)];
        more := more + [Event(REASONING_GROUP, ReasoningDelta(choice.reasoning))];
      }
      assert WordsOf(choice) == words;
    }

    method EmitFunctionCall(choice: Choice, events: seq<Event>) returns (more: seq<Event>)
      modifies this
      ensures View() == EmitFrom(old(View()), LegacyCall(choice)).state
      ensures more == events + EmitFrom(old(View()), LegacyCall(choice)).events
    {
      more := events;
      if choice.functionCall.Some? {
        var call := choice.functionCall.value;
        EmitNext(View(), [], Tool(0, GroupOf(0), call.name, call.arguments));
        more := EmitCall(0, GroupOf(0), call.name, call.arguments, more);
      }
    }

    method EmitChoice(choice: Choice, events: seq<Event>) returns (more: seq<Event>)
      modifies this
      ensures View() == EmitFrom(old(View()), DeltasOf(choice)).state
      ensures more == events + EmitFrom(old(View()), DeltasOf(choice)).events
    {
      ghost var start := View();
      more := EmitWords(choice, events);
      ghost var words := EmitFrom(start, WordsOf(choice));
      more := EmitFunctionCall(choice, more);
      ghost var legacy := EmitFrom(words.state, LegacyCall(choice));
      more := EmitCalls(choice.toolCalls, more);
      ghost var calls := EmitFrom(legacy.state, ToolDeltas(choice.toolCalls));
      Associate(events, words.events, legacy.events, calls.events);
      ChoiceInPieces(start, choice);
    }

    /** The events of one chunk. */
    method EventsFromChunk(choices: seq<Choice>) returns (events: seq<Event>)
      modifies this
      ensures View() == EmitFrom(old(View()), AllDeltas(choices)).state
      ensures events == EmitFrom(old(View()), AllDeltas(choices)).events
    {
      events := [];
      var k := 0;
      while k < |choices|
        invariant 0 <= k <= |choices|
        invariant View() == EmitFrom(old(View()), AllDeltas(choices[..k])).state
        invariant events == EmitFrom(old(View()), AllDeltas(choices[..k])).events
      {
        assert Front(choices[..k + 1]) == choices[..k] && Last(choices[..k + 1]) == choices[k];
        EmitConcat(old(View()), AllDeltas(choices[..k]), DeltasOf(choices[k]));
        events := EmitChoice(choices[k], events);
        k := k + 1;
      }
      assert choices[..k] == choices;
    }
  }

  // ---------------------------------------------------------------- a whole stream

  method ReasonOf(choices: seq<Choice>, before: string) returns (reason: string)
    ensures forall earlier :: FinishReason(earlier) == before ==> FinishReason(earlier + choices) == reason
  {
    reason := before;
    var k := 0;
    while k < |choices|
      invariant 0 <= k <= |choices|
      invariant reason == if forall c :: c in choices[..k] ==> c.finishReason.None?
                          then before else FinishReason(choices[..k])
    {
      assert Front(choices[..k + 1]) == choices[..k] && Last(choices[..k + 1]) == choices[k];
      assert forall c :: c in choices[..k + 1] <==> c in choices[..k] || c == choices[k];
      if choices[k].finishReason.Some? {
        reason := choices[k].finishReason.value;
      }
      k := k + 1;
    }
    assert choices[..k] == choices;
    forall earlier | FinishReason(earlier) == before
      ensures FinishReason(earlier + choices) == reason
    {
      FinishOfMore(earlier, choices);
    }
  }

  /** What comes out is just what the choices said, with or without the tool calls. */
  ghost predicate Comes(choices: seq<Choice>, outputs: seq<Output>, calls: bool) {
    exists slots {:trigger StreamChoices.Said(choices, slots, outputs, calls)} ::
      StreamChoices.Said(choices, slots, outputs, calls)
  }

  /**
   The Chat half of a stream.  `stopAt` is the first chunk that arrives after the stop event was set
   (past the end when none does).  Merging what was sent gives the reading of the chunks consumed:
   every named tool call when the stream ended by itself, none when it was interrupted.  That is what the
   fields of the choices said.
   */
  method ChatStream(chunks: seq<seq<Choice>>, stopAt: nat) returns (events: seq<Event>)
    ensures stopAt >= |chunks| ==>
              var ds := AllDeltas(AllChoices(chunks));
              Merge(events, true) == (Readings(ds, NamedCalls(ds)), FinishReason(AllChoices(chunks)))
    ensures stopAt < |chunks| ==>
              var ds := AllDeltas(AllChoices(chunks[..stopAt]));
              Merge(events, true) == (Readings(ds, {}), "interrupted")
    ensures stopAt >= |chunks| ==> Comes(AllChoices(chunks), Merge(events, true).0, true)
    ensures stopAt < |chunks| ==> Comes(AllChoices(chunks[..stopAt]), Merge(events, true).0, false)
  {
    var state := new ToolStreamState();
    var reason := "stop";
    events := [];
    var k := 0;
    while k < |chunks|
      invariant 0 <= k <= |chunks| && k <= stopAt
      invariant state.View() == EmitAll(AllDeltas(AllChoices(chunks[..k]))).state
      invariant events == EmitAll(AllDeltas(AllChoices(chunks[..k]))).events
      invariant reason == FinishReason(AllChoices(chunks[..k]))
    {
      if k == stopAt {
        MergeReadsStream(AllDeltas(AllChoices(chunks[..k])), [], "interrupted");
        assert Closing([], "interrupted") == [Event("", StreamStop("interrupted"))];
        events := events + [Event("", StreamStop("interrupted"))];
        assert Elements([]) == {};
        ghost var words := StreamChoices.WordsSaid(AllChoices(chunks[..k]));
        return;
      }
      ghost var earlier := AllChoices(chunks[..k]);
      assert Front(chunks[..k + 1]) == chunks[..k] && Last(chunks[..k + 1]) == chunks[k];
      ChoicesOfMore(earlier, chunks[k]);
      EmitConcat(NO_TOOLS, AllDeltas(earlier), AllDeltas(chunks[k]));
      var more := state.EventsFromChunk(chunks[k]);
      events := events + more;
      reason := ReasonOf(chunks[k], reason);
      k := k + 1;
    }
    assert chunks[..k] == chunks;
    var ended := Sorted(state.named);
    StreamRoundTrip(AllDeltas(AllChoices(chunks)), ended, reason);
    events := events + EndEvents(ended) + [Event("", StreamStop(reason))];
    assert events == EmitAll(AllDeltas(AllChoices(chunks))).events + Closing(ended, reason);
    ghost var slots := StreamChoices.AllSaid(AllChoices(chunks));
  }

  // ---------------------------------------------------------------- merging

  method MarkOrder(order: seq<Key>, key: Key) returns (marked: seq<Key>)
    ensures marked == Mark(order, key)
  {
    marked := order;
    if key !in marked {
      marked := marked + [key];
    }
  }

  method MergeEvents(events: seq<Event>, dropPartial: bool) returns (outputs: seq<Output>, stop: string)
    ensures (outputs, stop) == Merge(events, dropPartial)
  {
    var text: map<string, seq<string>>, reasoning: map<string, seq<string>> := map[], map[];
    var calls: map<string, Call>, order: seq<Key> := map[], [];
    stop := "stop";
    var k := 0;
    while k < |events|
      invariant 0 <= k <= |events|
      invariant Merged(text, reasoning, calls, order, stop) == MergeAll(NOTHING, events[..k])
    {
      var group := events[k].group;
      assert Front(events[..k + 1]) == events[..k] && Last(events[..k + 1]) == events[k];
      match events[k].payload {
      case StreamStop(reason) => stop := reason;
      case TextDelta(t) =>
        order := MarkOrder(order, Key(TextKind, group));
        text := text[group := (if group in text then text[group] else []) + [t]];
      case ReasoningDelta(t) =>
        order := MarkOrder(order, Key(ReasoningKind, group));
        reasoning := reasoning[group := (if group in reasoning then reasoning[group] else []) + [t]];
      case ToolName(name, id) =>
        order := MarkOrder(order, Key(ToolKind, group));
        var call := if group in calls then calls[group] else NO_CALL;
        calls := calls[group := call.(name := Some(name), id := Some(if id != "" then id else group))];
      case ToolArgumentsDelta(t) =>
        order := MarkOrder(order, Key(ToolKind, group));
        var call := if group in calls then calls[group] else NO_CALL;
        calls := calls[group := call.(arguments := Some(GetOr(call.arguments, "") + t))];
      case ToolArgumentsEnd =>
        var call := if group in calls then calls[group] else NO_CALL;
        calls := calls[group := call.(done := true)];
      case ToolResult =>
      }
      k := k + 1;
    }
    assert events[..k] == events;
    outputs := MergeOutputs(text, reasoning, calls, order, stop, dropPartial);
  }

  /** The loop over the slots in order. */
  method MergeOutputs(text: map<string, seq<string>>, reasoning: map<string, seq<string>>, calls: map<string, Call>,
                      order: seq<Key>, stop: string, dropPartial: bool) returns (outputs: seq<Output>)
    ensures outputs == Outputs(Merged(text, reasoning, calls, order, stop), order, dropPartial)
  {
    outputs := [];
    var k := 0;
    ghost var m := Merged(text, reasoning, calls, order, stop);
    while k < |order|
      invariant 0 <= k <= |order|
      invariant outputs == Outputs(m, order[..k], dropPartial)
    {
      assert Front(order[..k + 1]) == order[..k] && Last(order[..k + 1]) == order[k];
      var group := order[k].group;
      match order[k].kind {
      case TextKind => outputs := outputs + [GenText(JoinedOf(text, group))];
      case ReasoningKind => outputs := outputs + [GenReasoning(JoinedOf(reasoning, group))];
      case ToolKind =>
        var call := if group in calls then calls[group] else NO_CALL;
        if call.done || !dropPartial {
          outputs := outputs + [GenToolCall(GetOr(call.id, group), GetOr(call.name, ""), GetOr(call.arguments, ""))];
        }
      }
      k := k + 1;
    }
    assert order[..k] == order;
  }
}
