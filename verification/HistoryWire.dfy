/** What a Responses request holds, entry by entry, read off the history and the response state. */
module HistoryWire {
  import opened Basics
  import opened ResponseHistory

  // ---------------------------------------------------------------- messages

  /** How many of the items are messages: all but the tool specs. */
  function MessageCount(items: seq<HistoryItem>): nat {
    if items == [] then 0 else MessageCount(Front(items)) + (if Last(items).ToolSpecs? then 0 else 1)
  }

  /** The message of an item stands at its own place; a system prompt is said by the developer yuubot. */
  ghost predicate Says(items: seq<HistoryItem>, messages: seq<HistoryItem>, k: nat)
    requires k < |items|
  {
    var at := MessageCount(items[..k]);
    !items[k].ToolSpecs? ==>
      && at < |messages|
      && (items[k].SystemPrompt? ==> messages[at] == Input("developer", "yuubot", items[k].text))
      && (!items[k].SystemPrompt? ==> messages[at] == items[k])
  }

  lemma SaysOn(items: seq<HistoryItem>, messages: seq<HistoryItem>, more: seq<HistoryItem>, k: nat)
    requires items != [] && k < |items| - 1 && Says(Front(items), messages, k)
    ensures Says(items, messages + more, k)
  {
    assert items[..k] == Front(items)[..k];
  }

  lemma {:induction false} MessagesExact(items: seq<HistoryItem>)
    ensures |Messages(items)| == MessageCount(items)
    ensures forall k {:trigger Says(items, Messages(items), k)} ::
              0 <= k < |items| ==> Says(items, Messages(items), k)
  {
    if items != [] {
      MessagesExact(Front(items));
      forall k | 0 <= k < |items|
        ensures Says(items, Messages(items), k)
      {
        if k < |items| - 1 {
          assert Says(Front(items), Messages(Front(items)), k);
          SaysOn(items, Messages(Front(items)), MessageOf(Last(items)), k);
        } else {
          assert items[..k] == Front(items);
        }
      }
    }
  }

  /** The specs sent are those listed last. */
  lemma SpecsExact(items: seq<HistoryItem>, k: nat)
    requires k < |items| && items[k].ToolSpecs? && NoSpecs(items[k + 1..])
    ensures SpecsOf(items) == items[k].specs
  {
    assert items == items[..k] + [ToolSpecs(items[k].specs)] + items[k + 1..];
    SpecsFound(items[..k], items[k].specs, items[k + 1..]);
  }

  /** Without any, none are sent. */
  lemma {:induction false} NoSpecsSent(items: seq<HistoryItem>)
    requires NoSpecs(items)
    ensures SpecsOf(items) == []
  {
    if items != [] {
      assert Last(items) in items && forall item :: item in Front(items) ==> item in items;
      NoSpecsSent(Front(items));
    }
  }

  /** A new conversation: the specs first, then the system prompt, each only if there is one. */
  lemma SeededExact(specs: seq<Spec>, prompt: string)
    ensures specs != [] && prompt != "" ==> Seeded(specs, prompt) == [ToolSpecs(specs), SystemPrompt(prompt)]
    ensures specs != [] && prompt == "" ==> Seeded(specs, prompt) == [ToolSpecs(specs)]
    ensures specs == [] && prompt != "" ==> Seeded(specs, prompt) == [SystemPrompt(prompt)]
    ensures specs == [] && prompt == "" ==> Seeded(specs, prompt) == []
  {
  }

  /** Exactly one entry of `now` is tool specs, the current ones, and it stands at `p`. */
  ghost predicate OnlySpecsAt(now: seq<HistoryItem>, p: nat, specs: seq<Spec>) {
    p < |now| && now[p] == ToolSpecs(specs)
    && forall k {:trigger now[k]} :: 0 <= k < |now| && k != p ==> !now[k].ToolSpecs?
  }

  lemma PutBetween(lead: seq<HistoryItem>, specs: seq<Spec>, rest: seq<HistoryItem>)
    requires NoSpecs(lead) && NoSpecs(rest)
    ensures OnlySpecsAt(lead + [ToolSpecs(specs)] + rest, |lead|, specs)
    ensures (lead + [ToolSpecs(specs)] + rest)[..|lead|] == lead
  {
  }

  /** Where the first specs or system prompt stands; first of all when there is neither. */
  ghost predicate SpecsPlace(items: seq<HistoryItem>, p: nat) {
    && p <= |items|
    && (forall k {:trigger items[k]} :: 0 <= k < p ==> !items[k].ToolSpecs? && !items[k].SystemPrompt?)
    && (p < |items| ==>
          items[p].ToolSpecs? || items[p].SystemPrompt?
          || (p == 0 && forall item :: item in items ==> !item.ToolSpecs? && !item.SystemPrompt?))
    && (p == |items| ==> p == 0)
  }

  /** The current specs are the only ones and stand in that place. */
  lemma SpecsPlaced(items: seq<HistoryItem>, specs: seq<Spec>) returns (p: nat)
    ensures var now := WithCurrentSpecs(items, specs);
            SpecsPlace(items, p) && OnlySpecsAt(now, p, specs) && now[..p] == items[..p]
  {
    p := BeforePrefix(items);
    NonePrefix(items);
    if p == |items| {
      p := 0;
      assert [ToolSpecs(specs)] + items == [] + [ToolSpecs(specs)] + items;
      PutBetween([], specs, items);
    } else {
      MessagesWithoutSpecs(items[p..]);
      PutBetween(items[..p], specs, WithoutSpecs(items[p..]));
    }
  }

  /** All other items are kept, in their order. */
  lemma OthersKept(items: seq<HistoryItem>, specs: seq<Spec>)
    ensures WithoutSpecs(WithCurrentSpecs(items, specs)) == WithoutSpecs(items)
  {
    var n := BeforePrefix(items);
    if n == |items| {
      assert [ToolSpecs(specs)] + items == [] + [ToolSpecs(specs)] + items;
      DropSpecs([], specs, items);
      assert WithoutSpecs(items) == [] + WithoutSpecs(items);
    } else {
      assert items[..n] + items[n..] == items;
      DropSpecs(items[..n], specs, WithoutSpecs(items[n..]));
      WithoutTwice(items[n..]);
      WithoutConcat(items[..n], items[n..]);
    }
  }

  lemma {:induction false} WithoutConcat(a: seq<HistoryItem>, b: seq<HistoryItem>)
    ensures WithoutSpecs(a + b) == WithoutSpecs(a) + WithoutSpecs(b)
  {
    if b == [] {
      assert a + b == a;
    } else {
      assert Front(a + b) == a + Front(b) && Last(a + b) == Last(b);
      WithoutConcat(a, Front(b));
      Regroup(WithoutSpecs(a), WithoutSpecs(Front(b)), if Last(b).ToolSpecs? then [] else [Last(b)]);
    }
  }

  lemma DropSpecs(a: seq<HistoryItem>, specs: seq<Spec>, b: seq<HistoryItem>)
    ensures WithoutSpecs(a + [ToolSpecs(specs)] + b) == WithoutSpecs(a) + WithoutSpecs(b)
  {
    assert Front(a + [ToolSpecs(specs)]) == a;
    assert WithoutSpecs(a + [ToolSpecs(specs)]) == WithoutSpecs(a) + [];
    WithoutConcat(a + [ToolSpecs(specs)], b);
  }

  lemma {:induction false} WithoutTwice(items: seq<HistoryItem>)
    ensures WithoutSpecs(WithoutSpecs(items)) == WithoutSpecs(items)
  {
    if items != [] {
      WithoutTwice(Front(items));
      var kept := WithoutSpecs(Front(items));
      if !Last(items).ToolSpecs? {
        assert Front(kept + [Last(items)]) == kept;
      } else {
        assert kept + [] == kept;
      }
    }
  }

  // ---------------------------------------------------------------- wire entries

  /** How many of the items an endpoint is sent: the inputs and the tool results. */
  function InputCount(history: seq<HistoryItem>): nat {
    if history == [] then 0
    else InputCount(Front(history)) + (if Last(history).Input? || Last(history).ToolResult? then 1 else 0)
  }

  /** An input or tool result is the entry at its own place, with its own fields. */
  ghost predicate SentAs(history: seq<HistoryItem>, wires: seq<Wire>, k: nat)
    requires k < |history|
  {
    var at := InputCount(history[..k]);
    && (history[k].Input? ==>
          at < |wires| && wires[at] == Message(history[k].role, history[k].content))
    && (history[k].ToolResult? ==>
          at < |wires| && wires[at] == CallOutput(history[k].callId, history[k].content))
  }

  /** `wires` has one entry for each input and tool result, in order, and no other. */
  ghost predicate Wired(history: seq<HistoryItem>, wires: seq<Wire>) {
    && |wires| == InputCount(history)
    && forall k {:trigger SentAs(history, wires, k)} :: 0 <= k < |history| ==> SentAs(history, wires, k)
  }

  lemma WiredMore(history: seq<HistoryItem>, item: HistoryItem, wires: seq<Wire>, entry: seq<Wire>)
    requires Wired(history, wires)
    requires item.Input? ==> entry == [Message(item.role, item.content)]
    requires item.ToolResult? ==> entry == [CallOutput(item.callId, item.content)]
    requires !item.Input? && !item.ToolResult? ==> entry == []
    ensures Wired(history + [item], wires + entry)
  {
    var more := history + [item];
    assert Front(more) == history && Last(more) == item;
    forall k | 0 <= k < |more|
      ensures SentAs(more, wires + entry, k)
    {
      assert more[..k] == history[..k];
      if k < |history| {
        assert SentAs(history, wires, k);
      } else {
        assert history[..k] == history;
      }
    }
  }

  /** The entries before the last item's. */
  lemma WiredFront(history: seq<HistoryItem>, wires: seq<Wire>, before: seq<Wire>)
    requires history != [] && Wired(history, wires) && before <= wires && |before| == InputCount(Front(history))
    ensures Wired(Front(history), before)
  {
    forall k | 0 <= k < |history| - 1
      ensures SentAs(Front(history), before, k)
    {
      assert SentAs(history, wires, k) && history[..k] == Front(history)[..k];
      CountGrows(Front(history), k);
    }
  }

  /** One history has one such list of entries. */
  lemma {:induction false} WiredOnce(history: seq<HistoryItem>, a: seq<Wire>, b: seq<Wire>)
    requires Wired(history, a) && Wired(history, b)
    ensures a == b
  {
    if history != [] {
      var n := |history| - 1;
      assert history[..n] == Front(history);
      assert SentAs(history, a, n) && SentAs(history, b, n);
      var most := InputCount(Front(history));
      WiredFront(history, a, a[..most]);
      WiredFront(history, b, b[..most]);
      WiredOnce(Front(history), a[..most], b[..most]);
    }
  }

  lemma {:induction false} CountGrows(history: seq<HistoryItem>, k: nat)
    requires k < |history|
    ensures InputCount(history[..k]) + (if history[k].Input? || history[k].ToolResult? then 1 else 0)
         <= InputCount(history)
  {
    assert Front(history[..k + 1]) == history[..k] && Last(history[..k + 1]) == history[k];
    if k + 1 < |history| {
      CountGrows(Front(history), k);
      assert Front(history)[..k] == history[..k];
    } else {
      assert history[..k + 1] == history;
    }
  }

  lemma {:induction false} ItemsWired(history: seq<HistoryItem>)
    ensures Wired(history, ResponseItems(history))
  {
    if history != [] {
      ItemsWired(Front(history));
      WiredMore(Front(history), Last(history), ResponseItems(Front(history)), WireOf(Last(history)));
      assert Front(history) + [Last(history)] == history;
    }
  }

  lemma DeltaWired(history: seq<HistoryItem>, cursor: nat)
    requires cursor <= |history|
    ensures Wired(history[cursor..], ResponseDelta(history, cursor))
  {
    OnlyInputSame(history[cursor..]);
    ItemsWired(history[cursor..]);
  }

  // ---------------------------------------------------------------- requests

  /** Made for another endpoint or another model. */
  predicate Elsewhere(s: State, endpoint: string, model: string) {
    !(s.endpoint == None || s.endpoint == Some(endpoint)) || !(s.model == None || s.model == Some(model))
  }

  /**
   What a request holds: after a stored response only what was added since the cursor, on top of that
   response; without one, or with a cursor beyond the messages, the compaction and every message; and to
   another endpoint or model every message and nothing else.
   */
  ghost predicate Asks(s: State, endpoint: string, model: string, messages: seq<HistoryItem>, sent: Sent) {
    if Elsewhere(s, endpoint, model) then sent.previous == "" && Wired(messages, sent.input)
    else
      && sent.previous == s.responseId
      && if s.responseId != "" && s.cursor <= |messages| then Wired(messages[s.cursor..], sent.input)
         else if s.compacted.None? then Wired(messages, sent.input)
         else s.compacted.value <= sent.input && Wired(messages, sent.input[|s.compacted.value|..])
  }

  lemma WholeRequest(s: State, messages: seq<HistoryItem>)
    requires s.responseId == "" || s.cursor > |messages|
    ensures var sent := RequestOf(s, messages);
            && sent.previous == s.responseId && Compacted(s) <= sent.input
            && Wired(messages, sent.input[|Compacted(s)|..])
  {
    ItemsWired(messages);
    var wires := ResponseItems(messages);
    assert (Compacted(s) + wires)[|Compacted(s)|..] == wires;
  }

  lemma RequestExact(s: State, endpoint: string, model: string, messages: seq<HistoryItem>)
    ensures Asks(s, endpoint, model, messages, RequestOf(Checked(s, endpoint, model), messages))
  {
    if Elsewhere(s, endpoint, model) {
      WholeRequest(CLEARED, messages);
    } else if s.responseId != "" && s.cursor <= |messages| {
      DeltaWired(messages, s.cursor);
    } else {
      WholeRequest(s, messages);
    }
  }

  /**
   After a response is stored, the next request to the same endpoint and model continues it with just what
   was added; one to another endpoint or model starts anew.
   */
  lemma NextRequest(s: State, endpoint: string, model: string, id: string, messages: seq<HistoryItem>,
                    added: seq<HistoryItem>, endpoint': string, model': string)
    requires id != ""
    ensures var done := CompletedState(s, endpoint, model, id, messages);
            var sent := RequestOf(Checked(done, endpoint', model'), messages + added);
            if endpoint' == endpoint && model' == model then sent.previous == id && Wired(added, sent.input)
            else sent.previous == "" && Wired(messages + added, sent.input)
    ensures CompletedState(s, endpoint, model, "", messages) == s
  {
    RequestExact(CompletedState(s, endpoint, model, id, messages), endpoint', model', messages + added);
    assert (messages + added)[|messages|..] == added;
  }

  /** A tool result that arrived after the response is sent as the output of its call. */
  lemma ResultIsSent(s: State, endpoint: string, model: string, question: HistoryItem, answer: HistoryItem)
    requires s.responseId == "r1" && s.cursor == 2 && !Elsewhere(s, endpoint, model)
    ensures RequestOf(Checked(s, endpoint, model), [question, answer, ToolResult("call_1", "42")])
         == Sent("r1", [CallOutput("call_1", "42")])
  {
    var messages := [question, answer, ToolResult("call_1", "42")];
    RequestExact(s, endpoint, model, messages);
    assert messages[2..] == [messages[2]];
    var sent := RequestOf(Checked(s, endpoint, model), messages);
    assert SentAs([messages[2]], sent.input, 0);
    assert InputCount([messages[2]][..0]) == 0 && Front([messages[2]]) == [];
  }
}
