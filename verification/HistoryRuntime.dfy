/** The history helper and the response state as they are updated, against ResponseHistory. */
module HistoryRuntime {
  import opened Basics
  import opened ResponseHistory
  import opened HistoryWire

  lemma TakeOne<T>(s: seq<T>, k: nat)
    requires k < |s|
    ensures Front(s[..k + 1]) == s[..k] && Last(s[..k + 1]) == s[k]
  {
  }

  /** The state of the loop that replaces tool specs, after `seen` items. */
  ghost predicate Replacing(seen: seq<HistoryItem>, specs: seq<Spec>, replaced: bool, result: seq<HistoryItem>) {
    var n := BeforePrefix(seen);
    if replaced then n < |seen| && result == seen[..n] + [ToolSpecs(specs)] + WithoutSpecs(seen[n..])
    else n == |seen| && result == seen
  }

  lemma ReplaceLater(seen: seq<HistoryItem>, item: HistoryItem, specs: seq<Spec>, result: seq<HistoryItem>)
    requires Replacing(seen, specs, true, result)
    ensures Replacing(seen + [item], specs, true, if item.ToolSpecs? then result else result + [item])
  {
    var n := BeforePrefix(seen);
    var more := seen + [item];
    assert Front(more) == seen && BeforePrefix(more) == n;
    assert more[..n] == seen[..n] && more[n..] == seen[n..] + [item];
    assert Front(more[n..]) == seen[n..] && Last(more[n..]) == item;
    Regroup(seen[..n] + [ToolSpecs(specs)], WithoutSpecs(seen[n..]), [item]);
    assert WithoutSpecs(seen[n..]) + [] == WithoutSpecs(seen[n..]);
  }

  lemma ReplaceNow(seen: seq<HistoryItem>, item: HistoryItem, specs: seq<Spec>)
    requires Replacing(seen, specs, false, seen) && (item.ToolSpecs? || item.SystemPrompt?)
    ensures Replacing(seen + [item], specs, true, seen + [ToolSpecs(specs)] + if item.ToolSpecs? then [] else [item])
  {
  }

  lemma ReplaceNotYet(seen: seq<HistoryItem>, item: HistoryItem, specs: seq<Spec>)
    requires Replacing(seen, specs, false, seen) && !item.ToolSpecs? && !item.SystemPrompt?
    ensures Replacing(seen + [item], specs, false, seen + [item])
  {
  }

  method WithCurrentToolSpecs(items: seq<HistoryItem>, specs: seq<Spec>) returns (result: seq<HistoryItem>)
    ensures result == WithCurrentSpecs(items, specs)
    ensures Messages(result) == Messages(items) && SpecsOf(result) == specs
  {
    var current := ToolSpecs(specs);
    var replaced := false;
    result := [];
    var k := 0;
    while k < |items|
      invariant 0 <= k <= |items|
      invariant Replacing(items[..k], specs, replaced, result)
    {
      var item := items[k];
      assert items[..k + 1] == items[..k] + [item];
      if replaced {
        ReplaceLater(items[..k], item, specs, result);
      } else if item.ToolSpecs? || item.SystemPrompt? {
        ReplaceNow(items[..k], item, specs);
        assert result + [current] + [] == result + [current];
      } else {
        ReplaceNotYet(items[..k], item, specs);
      }
      if item.ToolSpecs? {
        if !replaced {
          result := result + [current];
          replaced := true;
        }
      } else {
        if !replaced && item.SystemPrompt? {
          result := result + [current];
          replaced := true;
        }
        result := result + [item];
      }
      k := k + 1;
    }
    assert items[..k] == items;
    if !replaced {
      result := [current] + result;
    }
    CurrentSpecsKeepMessages(items, specs);
  }

  class HistoryHelper {
    var items: seq<HistoryItem>

    /** Persisted items are taken up with the current specs; a new conversation is seeded. */
    constructor Load(stored: seq<HistoryItem>, specs: seq<Spec>, prompt: string)
      ensures stored != [] ==> Messages(items) == Messages(stored) && SpecsOf(items) == specs
      ensures stored == [] ==> items == Seeded(specs, prompt)
      ensures items == Reloaded(stored, specs, prompt)
    {
      if stored != [] {
        var taken := WithCurrentToolSpecs(stored, specs);
        items := taken;
      } else {
        var seeded: seq<HistoryItem> := [];
        if specs != [] {
          seeded := seeded + [ToolSpecs(specs)];
        }
        if prompt != "" {
          seeded := seeded + [SystemPrompt(prompt)];
        }
        items := seeded;
      }
    }

    method Append(item: HistoryItem)
      modifies this
      ensures items == old(items) + [item]
    {
      items := items + [item];
    }

    method Extend(more: seq<HistoryItem>)
      modifies this
      ensures items == old(items) + more
    {
      items := items + more;
    }

    /** The last specs and the extra ones, and every item that is a message. */
    method ToLlmInput(extra: seq<Spec>) returns (input: LlmInput)
      ensures input == LlmInput(SpecsOf(items) + extra, Messages(items))
    {
      var specs: seq<Spec> := [];
      var messages: seq<HistoryItem> := [];
      var k := 0;
      while k < |items|
        invariant 0 <= k <= |items|
        invariant specs == SpecsOf(items[..k]) && messages == Messages(items[..k])
      {
        TakeOne(items, k);
        match items[k] {
          case ToolSpecs(found) => specs := found;
          case SystemPrompt(text) => messages := messages + [Input("developer", "yuubot", text)];
          case _ => messages := messages + [items[k]];
        }
        k := k + 1;
      }
      assert items[..k] == items;
      input := LlmInput(specs + extra, messages);
    }
  }

  method ResponseItemsOf(history: seq<HistoryItem>) returns (items: seq<Wire>)
    ensures items == ResponseItems(history) && Wired(history, items)
  {
    items := [];
    var k := 0;
    while k < |history|
      invariant 0 <= k <= |history|
      invariant items == ResponseItems(history[..k])
    {
      TakeOne(history, k);
      match history[k] {
        case Input(role, _, content) => items := items + [Message(role, content)];
        case ToolResult(callId, content) => items := items + [CallOutput(callId, content)];
        case _ =>
      }
      k := k + 1;
    }
    assert history[..k] == history;
    ItemsWired(history);
  }

  method ResponseDeltaOf(history: seq<HistoryItem>, cursor: nat) returns (items: seq<Wire>)
    requires cursor <= |history|
    ensures items == ResponseDelta(history, cursor) && Wired(history[cursor..], items)
  {
    var kept: seq<HistoryItem> := [];
    var rest := history[cursor..];
    var k := 0;
    while k < |rest|
      invariant 0 <= k <= |rest|
      invariant kept == OnlyInput(rest[..k])
    {
      TakeOne(rest, k);
      if rest[k].Input? || rest[k].ToolResult? {
        kept := kept + [rest[k]];
      }
      k := k + 1;
    }
    assert rest[..k] == rest;
    items := ResponseItemsOf(kept);
    DeltaWired(history, cursor);
  }

  /** The response_state of a conversation context, updated around a request. */
  class ResponseState {
    var endpoint: Option<string>
    var model: Option<string>
    var responseId: string
    var cursor: nat
    var compacted: Option<seq<Wire>>

    ghost function View(): State
      reads this
    {
      State(endpoint, model, responseId, cursor, compacted)
    }

    method Clear()
      modifies this
      ensures View() == CLEARED
    {
      endpoint, model, responseId, cursor, compacted := None, None, "", 0, None;
    }

    /** Drops a state made for another endpoint or model and says what the request holds. */
    method Open(toEndpoint: string, toModel: string, messages: seq<HistoryItem>) returns (sent: Sent)
      modifies this
      ensures View() == Checked(old(View()), toEndpoint, toModel)
      ensures sent == RequestOf(View(), messages) && Asks(old(View()), toEndpoint, toModel, messages, sent)
    {
      RequestExact(View(), toEndpoint, toModel, messages);
      if (endpoint.Some? && endpoint.value != toEndpoint) || (model.Some? && model.value != toModel) {
        Clear();
      }
      sent := Ask(messages);
    }

    method Ask(messages: seq<HistoryItem>) returns (sent: Sent)
      ensures sent == RequestOf(View(), messages)
    {
      var input: seq<Wire>;
      if responseId != "" && cursor <= |messages| {
        input := ResponseDeltaOf(messages, cursor);
      } else {
        input := ResponseItemsOf(messages);
        if compacted.Some? {
          input := compacted.value + input;
        }
      }
      sent := Sent(responseId, input);
    }

    method Complete(toEndpoint: string, toModel: string, id: string, messages: seq<HistoryItem>)
      modifies this
      ensures View() == CompletedState(old(View()), toEndpoint, toModel, id, messages)
    {
      if id != "" {
        endpoint, model, responseId, cursor := Some(toEndpoint), Some(toModel), id, |messages|;
      }
    }
  }
}
