/**
 What a conversation sends to a Responses endpoint.  The endpoint keeps the context of each stored
 response, so only what was added since the cursor is sent.  The conversation's history and its response
 state are extended in memory first and in the store later, each at a time of its own, and a write of the
 history can be lost while the conversation lives on.
 */
module ResponseHistory {
  import opened Basics

  // ---------------------------------------------------------------- history

  type Spec = string

  datatype HistoryItem =
    | ToolSpecs(specs: seq<Spec>)
    | SystemPrompt(text: string)
    | Input(role: string, name: string, content: string)
    | Generated(text: string)
    | ToolResult(callId: string, content: string)

  datatype LlmInput = LlmInput(specs: seq<Spec>, messages: seq<HistoryItem>)

  /** The system prompt is sent as a developer message; tool specs are not messages. */
  function MessageOf(item: HistoryItem): seq<HistoryItem> {
    match item
    case ToolSpecs(_) => []
    case SystemPrompt(text) => [Input("developer", "yuubot", text)]
    case _ => [item]
  }

  function Messages(items: seq<HistoryItem>): seq<HistoryItem> {
    if items == [] then [] else Messages(Front(items)) + MessageOf(Last(items))
  }

  /** The specs listed last win. */
  function SpecsOf(items: seq<HistoryItem>): seq<Spec> {
    if items == [] then []
    else if Last(items).ToolSpecs? then Last(items).specs
    else SpecsOf(Front(items))
  }

  predicate NoSpecs(items: seq<HistoryItem>) {
    forall item :: item in items ==> !item.ToolSpecs?
  }

  /** The items but for their tool specs. */
  function WithoutSpecs(items: seq<HistoryItem>): seq<HistoryItem> {
    if items == [] then []
    else WithoutSpecs(Front(items)) + (if Last(items).ToolSpecs? then [] else [Last(items)])
  }

  /** How far the items can be read without meeting tool specs or a system prompt. */
  function BeforePrefix(items: seq<HistoryItem>): (n: nat)
    ensures n <= |items|
    ensures n < |items| ==> items[n].ToolSpecs? || items[n].SystemPrompt?
  {
    if items == [] then 0
    else
      var n := BeforePrefix(Front(items));
      if n < |items| - 1 || Last(items).ToolSpecs? || Last(items).SystemPrompt? then n else n + 1
  }

  lemma {:induction false} NonePrefix(items: seq<HistoryItem>)
    ensures forall k {:trigger items[k]} :: 0 <= k < BeforePrefix(items) ==>
              !items[k].ToolSpecs? && !items[k].SystemPrompt?
  {
    if items != [] {
      NonePrefix(Front(items));
    }
  }

  /** The current specs take the place of the first specs or go before the first system prompt; else they lead. */
  function WithCurrentSpecs(items: seq<HistoryItem>, specs: seq<Spec>): seq<HistoryItem> {
    var n := BeforePrefix(items);
    if n == |items| then [ToolSpecs(specs)] + items
    else items[..n] + [ToolSpecs(specs)] + WithoutSpecs(items[n..])
  }

  lemma {:induction false} MessagesConcat(a: seq<HistoryItem>, b: seq<HistoryItem>)
    ensures Messages(a + b) == Messages(a) + Messages(b)
  {
    if b == [] {
      assert a + b == a;
    } else {
      assert Front(a + b) == a + Front(b) && Last(a + b) == Last(b);
      MessagesConcat(a, Front(b));
      Regroup(Messages(a), Messages(Front(b)), MessageOf(Last(b)));
    }
  }

  lemma {:induction false} MessagesWithoutSpecs(items: seq<HistoryItem>)
    ensures Messages(WithoutSpecs(items)) == Messages(items)
    ensures NoSpecs(WithoutSpecs(items))
  {
    if items != [] {
      var kept := WithoutSpecs(Front(items));
      MessagesWithoutSpecs(Front(items));
      if Last(items).ToolSpecs? {
        assert Messages(kept) + [] == Messages(kept) && kept + [] == kept;
      } else {
        assert Front(kept + [Last(items)]) == kept;
      }
    }
  }

  lemma {:induction false} SpecsFound(items: seq<HistoryItem>, specs: seq<Spec>, rest: seq<HistoryItem>)
    requires NoSpecs(rest)
    ensures SpecsOf(items + [ToolSpecs(specs)] + rest) == specs
  {
    var all := items + [ToolSpecs(specs)] + rest;
    if rest == [] {
      assert all == items + [ToolSpecs(specs)];
    } else {
      assert Last(all) == rest[|rest| - 1] && Front(all) == items + [ToolSpecs(specs)] + Front(rest);
      SpecsFound(items, specs, Front(rest));
    }
  }

  /** Tool specs put among items, the old ones taken out of what follows, add no message and lose none. */
  lemma InsertKeepsMessages(lead: seq<HistoryItem>, specs: seq<Spec>, rest: seq<HistoryItem>)
    ensures Messages(lead + [ToolSpecs(specs)] + WithoutSpecs(rest)) == Messages(lead + rest)
  {
    var current := [ToolSpecs(specs)];
    assert Front(lead + current) == lead;
    assert Messages(lead) + [] == Messages(lead);
    assert Messages(lead + current) == Messages(lead);
    MessagesWithoutSpecs(rest);
    MessagesConcat(lead, rest);
    MessagesConcat(lead + current, WithoutSpecs(rest));
  }

  lemma CurrentSpecsLead(items: seq<HistoryItem>, specs: seq<Spec>)
    requires NoSpecs(items)
    ensures Messages([ToolSpecs(specs)] + items) == Messages(items)
    ensures SpecsOf([ToolSpecs(specs)] + items) == specs
  {
    var current := [ToolSpecs(specs)];
    assert Front(current) == [] && Messages(current) == [];
    MessagesConcat(current, items);
    assert [] + current == current;
    SpecsFound([], specs, items);
  }

  /** Replacing the tool specs leaves the messages alone, and the specs sent are the current ones. */
  lemma CurrentSpecsKeepMessages(items: seq<HistoryItem>, specs: seq<Spec>)
    ensures Messages(WithCurrentSpecs(items, specs)) == Messages(items)
    ensures SpecsOf(WithCurrentSpecs(items, specs)) == specs
  {
    var n := BeforePrefix(items);
    if n == |items| {
      NonePrefix(items);
      CurrentSpecsLead(items, specs);
    } else {
      var lead, rest := items[..n], items[n..];
      assert lead + rest == items;
      InsertKeepsMessages(lead, specs, rest);
      MessagesWithoutSpecs(rest);
      SpecsFound(lead, specs, WithoutSpecs(rest));
    }
  }

  // ---------------------------------------------------------------- what is sent

  /** An input entry of a request. */
  datatype Wire = Message(role: string, content: string) | CallOutput(callId: string, output: string)

  function WireOf(item: HistoryItem): seq<Wire> {
    match item
    case Input(role, _, content) => [Message(role, content)]
    case ToolResult(callId, content) => [CallOutput(callId, content)]
    case _ => []
  }

  function ResponseItems(history: seq<HistoryItem>): seq<Wire> {
    if history == [] then [] else ResponseItems(Front(history)) + WireOf(Last(history))
  }

  function OnlyInput(history: seq<HistoryItem>): seq<HistoryItem> {
    if history == [] then []
    else OnlyInput(Front(history)) + (if Last(history).Input? || Last(history).ToolResult? then [Last(history)] else [])
  }

  function ResponseDelta(history: seq<HistoryItem>, cursor: nat): seq<Wire>
    requires cursor <= |history|
  {
    ResponseItems(OnlyInput(history[cursor..]))
  }

  lemma {:induction false} ItemsConcat(a: seq<HistoryItem>, b: seq<HistoryItem>)
    ensures ResponseItems(a + b) == ResponseItems(a) + ResponseItems(b)
  {
    if b == [] {
      assert a + b == a;
    } else {
      assert Front(a + b) == a + Front(b) && Last(a + b) == Last(b);
      ItemsConcat(a, Front(b));
      Regroup(ResponseItems(a), ResponseItems(Front(b)), WireOf(Last(b)));
    }
  }

  lemma {:induction false} OnlyInputSame(history: seq<HistoryItem>)
    ensures ResponseItems(OnlyInput(history)) == ResponseItems(history)
  {
    if history != [] {
      OnlyInputSame(Front(history));
      var kept := OnlyInput(Front(history));
      if Last(history).Input? || Last(history).ToolResult? {
        assert Front(kept + [Last(history)]) == kept;
      } else {
        assert kept + [] == kept && ResponseItems(kept) + [] == ResponseItems(kept);
      }
    }
  }

  /** Sent up to the cursor and the delta together are the whole. */
  lemma DeltaCompletes(history: seq<HistoryItem>, cursor: nat)
    requires cursor <= |history|
    ensures ResponseItems(history[..cursor]) + ResponseDelta(history, cursor) == ResponseItems(history)
  {
    var sent, rest := history[..cursor], history[cursor..];
    assert history == sent + rest;
    OnlyInputSame(rest);
    ItemsConcat(sent, rest);
  }

  /** The response state of a conversation; an absent response id is "". */
  datatype State = State(endpoint: Option<string>, model: Option<string>, responseId: string, cursor: nat,
                         compacted: Option<seq<Wire>>)

  const CLEARED := State(None, None, "", 0, None)

  datatype Sent = Sent(previous: string, input: seq<Wire>)

  predicate Mismatch(s: State, endpoint: string, model: string) {
    (s.endpoint.Some? && s.endpoint.value != endpoint) || (s.model.Some? && s.model.value != model)
  }

  /** A state made for another endpoint or model is dropped whole. */
  function Checked(s: State, endpoint: string, model: string): State {
    if Mismatch(s, endpoint, model) then CLEARED else s
  }

  function Compacted(s: State): seq<Wire> {
    match s.compacted case None => [] case Some(items) => items
  }

  function RequestOf(s: State, messages: seq<HistoryItem>): Sent {
    Sent(s.responseId,
         if s.responseId != "" && s.cursor <= |messages| then ResponseDelta(messages, s.cursor)
         else Compacted(s) + ResponseItems(messages))
  }

  function CompletedState(s: State, endpoint: string, model: string, id: string, messages: seq<HistoryItem>): State {
    if id == "" then s else State(Some(endpoint), Some(model), id, |messages|, s.compacted)
  }

  // ---------------------------------------------------------------- the endpoints' side

  /** A response stored by an endpoint: the response it continues, if any, and its input. */
  datatype Response = Response(endpoint: string, id: string, previous: string, input: seq<Wire>)

  predicate Known(log: seq<Response>, endpoint: string, id: string) {
    exists k :: 0 <= k < |log| && log[k].endpoint == endpoint && log[k].id == id
  }

  /** All inputs along the chain of responses that ends with `id`. */
  function Context(log: seq<Response>, endpoint: string, id: string): seq<Wire>
    decreases |log|, 0
  {
    if log == [] then []
    else if Last(log).endpoint == endpoint && Last(log).id == id then
      ChainContext(Front(log), endpoint, Last(log).previous) + Last(log).input
    else Context(Front(log), endpoint, id)
  }

  function ChainContext(log: seq<Response>, endpoint: string, previous: string): seq<Wire>
    decreases |log|, 1
  {
    if previous == "" then [] else Context(log, endpoint, previous)
  }

  /** What the model reads for a request. */
  function Reads(log: seq<Response>, endpoint: string, sent: Sent): seq<Wire> {
    ChainContext(log, endpoint, sent.previous) + sent.input
  }

  // ---------------------------------------------------------------- a conversation and its copies

  /** `pending` is in memory and on its way to the store. */
  datatype Session = Session(items: seq<HistoryItem>, pending: seq<HistoryItem>, state: State,
                             storedItems: seq<HistoryItem>, storedState: State, log: seq<Response>)

  datatype Outcome =
    | Completed(id: string)             // the stream reported its response; the id may be missing
    | Interrupted(stored: string)       // stopped early; the endpoint may have stored it all the same
    | Failed                            // an error that is passed on
    | FellBack                          // an error after which Chat completions are used

  datatype Step =
    | Append(batch: seq<HistoryItem>)   // in memory; the write begins
    | Commit                            // the write is done
    | Lose                              // the write is rolled back and the conversation lives on
    | Request(endpoint: string, model: string, outcome: Outcome)
    | Persist
    | Reload(specs: seq<Spec>, prompt: string)

  function Seeded(specs: seq<Spec>, prompt: string): seq<HistoryItem> {
    (if specs != [] then [ToolSpecs(specs)] else []) + (if prompt != "" then [SystemPrompt(prompt)] else [])
  }

  function Reloaded(stored: seq<HistoryItem>, specs: seq<Spec>, prompt: string): seq<HistoryItem> {
    if stored != [] then WithCurrentSpecs(stored, specs) else Seeded(specs, prompt)
  }

  function Stored(log: seq<Response>, endpoint: string, id: string, sent: Sent): seq<Response> {
    if id == "" then log else log + [Response(endpoint, id, sent.previous, sent.input)]
  }

  predicate Enabled(c: Session, step: Step) {
    match step
    case Append(_) => c.pending == []
    case Request(endpoint, _, Completed(id)) => c.pending == [] && (id == "" || !Known(c.log, endpoint, id))
    case Request(endpoint, _, Interrupted(id)) => c.pending == [] && (id == "" || !Known(c.log, endpoint, id))
    case Request(_, _, _) => c.pending == []
    case _ => true
  }

  function AfterRequest(c: Session, endpoint: string, model: string, outcome: Outcome): Session {
    var messages := Messages(c.items);
    var state := Checked(c.state, endpoint, model);
    var sent := RequestOf(state, messages);
    match outcome
    case Completed(id) =>
      c.(state := CompletedState(state, endpoint, model, id, messages), log := Stored(c.log, endpoint, id, sent))
    case Interrupted(id) => c.(state := state, log := Stored(c.log, endpoint, id, sent))
    case Failed => c.(state := state)
    case FellBack => c.(state := CLEARED)
  }

  function Next(c: Session, step: Step): Session {
    match step
    case Append(batch) => c.(items := c.items + batch, pending := batch)
    case Commit => c.(storedItems := c.storedItems + c.pending, pending := [])
    case Lose => c.(pending := [])
    case Request(endpoint, model, outcome) => AfterRequest(c, endpoint, model, outcome)
    case Persist => c.(storedState := c.state)
    case Reload(specs, prompt) =>
      var items := Reloaded(c.storedItems, specs, prompt);
      c.(items := items, pending := [], state := c.storedState,
         storedItems := if c.storedItems != [] then c.storedItems else items)
  }

  ghost predicate Runs(c: Session, steps: seq<Step>, d: Session)
    decreases |steps|
  {
    if steps == [] then c == d
    else Enabled(c, steps[0]) && Runs(Next(c, steps[0]), steps[1..], d)
  }

  /** A conversation starts without a response; it may start from a compaction made for it. */
  predicate Fresh(c: Session) {
    && c.items == [] && c.pending == [] && c.storedItems == []
    && c.state.responseId == "" && c.storedState.responseId == ""
  }

  // ---------------------------------------------------------------- what every run keeps

  /** The endpoint holds the compaction and every input up to the cursor. */
  ghost predicate Faithful(s: State, messages: seq<HistoryItem>, log: seq<Response>) {
    s.responseId != "" ==>
      && s.endpoint.Some?
      && s.cursor <= |messages|
      && Known(log, s.endpoint.value, s.responseId)
      && Context(log, s.endpoint.value, s.responseId) == Compacted(s) + ResponseItems(messages[..s.cursor])
  }

  ghost predicate Inv(c: Session) {
    && Faithful(c.state, Messages(c.items), c.log)
    && Faithful(c.storedState, Messages(c.items), c.log)
  }

  lemma KnownStays(log: seq<Response>, r: Response, endpoint: string, id: string)
    requires !Known(log, r.endpoint, r.id)
    ensures Known(log, endpoint, id) ==>
              Known(log + [r], endpoint, id) && Context(log + [r], endpoint, id) == Context(log, endpoint, id)
  {
    assert Front(log + [r]) == log;
    if Known(log, endpoint, id) {
      var k :| 0 <= k < |log| && log[k].endpoint == endpoint && log[k].id == id;
      assert (log + [r])[k] == log[k];
    }
  }

  lemma FaithfulToLog(s: State, messages: seq<HistoryItem>, log: seq<Response>, r: Response)
    requires Faithful(s, messages, log) && !Known(log, r.endpoint, r.id)
    ensures Faithful(s, messages, log + [r])
  {
    if s.responseId != "" {
      KnownStays(log, r, s.endpoint.value, s.responseId);
    }
  }

  lemma FaithfulToMore(s: State, messages: seq<HistoryItem>, more: seq<HistoryItem>, log: seq<Response>)
    requires Faithful(s, messages, log)
    ensures Faithful(s, messages + more, log)
  {
    if s.responseId != "" {
      assert (messages + more)[..s.cursor] == messages[..s.cursor];
    }
  }

  /** Whatever is sent, the model reads the compaction and all of the conversation's input. */
  lemma RequestReadsAll(s: State, messages: seq<HistoryItem>, log: seq<Response>, endpoint: string, model: string)
    requires Faithful(s, messages, log)
    ensures var state := Checked(s, endpoint, model);
            Reads(log, endpoint, RequestOf(state, messages)) == Compacted(state) + ResponseItems(messages)
    ensures var state := Checked(s, endpoint, model);
            RequestOf(state, messages).previous != "" ==> Known(log, endpoint, RequestOf(state, messages).previous)
  {
    var state := Checked(s, endpoint, model);
    if state.responseId != "" {
      DeltaCompletes(messages, state.cursor);
      Regroup(Compacted(state), ResponseItems(messages[..state.cursor]), ResponseDelta(messages, state.cursor));
    } else {
      assert [] + (Compacted(state) + ResponseItems(messages)) == Compacted(state) + ResponseItems(messages);
    }
  }

  /** The cursor a completed response leaves is faithful again, with the response added to the log. */
  lemma CompletedFaithful(s: State, messages: seq<HistoryItem>, log: seq<Response>,
                          endpoint: string, model: string, id: string)
    requires Faithful(s, messages, log) && !Known(log, endpoint, id) && id != ""
    ensures var state := Checked(s, endpoint, model); var sent := RequestOf(state, messages);
            Faithful(CompletedState(state, endpoint, model, id, messages), messages, Stored(log, endpoint, id, sent))
  {
    var state := Checked(s, endpoint, model);
    var sent := RequestOf(state, messages);
    var r := Response(endpoint, id, sent.previous, sent.input);
    RequestReadsAll(s, messages, log, endpoint, model);
    assert Front(log + [r]) == log && Last(log + [r]) == r;
    assert (log + [r])[|log|] == r;
    assert messages[..|messages|] == messages;
  }

  lemma CheckedFaithful(s: State, messages: seq<HistoryItem>, log: seq<Response>, endpoint: string, model: string)
    requires Faithful(s, messages, log)
    ensures Faithful(Checked(s, endpoint, model), messages, log)
  {
  }

  lemma RequestKeepsInv(c: Session, endpoint: string, model: string, outcome: Outcome)
    requires Inv(c) && Enabled(c, Request(endpoint, model, outcome))
    ensures Inv(AfterRequest(c, endpoint, model, outcome))
  {
    var messages := Messages(c.items);
    var state := Checked(c.state, endpoint, model);
    var sent := RequestOf(state, messages);
    CheckedFaithful(c.state, messages, c.log, endpoint, model);
    if (outcome.Completed? && outcome.id != "") || (outcome.Interrupted? && outcome.stored != "") {
      var id := if outcome.Completed? then outcome.id else outcome.stored;
      var r := Response(endpoint, id, sent.previous, sent.input);
      FaithfulToLog(state, messages, c.log, r);
      FaithfulToLog(c.storedState, messages, c.log, r);
      if outcome.Completed? {
        CompletedFaithful(c.state, messages, c.log, endpoint, model, id);
      }
    }
  }

  /** What was sent of the messages in memory up to the cursor is what these messages hold up to it. */
  ghost predicate SameUpTo(s: State, live: seq<HistoryItem>, messages: seq<HistoryItem>) {
    s.responseId != "" && s.cursor <= |live| ==>
      s.cursor <= |messages| && ResponseItems(live[..s.cursor]) == ResponseItems(messages[..s.cursor])
  }

  /** After a reload the stored cursor counts messages of the store; it was made for those in memory. */
  ghost predicate ReloadSafe(c: Session, specs: seq<Spec>, prompt: string) {
    SameUpTo(c.storedState, Messages(c.items), Messages(Reloaded(c.storedItems, specs, prompt)))
  }

  ghost predicate Safe(c: Session, step: Step) {
    match step
    case Reload(specs, prompt) => ReloadSafe(c, specs, prompt)
    case _ => true
  }

  ghost predicate SafeRun(c: Session, steps: seq<Step>, d: Session)
    decreases |steps|
  {
    if steps == [] then c == d
    else Enabled(c, steps[0]) && Safe(c, steps[0]) && SafeRun(Next(c, steps[0]), steps[1..], d)
  }

  lemma StepKeepsInv(c: Session, step: Step)
    requires Inv(c) && Enabled(c, step) && Safe(c, step)
    ensures Inv(Next(c, step))
  {
    match step
    case Append(batch) =>
      MessagesConcat(c.items, batch);
      FaithfulToMore(c.state, Messages(c.items), Messages(batch), c.log);
      FaithfulToMore(c.storedState, Messages(c.items), Messages(batch), c.log);
    case Commit =>
    case Lose =>
    case Request(endpoint, model, outcome) => RequestKeepsInv(c, endpoint, model, outcome);
    case Persist =>
    case Reload(specs, prompt) =>
  }

  lemma {:induction false} RunKeepsInv(c: Session, steps: seq<Step>, d: Session)
    requires Inv(c) && SafeRun(c, steps, d)
    ensures Inv(d)
    decreases |steps|
  {
    if steps != [] {
      StepKeepsInv(c, steps[0]);
      RunKeepsInv(Next(c, steps[0]), steps[1..], d);
    }
  }

  /** The model reads the compaction and every input of the conversation, once and in order. */
  ghost predicate ReadsFull(c: Session, endpoint: string, model: string) {
    var state := Checked(c.state, endpoint, model);
    var sent := RequestOf(state, Messages(c.items));
    Reads(c.log, endpoint, sent) == Compacted(state) + ResponseItems(Messages(c.items))
  }

  /**
   In every run whose reloads are safe — appends written or lost, requests that complete, are interrupted,
   fail or fall back to Chat, endpoint and model switches, persisting at any time — sending increments is
   sending everything: along the chain of stored responses a request continues, the model reads the
   compaction in force and every input of the conversation, once and in order; and the response it
   continues is one the endpoint has.
   */
  lemma IncrementalIsFull(c: Session, steps: seq<Step>, d: Session, endpoint: string, model: string)
    requires Fresh(c) && SafeRun(c, steps, d)
    ensures ReadsFull(d, endpoint, model)
    ensures var sent := RequestOf(Checked(d.state, endpoint, model), Messages(d.items));
            sent.previous != "" ==> Known(d.log, endpoint, sent.previous)
  {
    RunKeepsInv(c, steps, d);
    RequestReadsAll(d.state, Messages(d.items), d.log, endpoint, model);
  }

  /** A conversation that is not reloaded is safe, whatever the store loses. */
  lemma {:induction false} LiveIsSafe(c: Session, steps: seq<Step>, d: Session)
    requires Runs(c, steps, d) && forall k :: 0 <= k < |steps| ==> !steps[k].Reload?
    ensures SafeRun(c, steps, d)
    decreases |steps|
  {
    if steps != [] {
      assert !steps[0].Reload?;
      LiveIsSafe(Next(c, steps[0]), steps[1..], d);
    }
  }

  // ---------------------------------------------------------------- reloading

  ghost predicate Synced(c: Session) {
    && Messages(c.items) == Messages(c.storedItems) + Messages(c.pending)
    && Faithful(c.state, Messages(c.storedItems), c.log)
    && Faithful(c.storedState, Messages(c.storedItems), c.log)
  }

  lemma SyncedInv(c: Session)
    requires Synced(c)
    ensures Inv(c)
  {
    FaithfulToMore(c.state, Messages(c.storedItems), Messages(c.pending), c.log);
    FaithfulToMore(c.storedState, Messages(c.storedItems), Messages(c.pending), c.log);
  }

  lemma ReloadedMessages(stored: seq<HistoryItem>, specs: seq<Spec>, prompt: string)
    ensures stored != [] ==> Messages(Reloaded(stored, specs, prompt)) == Messages(stored)
    ensures Messages(stored) <= Messages(Reloaded(stored, specs, prompt))
  {
    if stored != [] {
      CurrentSpecsKeepMessages(stored, specs);
    }
  }

  /** A reload takes up the stored messages and the stored state. */
  lemma ReloadKeeps(c: Session, specs: seq<Spec>, prompt: string)
    requires c.storedItems != []
    ensures var d := Next(c, Reload(specs, prompt));
            && Messages(d.items) == Messages(c.storedItems) && d.pending == []
            && d.state == c.storedState && d.log == c.log
  {
    ReloadedMessages(c.storedItems, specs, prompt);
  }

  lemma SyncedReload(c: Session, specs: seq<Spec>, prompt: string)
    requires Synced(c)
    ensures ReloadSafe(c, specs, prompt) && Synced(Next(c, Reload(specs, prompt)))
  {
    var messages := Messages(Reloaded(c.storedItems, specs, prompt));
    ReloadedMessages(c.storedItems, specs, prompt);
    PrefixSafe(c, messages);
    SyncedTaken(c, Next(c, Reload(specs, prompt)), messages[|Messages(c.storedItems)|..]);
  }

  lemma PrefixSafe(c: Session, messages: seq<HistoryItem>)
    requires Synced(c) && Messages(c.storedItems) <= messages
    ensures SameUpTo(c.storedState, Messages(c.items), messages)
  {
    if c.storedState.responseId != "" {
      var n := c.storedState.cursor;
      assert Messages(c.items)[..n] == Messages(c.storedItems)[..n] == messages[..n];
    }
  }

  lemma SyncedTaken(c: Session, d: Session, extra: seq<HistoryItem>)
    requires Synced(c) && Messages(d.items) == Messages(c.storedItems) + extra
    requires Messages(d.storedItems) == Messages(d.items)
    requires d.pending == [] && d.state == c.storedState && d.storedState == c.storedState && d.log == c.log
    ensures Synced(d)
  {
    assert Messages(d.items) + [] == Messages(d.items);
    FaithfulToMore(c.storedState, Messages(c.storedItems), extra, c.log);
  }

  lemma RequestSynced(c: Session, endpoint: string, model: string, outcome: Outcome)
    requires Synced(c) && Enabled(c, Request(endpoint, model, outcome))
    ensures Synced(AfterRequest(c, endpoint, model, outcome))
  {
    assert Messages(c.storedItems) + [] == Messages(c.storedItems);
    SyncedInv(c);
    RequestKeepsInv(c, endpoint, model, outcome);
  }

  lemma StepSynced(c: Session, step: Step)
    requires Synced(c) && Enabled(c, step) && !step.Lose?
    ensures Safe(c, step) && Synced(Next(c, step))
  {
    match step
    case Append(batch) =>
      MessagesConcat(c.items, batch);
      assert Messages(c.storedItems) + [] == Messages(c.storedItems);
    case Commit =>
      var d := Next(c, step);
      MessagesConcat(c.storedItems, c.pending);
      assert Messages(d.storedItems) + [] == Messages(d.storedItems);
      FaithfulToMore(c.state, Messages(c.storedItems), Messages(c.pending), c.log);
      FaithfulToMore(c.storedState, Messages(c.storedItems), Messages(c.pending), c.log);
    case Request(endpoint, model, outcome) => RequestSynced(c, endpoint, model, outcome);
    case Persist =>
    case Reload(specs, prompt) => SyncedReload(c, specs, prompt);
  }

  /** While no append is lost, reloading at any time is safe, even during a write. */
  lemma {:induction false} UnlostIsSafe(c: Session, steps: seq<Step>, d: Session)
    requires Synced(c) && Runs(c, steps, d) && forall k :: 0 <= k < |steps| ==> !steps[k].Lose?
    ensures SafeRun(c, steps, d) && Synced(d)
    decreases |steps|
  {
    if steps != [] {
      assert !steps[0].Lose?;
      StepSynced(c, steps[0]);
      UnlostIsSafe(Next(c, steps[0]), steps[1..], d);
    }
  }

  /** Every run from a fresh conversation in which nothing is lost, or nothing is reloaded, is full. */
  lemma LiveOrUnlostIsFull(c: Session, steps: seq<Step>, d: Session, endpoint: string, model: string)
    requires Fresh(c) && Runs(c, steps, d)
    requires (forall k :: 0 <= k < |steps| ==> !steps[k].Lose?) || (forall k :: 0 <= k < |steps| ==> !steps[k].Reload?)
    ensures ReadsFull(d, endpoint, model)
    ensures (forall k :: 0 <= k < |steps| ==> !steps[k].Lose?) ==>
              Messages(d.items) == Messages(d.storedItems) + Messages(d.pending)
  {
    if forall k :: 0 <= k < |steps| ==> !steps[k].Lose? {
      UnlostIsSafe(c, steps, d);
    } else {
      LiveIsSafe(c, steps, d);
    }
    IncrementalIsFull(c, steps, d, endpoint, model);
  }

  lemma Cancel<T>(a: seq<T>, b: seq<T>, c: seq<T>)
    ensures a + c == b + c <==> a == b
  {
    if a + c == b + c {
      assert |a| == |b|;
      forall k | 0 <= k < |a|
        ensures a[k] == b[k]
      {
        assert (a + c)[k] == (b + c)[k];
      }
    }
  }

  lemma CancelFront<T>(a: seq<T>, b: seq<T>, c: seq<T>)
    ensures c + a == c + b <==> a == b
  {
    if c + a == c + b {
      assert a == (c + a)[|c|..] == (c + b)[|c|..] == b;
    }
  }

  /** What the endpoint holds for a state is what a request with these messages builds on. */
  ghost predicate HeldRight(s: State, messages: seq<HistoryItem>, held: seq<Wire>) {
    || s.responseId == ""
    || (s.cursor <= |messages| && held == Compacted(s) + ResponseItems(messages[..s.cursor]))
    || (s.cursor > |messages| && held == [])
  }

  /** For any state and history, whatever led there. */
  lemma HeldExact(s: State, messages: seq<HistoryItem>, log: seq<Response>, endpoint: string)
    ensures Reads(log, endpoint, RequestOf(s, messages)) == Compacted(s) + ResponseItems(messages) <==>
              HeldRight(s, messages, ChainContext(log, endpoint, s.responseId))
  {
    var held, all := ChainContext(log, endpoint, s.responseId), ResponseItems(messages);
    if s.responseId != "" && s.cursor <= |messages| {
      var sent, delta := ResponseItems(messages[..s.cursor]), ResponseDelta(messages, s.cursor);
      DeltaCompletes(messages, s.cursor);
      Regroup(Compacted(s), sent, delta);
      Cancel(held, Compacted(s) + sent, delta);
    } else {
      assert [] + (Compacted(s) + all) == Compacted(s) + all;
      Cancel(held, [], Compacted(s) + all);
    }
  }

  /** The step leaves a state in force: no response completes, none falls back, none goes elsewhere. */
  predicate Keeps(s: State, step: Step) {
    match step
    case Request(endpoint, model, Completed(id)) => id == "" && !Mismatch(s, endpoint, model)
    case Request(endpoint, model, FellBack) => false
    case Request(endpoint, model, _) => !Mismatch(s, endpoint, model)
    case Reload(_, _) => false
    case _ => true
  }

  ghost predicate KeepsAll(s: State, steps: seq<Step>) {
    forall k {:trigger Keeps(s, steps[k])} :: 0 <= k < |steps| ==> Keeps(s, steps[k])
  }

  /** Nothing is taken out of the history, and a response that is known keeps its context. */
  ghost predicate Extends(c: Session, d: Session, endpoint: string, id: string) {
    && Messages(c.items) <= Messages(d.items)
    && (Known(c.log, endpoint, id) ==>
          Known(d.log, endpoint, id) && Context(d.log, endpoint, id) == Context(c.log, endpoint, id))
  }

  lemma KeepsStep(c: Session, step: Step, e: string, id: string)
    requires Enabled(c, step) && Keeps(c.state, step)
    ensures Next(c, step).state == c.state && Extends(c, Next(c, step), e, id)
  {
    match step
    case Append(batch) => MessagesConcat(c.items, batch);
    case Request(endpoint, model, outcome) =>
      var sent := RequestOf(c.state, Messages(c.items));
      if outcome.Interrupted? && outcome.stored != "" {
        KnownStays(c.log, Response(endpoint, outcome.stored, sent.previous, sent.input), e, id);
      }
    case _ =>
  }

  lemma {:induction false} KeepsRun(c: Session, steps: seq<Step>, d: Session, endpoint: string, id: string)
    requires Runs(c, steps, d) && KeepsAll(c.state, steps)
    ensures d.state == c.state && Extends(c, d, endpoint, id)
    decreases |steps|
  {
    if steps != [] {
      assert Keeps(c.state, steps[0]);
      KeepsStep(c, steps[0], endpoint, id);
      forall k | 0 <= k < |steps[1..]|
        ensures Keeps(c.state, steps[1..][k])
      {
        assert Keeps(c.state, steps[k + 1]);
      }
      KeepsRun(Next(c, steps[0]), steps[1..], d, endpoint, id);
    }
  }

  /**
   No response is stored; or the cursor lies within the messages and what was sent up to it is what they hold
   up to it; or it lies beyond them, there is no compaction, and nothing at all was sent up to it.
   */
  ghost predicate ReloadFull(s: State, live: seq<HistoryItem>, now: seq<HistoryItem>) {
    || s.responseId == "" || s.cursor > |live|
    || (s.cursor <= |now| && ResponseItems(live[..s.cursor]) == ResponseItems(now[..s.cursor]))
    || (s.cursor > |now| && Compacted(s) == [] && ResponseItems(live[..s.cursor]) == [])
  }

  lemma TakenUp(c: Session, r: Session, d: Session, endpoint: string, model: string)
    requires Inv(c) && r.state == c.storedState && r.log == c.log && d.state == r.state
    requires Extends(r, d, endpoint, r.state.responseId)
    requires !Mismatch(c.storedState, endpoint, model)
    ensures ReadsFull(d, endpoint, model) <==> ReloadFull(c.storedState, Messages(c.items), Messages(d.items))
  {
    var s, now := c.storedState, Messages(d.items);
    HeldExact(s, now, d.log, endpoint);
    if s.responseId != "" {
      assert ChainContext(d.log, endpoint, s.responseId) == Context(d.log, endpoint, s.responseId);
      if s.cursor <= |now| {
        CancelFront(ResponseItems(Messages(c.items)[..s.cursor]), ResponseItems(now[..s.cursor]), Compacted(s));
      }
    }
  }

  /**
   After a reload, with anything appended, written, lost or persisted and any requests that did not complete
   in between, a request to the endpoint and model of the stored state is full exactly when ReloadFull holds
   of the messages it is made with.
   */
  lemma ReloadExact(c: Session, specs: seq<Spec>, prompt: string, steps: seq<Step>, d: Session,
                    endpoint: string, model: string)
    requires Inv(c) && !Mismatch(c.storedState, endpoint, model)
    requires Runs(Next(c, Reload(specs, prompt)), steps, d) && KeepsAll(c.storedState, steps)
    ensures ReadsFull(d, endpoint, model) <==> ReloadFull(c.storedState, Messages(c.items), Messages(d.items))
    ensures c.storedState.responseId != "" ==> c.storedState.cursor <= |Messages(c.items)|
  {
    var r := Next(c, Reload(specs, prompt));
    KeepsRun(r, steps, d, endpoint, r.state.responseId);
    TakenUp(c, r, d, endpoint, model);
  }

  /** Then a request to another endpoint or model is full: it starts anew, from what the conversation has. */
  lemma ReloadElsewhere(c: Session, specs: seq<Spec>, prompt: string, steps: seq<Step>, d: Session,
                        endpoint: string, model: string)
    requires Mismatch(c.storedState, endpoint, model)
    requires Runs(Next(c, Reload(specs, prompt)), steps, d) && KeepsAll(c.storedState, steps)
    ensures ReadsFull(d, endpoint, model)
  {
    KeepsRun(Next(c, Reload(specs, prompt)), steps, d, endpoint, "");
    HeldExact(CLEARED, Messages(d.items), d.log, endpoint);
  }

  lemma CompletedContext(c: Session, endpoint: string, model: string, id: string)
    requires Enabled(c, Request(endpoint, model, Completed(id))) && id != ""
    ensures var d := Next(c, Request(endpoint, model, Completed(id)));
            var s := Checked(c.state, endpoint, model);
            && d.items == c.items
            && d.state == State(Some(endpoint), Some(model), id, |Messages(c.items)|, s.compacted)
            && Known(d.log, endpoint, id)
            && Context(d.log, endpoint, id) == Reads(c.log, endpoint, RequestOf(s, Messages(c.items)))
  {
    var sent := RequestOf(Checked(c.state, endpoint, model), Messages(c.items));
    var r := Response(endpoint, id, sent.previous, sent.input);
    assert Front(c.log + [r]) == c.log && Last(c.log + [r]) == r && (c.log + [r])[|c.log|] == r;
  }

  /**
   A chain of responses never heals and never breaks by itself: from any state, after a request completes the
   later ones to the same endpoint and model are full exactly when it was.
   */
  lemma ChainExact(c: Session, endpoint: string, model: string, id: string, steps: seq<Step>, d: Session)
    requires Enabled(c, Request(endpoint, model, Completed(id))) && id != ""
    requires var b := Next(c, Request(endpoint, model, Completed(id))); Runs(b, steps, d) && KeepsAll(b.state, steps)
    ensures ReadsFull(d, endpoint, model) <==> ReadsFull(c, endpoint, model)
  {
    var b := Next(c, Request(endpoint, model, Completed(id)));
    CompletedContext(c, endpoint, model, id);
    KeepsRun(b, steps, d, endpoint, id);
    HeldExact(d.state, Messages(d.items), d.log, endpoint);
    assert Messages(d.items)[..|Messages(c.items)|] == Messages(c.items);
  }

  // ---------------------------------------------------------------- compactions

  /**
   A compaction is carried by a request exactly when the state was made for that endpoint and model;
   otherwise it is dropped with the rest of the state, though the messages it stands for are not in
   this conversation's history.
   */
  lemma CompactionCarried(c: Session, steps: seq<Step>, d: Session, endpoint: string, model: string)
    requires Fresh(c) && SafeRun(c, steps, d) && Compacted(d.state) != []
    ensures var sent := RequestOf(Checked(d.state, endpoint, model), Messages(d.items));
            Reads(d.log, endpoint, sent) == Compacted(d.state) + ResponseItems(Messages(d.items))
            <==> !Mismatch(d.state, endpoint, model)
  {
    IncrementalIsFull(c, steps, d, endpoint, model);
    var items := ResponseItems(Messages(d.items));
    assert |Compacted(d.state) + items| != |[] + items|;
  }

  /** Falling back to Chat drops the compaction too: the next request stands on the messages alone. */
  lemma FallbackDropsCompaction(c: Session, endpoint: string, model: string, endpoint': string, model': string)
    requires Inv(c)
    ensures var d := Next(c, Request(endpoint, model, FellBack));
            var sent := RequestOf(Checked(d.state, endpoint', model'), Messages(d.items));
            Reads(d.log, endpoint', sent) == ResponseItems(Messages(d.items))
  {
    var messages := Messages(c.items);
    var wires := ResponseItems(messages);
    assert [] + wires == wires;
    assert Next(c, Request(endpoint, model, FellBack)) == c.(state := CLEARED);
    assert RequestOf(CLEARED, messages) == Sent("", [] + wires);
  }
}
