/**
 Chat completion chunks, the stream events made of them (llm/gateway.py) and the outputs merged
 back from the events (domain/stream.py).
 */
module StreamModel {
  import opened Basics

  // ---------------------------------------------------------------- incoming chunks

  /** One tool_calls entry; absent strings are empty. */
  datatype ToolDelta = ToolDelta(kind: Option<string>, index: int, id: string, name: string, arguments: string)

  datatype FunctionDelta = FunctionDelta(name: string, arguments: string)

  datatype Choice = Choice(content: string, reasoning: string, functionCall: Option<FunctionDelta>,
                           toolCalls: seq<ToolDelta>, finishReason: Option<string>)

  /** What one choice contributes, in the order the gateway looks at it. */
  datatype Delta =
    | Text(text: string)
    | Reasoning(text: string)
    | Tool(index: int, id: string, name: string, arguments: string)

  /** Entries of another type than "function" are skipped. */
  function ToolDeltas(calls: seq<ToolDelta>): seq<Delta> {
    if calls == [] then []
    else
      ToolDeltas(Front(calls))
      + (if Last(calls).kind.Some? && Last(calls).kind.value != "function" then []
         else [Tool(Last(calls).index, Last(calls).id, Last(calls).name, Last(calls).arguments)])
  }

  function WordsOf(c: Choice): seq<Delta> {
    (if c.content != "" then [Text(c.content)] else []) + (if c.reasoning != "" then [Reasoning(c.reasoning)] else [])
  }

  /** The older function_call field is read as tool call 0 with the id "tool-0". */
  function LegacyCall(c: Choice): seq<Delta> {
    if c.functionCall.None? then []
    else [Tool(0, GroupOf(0), c.functionCall.value.name, c.functionCall.value.arguments)]
  }

  function DeltasOf(c: Choice): seq<Delta> {
    WordsOf(c) + LegacyCall(c) + ToolDeltas(c.toolCalls)
  }

  function AllDeltas(choices: seq<Choice>): seq<Delta> {
    if choices == [] then [] else AllDeltas(Front(choices)) + DeltasOf(Last(choices))
  }

  /** The reason given last; "stop" when none is. */
  function FinishReason(choices: seq<Choice>): string {
    if choices == [] then "stop"
    else match Last(choices).finishReason
      case Some(reason) => reason
      case None => FinishReason(Front(choices))
  }

  /** Chunks are lists of choices; the stream is read choice by choice. */
  function AllChoices(chunks: seq<seq<Choice>>): seq<Choice> {
    if chunks == [] then [] else AllChoices(Front(chunks)) + Last(chunks)
  }

  // ---------------------------------------------------------------- group names

  function Digit(n: nat): char
    requires n < 10
  {
    '0' + n as char
  }

  function Digits(n: nat): (s: string)
    ensures s != "" && s[0] != '-' && (n >= 10 ==> |s| >= 2)
  {
    if n < 10 then [Digit(n)] else Digits(n / 10) + [Digit(n % 10)]
  }

  function Decimal(n: int): string {
    if n < 0 then "-" + Digits(-n) else Digits(n)
  }

  function GroupOf(index: int): string {
    "tool-" + Decimal(index)
  }

  const TEXT_GROUP := "text-0"
  const REASONING_GROUP := "reasoning-0"

  lemma {:induction false} DigitsInjective(a: nat, b: nat)
    requires Digits(a) == Digits(b)
    ensures a == b
  {
    if a < 10 && b < 10 {
      assert Digits(a)[0] == Digit(a) && Digits(b)[0] == Digit(b);
    } else if a >= 10 && b >= 10 {
      var m, n := Digits(a / 10), Digits(b / 10);
      assert m == Digits(a)[..|Digits(a)| - 1] && n == Digits(b)[..|Digits(b)| - 1];
      DigitsInjective(a / 10, b / 10);
      assert Digits(a)[|m|] == Digit(a % 10) && Digits(b)[|n|] == Digit(b % 10);
    }
  }

  /** Different tool indexes have different groups. */
  lemma GroupInjective(a: int, b: int)
    requires GroupOf(a) == GroupOf(b)
    ensures a == b
  {
    assert Decimal(a) == GroupOf(a)[5..] && Decimal(b) == GroupOf(b)[5..];
    assert (Decimal(a)[0] == '-' <==> a < 0) && (Decimal(b)[0] == '-' <==> b < 0);
    if a < 0 {
      assert Decimal(a)[1..] == Digits(-a) && Decimal(b)[1..] == Digits(-b);
      DigitsInjective(-a, -b);
    } else {
      DigitsInjective(a, b);
    }
  }

  // ---------------------------------------------------------------- events

  datatype Payload =
    | TextDelta(text: string)
    | ReasoningDelta(text: string)
    | ToolName(name: string, id: string)
    | ToolArgumentsDelta(text: string)
    | ToolArgumentsEnd
    | ToolResult
    | StreamStop(reason: string)

  datatype Event = Event(group: string, payload: Payload)

  /** What the gateway remembers of the tool calls of one stream. */
  datatype ToolState = ToolState(named: set<int>, ids: map<int, string>, pending: map<int, seq<string>>)

  const NO_TOOLS := ToolState({}, map[], map[])

  datatype Emitted = Emitted(state: ToolState, events: seq<Event>)

  function SetDefault<K, V>(m: map<K, V>, k: K, v: V): map<K, V> {
    if k in m then m else m[k := v]
  }

  function PendingOf(s: ToolState, i: int): seq<string> {
    if i in s.pending then s.pending[i] else []
  }

  function ArgumentEvents(group: string, fragments: seq<string>): (r: seq<Event>)
    ensures |r| == |fragments|
  {
    seq(|fragments|, k requires 0 <= k < |fragments| => Event(group, ToolArgumentsDelta(fragments[k])))
  }

  /** A tool call is announced once, when its name is first known, with the arguments held back so far. */
  function EmitName(s: ToolState, i: int, id: string, name: string): Emitted {
    if name == "" || i in s.named then Emitted(s, [])
    else
      var ids := if id != "" then SetDefault(s.ids, i, id) else s.ids;
      var known := if i in ids then ids[i] else GroupOf(i);
      Emitted(ToolState(s.named + {i}, ids, s.pending - {i}),
              [Event(GroupOf(i), ToolName(name, known))] + ArgumentEvents(GroupOf(i), PendingOf(s, i)))
  }

  function EmitArguments(s: ToolState, i: int, arguments: string): Emitted {
    if arguments == "" then Emitted(s, [])
    else if i in s.named then Emitted(s, [Event(GroupOf(i), ToolArgumentsDelta(arguments))])
    else Emitted(s.(pending := s.pending[i := PendingOf(s, i) + [arguments]]), [])
  }

  function EmitTool(s: ToolState, i: int, id: string, name: string, arguments: string): Emitted {
    var s1 := if id != "" then s.(ids := SetDefault(s.ids, i, id)) else s;
    var named := EmitName(s1, i, if id != "" then id else GroupOf(i), name);
    var rest := EmitArguments(named.state, i, arguments);
    Emitted(rest.state, named.events + rest.events)
  }

  function EmitDelta(s: ToolState, d: Delta): Emitted {
    match d
    case Text(text) => Emitted(s, [Event(TEXT_GROUP, TextDelta(text))])
    case Reasoning(text) => Emitted(s, [Event(REASONING_GROUP, ReasoningDelta(text))])
    case Tool(i, id, name, arguments) => EmitTool(s, i, id, name, arguments)
  }

  function EmitFrom(s: ToolState, ds: seq<Delta>): Emitted {
    if ds == [] then Emitted(s, [])
    else
      var before := EmitFrom(s, Front(ds));
      var now := EmitDelta(before.state, Last(ds));
      Emitted(now.state, before.events + now.events)
  }

  /** Everything emitted for the deltas of one stream. */
  function EmitAll(ds: seq<Delta>): Emitted {
    EmitFrom(NO_TOOLS, ds)
  }

  function EndEvents(indexes: seq<int>): (r: seq<Event>)
    ensures |r| == |indexes|
  {
    seq(|indexes|, k requires 0 <= k < |indexes| => Event(GroupOf(indexes[k]), ToolArgumentsEnd))
  }

  // ---------------------------------------------------------------- merging

  datatype Output =
    | GenText(text: string)
    | GenReasoning(text: string)
    | GenToolCall(id: string, name: string, arguments: string)

  datatype Kind = TextKind | ReasoningKind | ToolKind

  datatype Key = Key(kind: Kind, group: string)

  datatype Call = Call(name: Option<string>, id: Option<string>, arguments: Option<string>, done: bool)

  const NO_CALL := Call(None, None, None, false)

  datatype Merged = Merged(text: map<string, seq<string>>, reasoning: map<string, seq<string>>,
                           calls: map<string, Call>, order: seq<Key>, stop: string)

  const NOTHING := Merged(map[], map[], map[], [], "stop")

  function Mark(order: seq<Key>, key: Key): seq<Key> {
    if key in order then order else order + [key]
  }

  function AppendTo(m: map<string, seq<string>>, group: string, text: string): map<string, seq<string>> {
    m[group := (if group in m then m[group] else []) + [text]]
  }

  function CallOf(m: Merged, group: string): Call {
    if group in m.calls then m.calls[group] else NO_CALL
  }

  function GetOr(o: Option<string>, default: string): string {
    match o case None => default case Some(v) => v
  }

  function MergeEvent(m: Merged, e: Event): Merged {
    match e.payload
    case StreamStop(reason) => m.(stop := reason)
    case TextDelta(text) =>
      m.(order := Mark(m.order, Key(TextKind, e.group)), text := AppendTo(m.text, e.group, text))
    case ReasoningDelta(text) =>
      m.(order := Mark(m.order, Key(ReasoningKind, e.group)), reasoning := AppendTo(m.reasoning, e.group, text))
    case ToolName(name, id) =>
      m.(order := Mark(m.order, Key(ToolKind, e.group)),
         calls := m.calls[e.group := CallOf(m, e.group).(name := Some(name),
                                                         id := Some(if id != "" then id else e.group))])
    case ToolArgumentsDelta(text) =>
      m.(order := Mark(m.order, Key(ToolKind, e.group)),
         calls := m.calls[e.group := CallOf(m, e.group).(
                            arguments := Some(GetOr(CallOf(m, e.group).arguments, "") + text))])
    case ToolArgumentsEnd => m.(calls := m.calls[e.group := CallOf(m, e.group).(done := true)])
    case ToolResult => m
  }

  function MergeAll(m: Merged, es: seq<Event>): Merged {
    if es == [] then m else MergeEvent(MergeAll(m, Front(es)), Last(es))
  }

  function Concat(parts: seq<string>): string {
    if parts == [] then "" else Concat(Front(parts)) + Last(parts)
  }

  function JoinedOf(m: map<string, seq<string>>, group: string): string {
    if group in m then Concat(m[group]) else ""
  }

  /** The output of one key; a tool call that never ended is dropped unless asked for. */
  function OutputsOf(m: Merged, key: Key, dropPartial: bool): seq<Output> {
    match key.kind
    case TextKind => [GenText(JoinedOf(m.text, key.group))]
    case ReasoningKind => [GenReasoning(JoinedOf(m.reasoning, key.group))]
    case ToolKind =>
      var call := CallOf(m, key.group);
      if call.done || !dropPartial
      then [GenToolCall(GetOr(call.id, key.group), GetOr(call.name, ""), GetOr(call.arguments, ""))]
      else []
  }

  function Outputs(m: Merged, order: seq<Key>, dropPartial: bool): seq<Output> {
    if order == [] then [] else Outputs(m, Front(order), dropPartial) + OutputsOf(m, Last(order), dropPartial)
  }

  function Merge(es: seq<Event>, dropPartial: bool): (seq<Output>, string) {
    var m := MergeAll(NOTHING, es);
    (Outputs(m, m.order, dropPartial), m.stop)
  }
}
