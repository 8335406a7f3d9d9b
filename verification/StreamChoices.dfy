/** What the merge of a stream says about the choices themselves: their fields, and the order they came in. */
module StreamChoices {
  import opened Basics
  import opened StreamModel
  import opened StreamTheorems

  // ---------------------------------------------------------------- spots

  /** A place in a stream: parts 0 to 2 are content, reasoning and function_call, the rest tool_calls. */
  datatype Spot = Spot(choice: nat, part: nat)

  predicate Sooner(a: Spot, b: Spot) {
    a.choice < b.choice || (a.choice == b.choice && a.part < b.part)
  }

  /** There is something: words that are not empty, a function call, or a tool call of type function or none. */
  predicate Present(c: Choice, part: nat) {
    if part == 0 then c.content != ""
    else if part == 1 then c.reasoning != ""
    else if part == 2 then c.functionCall != None
    else
      && part - 3 < |c.toolCalls|
      && (c.toolCalls[part - 3].kind == None || c.toolCalls[part - 3].kind == Some("function"))
  }

  predicate Filled(choices: seq<Choice>, s: Spot) {
    s.choice < |choices| && Present(choices[s.choice], s.part)
  }

  /** A tool call entry: the old function_call is entry 0, with the id "tool-0". */
  predicate IsEntry(choices: seq<Choice>, s: Spot, i: int) {
    Filled(choices, s) && s.part >= 2 && i == IndexOf(choices[s.choice], s.part)
  }

  function IndexOf(c: Choice, part: nat): int
    requires part >= 2 && Present(c, part)
  {
    if part == 2 then 0 else c.toolCalls[part - 3].index
  }

  function IdOf(c: Choice, part: nat): string
    requires part >= 2 && Present(c, part)
  {
    if part == 2 then "tool-0" else c.toolCalls[part - 3].id
  }

  function NameOf(c: Choice, part: nat): string
    requires part >= 2 && Present(c, part)
  {
    if part == 2 then c.functionCall.value.name else c.toolCalls[part - 3].name
  }

  function ArgumentsOf(c: Choice, part: nat): string
    requires part >= 2 && Present(c, part)
  {
    if part == 2 then c.functionCall.value.arguments else c.toolCalls[part - 3].arguments
  }

  // ---------------------------------------------------------------- what the outputs must be

  function Contents(choices: seq<Choice>): string {
    if choices == [] then "" else Contents(Front(choices)) + Last(choices).content
  }

  function Reasonings(choices: seq<Choice>): string {
    if choices == [] then "" else Reasonings(Front(choices)) + Last(choices).reasoning
  }

  /** The fragments of the first `parts` parts of a choice that are for call `i`. */
  function FragmentsTo(c: Choice, i: int, parts: nat): string {
    if parts <= 2 then ""
    else
      FragmentsTo(c, i, parts - 1)
      + (if Present(c, parts - 1) && IndexOf(c, parts - 1) == i then ArgumentsOf(c, parts - 1) else "")
  }

  function Fragments(choices: seq<Choice>, i: int): string {
    if choices == [] then ""
    else Fragments(Front(choices), i) + FragmentsTo(Last(choices), i, |Last(choices).toolCalls| + 3)
  }

  /** The spot opens an output. */
  predicate Starts(choices: seq<Choice>, s: Spot, slot: Slot) {
    match slot
    case TextSlot => s.part == 0 && Filled(choices, s)
    case ReasoningSlot => s.part == 1 && Filled(choices, s)
    case ToolSlot(i) => IsEntry(choices, s, i) && NameOf(choices[s.choice], s.part) != ""
  }

  ghost predicate StartsFirst(choices: seq<Choice>, s: Spot, slot: Slot) {
    && Starts(choices, s, slot)
    && forall other {:trigger Starts(choices, other, slot)} :: Starts(choices, other, slot) ==> !Sooner(other, s)
  }

  predicate Identified(choices: seq<Choice>, s: Spot, i: int) {
    IsEntry(choices, s, i) && IdOf(choices[s.choice], s.part) != ""
  }

  ghost predicate IdentifiedFirst(choices: seq<Choice>, s: Spot, i: int) {
    && Identified(choices, s, i)
    && forall other {:trigger Identified(choices, other, i)} :: Identified(choices, other, i) ==> !Sooner(other, s)
  }

  /** The first id that came no later than the name at `named`; the name of the group when there is none. */
  ghost predicate IdFits(choices: seq<Choice>, i: int, named: Spot, id: string) {
    || (exists d {:trigger IdentifiedFirst(choices, d, i)} ::
          IdentifiedFirst(choices, d, i) && !Sooner(named, d) && id == IdOf(choices[d.choice], d.part))
    || (id == GroupOf(i)
        && forall d {:trigger Identified(choices, d, i)} :: Identified(choices, d, i) ==> Sooner(named, d))
  }

  /** Name and id of call `i`: the name is the first that is not empty. */
  ghost predicate CallFits(choices: seq<Choice>, i: int, named: Spot, id: string, name: string) {
    StartsFirst(choices, named, ToolSlot(i)) && name == NameOf(choices[named.choice], named.part)
    && IdFits(choices, i, named, id)
  }

  /** The output says what the choices said. */
  ghost predicate Tells(choices: seq<Choice>, slot: Slot, o: Output) {
    match slot
    case TextSlot => o == GenText(Contents(choices))
    case ReasoningSlot => o == GenReasoning(Reasonings(choices))
    case ToolSlot(i) =>
      && o.GenToolCall? && o.arguments == Fragments(choices, i)
      && exists named {:trigger CallFits(choices, i, named, o.id, o.name)} ::
           CallFits(choices, i, named, o.id, o.name)
  }

  ghost predicate StartsSooner(choices: seq<Choice>, a: Slot, b: Slot) {
    exists s, t {:trigger StartsFirst(choices, s, a), StartsFirst(choices, t, b)} ::
      StartsFirst(choices, s, a) && StartsFirst(choices, t, b) && Sooner(s, t)
  }

  ghost predicate Ordered(choices: seq<Choice>, slots: seq<Slot>) {
    forall a, b {:trigger StartsSooner(choices, slots[a], slots[b])} ::
      0 <= a < b < |slots| ==> StartsSooner(choices, slots[a], slots[b])
  }

  /** Every slot that some spot opens, tool calls only if wanted, in the order in which they first open. */
  ghost predicate Listed(choices: seq<Choice>, slots: seq<Slot>, calls: bool) {
    && (forall slot {:trigger slot in slots} ::
          slot in slots <==> (calls || !slot.ToolSlot?) && exists s :: Starts(choices, s, slot))
    && Ordered(choices, slots)
  }

  /** The outputs are just what the choices said. */
  ghost predicate Said(choices: seq<Choice>, slots: seq<Slot>, outputs: seq<Output>, calls: bool) {
    && Listed(choices, slots, calls) && |outputs| == |slots|
    && forall k {:trigger Tells(choices, slots[k], outputs[k])} ::
         0 <= k < |slots| ==> Tells(choices, slots[k], outputs[k])
  }

  // ---------------------------------------------------------------- the spots of the deltas

  function DeltaAt(c: Choice, part: nat): Delta
    requires Present(c, part)
  {
    if part == 0 then Text(c.content)
    else if part == 1 then Reasoning(c.reasoning)
    else Tool(IndexOf(c, part), IdOf(c, part), NameOf(c, part), ArgumentsOf(c, part))
  }

  /** `parts` are the parts below `limit` that hold something, in order, and `ds` is what they hold. */
  ghost predicate Lists(c: Choice, parts: seq<nat>, ds: seq<Delta>, limit: nat) {
    && |parts| == |ds|
    && (forall k {:trigger parts[k]} :: 0 <= k < |parts| ==>
          parts[k] < limit && Present(c, parts[k]) && ds[k] == DeltaAt(c, parts[k]))
    && (forall a, b {:trigger parts[a], parts[b]} :: 0 <= a < b < |parts| ==> parts[a] < parts[b])
    && forall p: nat {:trigger Present(c, p)} :: p < limit && Present(c, p) ==> p in parts
  }

  lemma ListsMore(c: Choice, parts: seq<nat>, ds: seq<Delta>, limit: nat)
    requires Lists(c, parts, ds, limit)
    ensures Present(c, limit) ==> Lists(c, parts + [limit], ds + [DeltaAt(c, limit)], limit + 1)
    ensures !Present(c, limit) ==> Lists(c, parts, ds, limit + 1)
  {
  }

  lemma ListsStep(c: Choice, parts: seq<nat>, ds: seq<Delta>, limit: nat, d: seq<Delta>) returns (more: seq<nat>)
    requires Lists(c, parts, ds, limit)
    requires d == if Present(c, limit) then [DeltaAt(c, limit)] else []
    ensures Lists(c, more, ds + d, limit + 1)
  {
    ListsMore(c, parts, ds, limit);
    more := if Present(c, limit) then parts + [limit] else parts;
    assert ds + [] == ds;
  }

  lemma FirstGroup()
    ensures GroupOf(0) == "tool-0"
  {
  }

  lemma TextParts(c: Choice) returns (parts: seq<nat>)
    ensures Lists(c, parts, if c.content != "" then [Text(c.content)] else [], 1)
  {
    var text := if c.content != "" then [Text(c.content)] else [];
    parts := ListsStep(c, [], [], 0, text);
    assert [] + text == text;
  }

  lemma BothParts(c: Choice) returns (parts: seq<nat>)
    ensures Lists(c, parts, WordsOf(c), 2)
  {
    parts := TextParts(c);
    parts := ListsStep(c, parts, if c.content != "" then [Text(c.content)] else [], 1,
                       if c.reasoning != "" then [Reasoning(c.reasoning)] else []);
  }

  lemma WordParts(c: Choice) returns (parts: seq<nat>)
    ensures Lists(c, parts, WordsOf(c) + LegacyCall(c), 3)
  {
    FirstGroup();
    parts := BothParts(c);
    parts := ListsStep(c, parts, WordsOf(c), 2, LegacyCall(c));
  }

  lemma {:induction false} CallParts(c: Choice, calls: seq<ToolDelta>) returns (parts: seq<nat>)
    requires calls <= c.toolCalls
    ensures Lists(c, parts, WordsOf(c) + LegacyCall(c) + ToolDeltas(calls), |calls| + 3)
  {
    if calls == [] {
      parts := WordParts(c);
      assert WordsOf(c) + LegacyCall(c) + [] == WordsOf(c) + LegacyCall(c);
    } else {
      parts := CallParts(c, Front(calls));
      var before, call := WordsOf(c) + LegacyCall(c), Last(calls);
      assert call == c.toolCalls[|calls| - 1];
      var last := if call.kind.Some? && call.kind.value != "function" then []
                  else [Tool(call.index, call.id, call.name, call.arguments)];
      parts := ListsStep(c, parts, before + ToolDeltas(Front(calls)), |calls| + 2, last);
      Regroup(before, ToolDeltas(Front(calls)), last);
    }
  }

  ghost predicate Holds(choices: seq<Choice>, s: Spot, d: Delta) {
    Filled(choices, s) && d == DeltaAt(choices[s.choice], s.part)
  }

  ghost predicate InOrder(spots: seq<Spot>) {
    forall a, b {:trigger spots[a], spots[b]} :: 0 <= a < b < |spots| ==> Sooner(spots[a], spots[b])
  }

  ghost predicate AllFilled(choices: seq<Choice>, spots: seq<Spot>) {
    forall s {:trigger Filled(choices, s)} :: Filled(choices, s) ==> s in spots
  }

  /** All spots that hold something, in order, and what they hold. */
  ghost predicate ListsAll(choices: seq<Choice>, spots: seq<Spot>, ds: seq<Delta>) {
    && |spots| == |ds| && InOrder(spots) && AllFilled(choices, spots)
    && forall k {:trigger Holds(choices, spots[k], ds[k])} :: 0 <= k < |spots| ==> Holds(choices, spots[k], ds[k])
  }

  function SpotsIn(choice: nat, parts: seq<nat>): (spots: seq<Spot>)
    ensures |spots| == |parts|
    ensures forall k {:trigger spots[k]} :: 0 <= k < |spots| ==> spots[k] == Spot(choice, parts[k])
  {
    if parts == [] then [] else SpotsIn(choice, Front(parts)) + [Spot(choice, Last(parts))]
  }

  lemma AllFilledMore(choices: seq<Choice>, spots: seq<Spot>, c: Choice, parts: seq<nat>, more: seq<Delta>)
    requires AllFilled(choices, spots) && Lists(c, parts, more, |c.toolCalls| + 3)
    ensures AllFilled(choices + [c], spots + SpotsIn(|choices|, parts))
  {
    var all, added := choices + [c], SpotsIn(|choices|, parts);
    forall s | Filled(all, s)
      ensures s in spots + added
    {
      if s.choice < |choices| {
        assert Filled(choices, s);
      } else {
        assert s.part in parts;
        var k :| 0 <= k < |parts| && parts[k] == s.part;
        assert added[k] == s;
      }
    }
  }

  lemma InOrderMore(spots: seq<Spot>, choice: nat, parts: seq<nat>)
    requires InOrder(spots) && forall s {:trigger s.choice} :: s in spots ==> s.choice < choice
    requires forall a, b {:trigger parts[a], parts[b]} :: 0 <= a < b < |parts| ==> parts[a] < parts[b]
    ensures InOrder(spots + SpotsIn(choice, parts))
  {
    var added := SpotsIn(choice, parts);
    var all := spots + added;
    forall a, b | 0 <= a < b < |all|
      ensures Sooner(all[a], all[b])
    {
      if b < |spots| {
        assert all[a] == spots[a] && all[b] == spots[b];
      } else {
        assert all[b] == added[b - |spots|];
        if a < |spots| {
          assert all[a] == spots[a] && spots[a] in spots;
        } else {
          assert all[a] == added[a - |spots|] && parts[a - |spots|] < parts[b - |spots|];
        }
      }
    }
  }

  lemma HoldsStill(choices: seq<Choice>, s: Spot, d: Delta, c: Choice)
    requires Holds(choices, s, d)
    ensures Holds(choices + [c], s, d)
  {
  }

  lemma HoldsNow(choices: seq<Choice>, c: Choice, part: nat, d: Delta)
    requires Present(c, part) && d == DeltaAt(c, part)
    ensures Holds(choices + [c], Spot(|choices|, part), d)
  {
  }

  lemma ListsChoice(choices: seq<Choice>, spots: seq<Spot>, ds: seq<Delta>, c: Choice, parts: seq<nat>,
                    more: seq<Delta>)
    requires ListsAll(choices, spots, ds) && Lists(c, parts, more, |c.toolCalls| + 3)
    ensures ListsAll(choices + [c], spots + SpotsIn(|choices|, parts), ds + more)
  {
    forall s | s in spots
      ensures s.choice < |choices|
    {
      var k :| 0 <= k < |spots| && spots[k] == s;
      assert Holds(choices, spots[k], ds[k]);
    }
    InOrderMore(spots, |choices|, parts);
    AllFilledMore(choices, spots, c, parts, more);
    forall k | 0 <= k < |spots| + |parts|
      ensures Holds(choices + [c], (spots + SpotsIn(|choices|, parts))[k], (ds + more)[k])
    {
      if k < |spots| {
        HoldsStill(choices, spots[k], ds[k], c);
      } else {
        HoldsNow(choices, c, parts[k - |spots|], more[k - |spots|]);
      }
    }
  }

  /** The deltas of a stream are what its spots hold, spot by spot. */
  lemma {:induction false} SpotsOf(choices: seq<Choice>) returns (spots: seq<Spot>)
    ensures ListsAll(choices, spots, AllDeltas(choices))
  {
    spots := [];
    if choices != [] {
      spots := SpotsOf(Front(choices));
      var parts := CallParts(Last(choices), Last(choices).toolCalls);
      ListsChoice(Front(choices), spots, AllDeltas(Front(choices)), Last(choices), parts, DeltasOf(Last(choices)));
      assert Front(choices) + [Last(choices)] == choices;
      spots := spots + SpotsIn(|choices| - 1, parts);
    }
  }

  // ---------------------------------------------------------------- what the deltas say of the choices

  lemma OpensThere(choices: seq<Choice>, s: Spot, d: Delta, slot: Slot)
    requires Holds(choices, s, d)
    ensures Opens(d, slot) <==> Starts(choices, s, slot)
  {
  }

  lemma SpotListed(choices: seq<Choice>, spots: seq<Spot>, ds: seq<Delta>, s: Spot) returns (k: nat)
    requires ListsAll(choices, spots, ds) && Filled(choices, s)
    ensures k < |spots| && spots[k] == s && Holds(choices, s, ds[k])
  {
    k :| 0 <= k < |spots| && spots[k] == s;
    assert Holds(choices, spots[k], ds[k]);
  }

  lemma FirstSpot(choices: seq<Choice>, spots: seq<Spot>, ds: seq<Delta>, slot: Slot)
    requires ListsAll(choices, spots, ds) && OpensAt(ds, slot).Some?
    ensures StartsFirst(choices, spots[OpensAt(ds, slot).value], slot)
  {
    var at := OpensAt(ds, slot).value;
    assert Holds(choices, spots[at], ds[at]);
    OpensThere(choices, spots[at], ds[at], slot);
    forall other | Starts(choices, other, slot)
      ensures !Sooner(other, spots[at])
    {
      var k := SpotListed(choices, spots, ds, other);
      OpensThere(choices, other, ds[k], slot);
      assert k >= at;
    }
  }

  lemma SlotStarts(choices: seq<Choice>, spots: seq<Spot>, ds: seq<Delta>, slot: Slot)
    requires ListsAll(choices, spots, ds)
    ensures OpensAt(ds, slot).Some? <==> exists s :: Starts(choices, s, slot)
  {
    if OpensAt(ds, slot).Some? {
      FirstSpot(choices, spots, ds, slot);
    } else if s :| Starts(choices, s, slot) {
      var k := SpotListed(choices, spots, ds, s);
      OpensThere(choices, s, ds[k], slot);
    }
  }

  lemma FirstIdentified(choices: seq<Choice>, spots: seq<Spot>, ds: seq<Delta>, i: int)
    requires ListsAll(choices, spots, ds) && IdAt(ds, i).Some?
    ensures IdentifiedFirst(choices, spots[IdAt(ds, i).value], i)
  {
    var at := IdAt(ds, i).value;
    assert Holds(choices, spots[at], ds[at]);
    forall other | Identified(choices, other, i)
      ensures !Sooner(other, spots[at])
    {
      var k := SpotListed(choices, spots, ds, other);
      assert Identifies(ds[k], i);
    }
  }

  lemma IdReads(choices: seq<Choice>, spots: seq<Spot>, ds: seq<Delta>, i: int)
    requires ListsAll(choices, spots, ds) && NamedAt(ds, i).Some?
    ensures IdFits(choices, i, spots[NamedAt(ds, i).value], CallId(ds, i))
  {
    var at, named := IdAt(ds, i), NamedAt(ds, i).value;
    if at.Some? && at.value <= named {
      FirstIdentified(choices, spots, ds, i);
      assert Holds(choices, spots[at.value], ds[at.value]);
    } else {
      forall d | Identified(choices, d, i)
        ensures Sooner(spots[named], d)
      {
        var k := SpotListed(choices, spots, ds, d);
        assert Identifies(ds[k], i);
      }
    }
  }

  lemma NamedIsOpened(ds: seq<Delta>, i: int)
    ensures NamedAt(ds, i) == OpensAt(ds, ToolSlot(i))
  {
  }

  lemma CallReads(choices: seq<Choice>, spots: seq<Spot>, ds: seq<Delta>, i: int)
    requires ListsAll(choices, spots, ds) && NamedAt(ds, i).Some?
    ensures CallFits(choices, i, spots[NamedAt(ds, i).value], CallId(ds, i), CallName(ds, i))
  {
    var at := NamedAt(ds, i).value;
    NamedIsOpened(ds, i);
    FirstSpot(choices, spots, ds, ToolSlot(i));
    assert Holds(choices, spots[at], ds[at]);
    IdReads(choices, spots, ds, i);
  }

  // ---------------------------------------------------------------- words and fragments

  lemma {:induction false} TextConcat(a: seq<Delta>, b: seq<Delta>)
    ensures TextOf(a + b) == TextOf(a) + TextOf(b)
  {
    if b == [] {
      assert a + b == a;
    } else {
      assert Front(a + b) == a + Front(b) && Last(a + b) == Last(b);
      TextConcat(a, Front(b));
      Regroup(TextOf(a), TextOf(Front(b)), if Last(b).Text? then Last(b).text else "");
    }
  }

  lemma {:induction false} ReasoningConcat(a: seq<Delta>, b: seq<Delta>)
    ensures ReasoningOf(a + b) == ReasoningOf(a) + ReasoningOf(b)
  {
    if b == [] {
      assert a + b == a;
    } else {
      assert Front(a + b) == a + Front(b) && Last(a + b) == Last(b);
      ReasoningConcat(a, Front(b));
      Regroup(ReasoningOf(a), ReasoningOf(Front(b)), if Last(b).Reasoning? then Last(b).text else "");
    }
  }

  lemma {:induction false} ArgumentsConcat(a: seq<Delta>, b: seq<Delta>, i: int)
    ensures CallArguments(a + b, i) == CallArguments(a, i) + CallArguments(b, i)
  {
    if b == [] {
      assert a + b == a;
    } else {
      assert Front(a + b) == a + Front(b) && Last(a + b) == Last(b);
      ArgumentsConcat(a, Front(b), i);
      Regroup(CallArguments(a, i), CallArguments(Front(b), i),
              if Last(b).Tool? && Last(b).index == i then Last(b).arguments else "");
    }
  }

  /** What a list of deltas says: its text, its reasoning and the arguments of call `i`. */
  ghost predicate Reads(ds: seq<Delta>, i: int, text: string, reasoning: string, arguments: string) {
    TextOf(ds) == text && ReasoningOf(ds) == reasoning && CallArguments(ds, i) == arguments
  }

  lemma ReadConcat(a: seq<Delta>, b: seq<Delta>, i: int)
    ensures Reads(a + b, i, TextOf(a) + TextOf(b), ReasoningOf(a) + ReasoningOf(b),
                  CallArguments(a, i) + CallArguments(b, i))
  {
    TextConcat(a, b);
    ReasoningConcat(a, b);
    ArgumentsConcat(a, b, i);
  }

  /** What the first `n` tool_calls entries of a choice say. */
  ghost predicate CallsRead(c: Choice, n: nat, ds: seq<Delta>, i: int) {
    && TextOf(ds) == "" && ReasoningOf(ds) == ""
    && FragmentsTo(c, i, 3) + CallArguments(ds, i) == FragmentsTo(c, i, n + 3)
  }

  lemma CallRead(c: Choice, n: nat, ds: seq<Delta>, i: int)
    requires n < |c.toolCalls| && CallsRead(c, n, ds, i)
    ensures var call := c.toolCalls[n]; var d := Tool(call.index, call.id, call.name, call.arguments);
            CallsRead(c, n + 1, if call.kind.Some? && call.kind.value != "function" then ds else ds + [d], i)
  {
    var call := c.toolCalls[n];
    var d := Tool(call.index, call.id, call.name, call.arguments);
    assert Front(ds + [d]) == ds;
    Regroup(FragmentsTo(c, i, 3), CallArguments(ds, i), if call.index == i then call.arguments else "");
  }

  lemma {:induction false} ReadCalls(c: Choice, calls: seq<ToolDelta>, i: int)
    requires calls <= c.toolCalls
    ensures CallsRead(c, |calls|, ToolDeltas(calls), i)
  {
    if calls != [] {
      ReadCalls(c, Front(calls), i);
      CallRead(c, |calls| - 1, ToolDeltas(Front(calls)), i);
      assert Last(calls) == c.toolCalls[|calls| - 1];
      assert ToolDeltas(Front(calls)) + [] == ToolDeltas(Front(calls));
    }
  }

  lemma ReadOne(d: Delta, i: int)
    ensures Reads([d], i, if d.Text? then d.text else "", if d.Reasoning? then d.text else "",
                  if d.Tool? && d.index == i then d.arguments else "")
  {
    assert Front([d]) == [];
  }

  lemma ReadTextAndReasoning(c: Choice, i: int)
    ensures Reads(WordsOf(c), i, c.content, c.reasoning, "")
  {
    ReadOne(Text(c.content), i);
    ReadOne(Reasoning(c.reasoning), i);
    ReadConcat(if c.content != "" then [Text(c.content)] else [],
               if c.reasoning != "" then [Reasoning(c.reasoning)] else [], i);
  }

  lemma ReadLegacy(c: Choice, i: int)
    ensures Reads(LegacyCall(c), i, "", "", FragmentsTo(c, i, 3))
  {
    if c.functionCall.Some? {
      ReadOne(Tool(0, GroupOf(0), c.functionCall.value.name, c.functionCall.value.arguments), i);
    }
  }

  lemma ReadWords(c: Choice, i: int)
    ensures Reads(WordsOf(c) + LegacyCall(c), i, c.content, c.reasoning, FragmentsTo(c, i, 3))
  {
    ReadTextAndReasoning(c, i);
    ReadLegacy(c, i);
    ReadConcat(WordsOf(c), LegacyCall(c), i);
  }

  lemma ReadChoice(c: Choice, i: int)
    ensures TextOf(DeltasOf(c)) == c.content && ReasoningOf(DeltasOf(c)) == c.reasoning
    ensures CallArguments(DeltasOf(c), i) == FragmentsTo(c, i, |c.toolCalls| + 3)
  {
    ReadWords(c, i);
    ReadCalls(c, c.toolCalls, i);
    ReadConcat(WordsOf(c) + LegacyCall(c), ToolDeltas(c.toolCalls), i);
  }

  lemma {:induction false} ReadChoices(choices: seq<Choice>, i: int)
    ensures TextOf(AllDeltas(choices)) == Contents(choices)
    ensures ReasoningOf(AllDeltas(choices)) == Reasonings(choices)
    ensures CallArguments(AllDeltas(choices), i) == Fragments(choices, i)
  {
    if choices != [] {
      ReadChoices(Front(choices), i);
      ReadChoice(Last(choices), i);
      ReadConcat(AllDeltas(Front(choices)), DeltasOf(Last(choices)), i);
    }
  }

  // ---------------------------------------------------------------- the outputs

  lemma ReadingTells(choices: seq<Choice>, spots: seq<Spot>, slot: Slot)
    requires ListsAll(choices, spots, AllDeltas(choices))
    requires slot.ToolSlot? ==> NamedAt(AllDeltas(choices), slot.index).Some?
    ensures Tells(choices, slot, Reading(AllDeltas(choices), slot))
  {
    var ds := AllDeltas(choices);
    ReadChoices(choices, if slot.ToolSlot? then slot.index else 0);
    if slot.ToolSlot? {
      CallReads(choices, spots, ds, slot.index);
    }
  }

  lemma SlotsOrdered(choices: seq<Choice>, spots: seq<Spot>, ds: seq<Delta>)
    requires ListsAll(choices, spots, ds)
    ensures Ordered(choices, SlotOrder(ds))
  {
    var slots := SlotOrder(ds);
    forall a, b | 0 <= a < b < |slots|
      ensures StartsSooner(choices, slots[a], slots[b])
    {
      SlotsByFirstAppearance(ds, a, b);
      FirstSpot(choices, spots, ds, slots[a]);
      FirstSpot(choices, spots, ds, slots[b]);
    }
  }

  lemma SlotsStart(choices: seq<Choice>, spots: seq<Spot>, ds: seq<Delta>, slot: Slot)
    requires ListsAll(choices, spots, ds)
    ensures slot in SlotOrder(ds) <==> exists s :: Starts(choices, s, slot)
  {
    SlotStarts(choices, spots, ds, slot);
    assert slot in SlotOrder(ds) <==> exists p :: 0 <= p < |ds| && Opens(ds[p], slot);
  }

  function WordSlots(slots: seq<Slot>): seq<Slot> {
    if slots == [] then []
    else WordSlots(Front(slots)) + (if Last(slots).ToolSlot? then [] else [Last(slots)])
  }

  lemma {:induction false} WordSlotsAre(choices: seq<Choice>, slots: seq<Slot>)
    ensures forall slot :: slot in WordSlots(slots) <==> slot in slots && !slot.ToolSlot?
    ensures Ordered(choices, slots) ==> Ordered(choices, WordSlots(slots))
  {
    if slots != [] {
      WordSlotsAre(choices, Front(slots));
      var kept, last := WordSlots(Front(slots)), Last(slots);
      assert slots == Front(slots) + [last];
      if Ordered(choices, slots) {
        OrderedFront(choices, slots);
        forall slot | slot in kept
          ensures StartsSooner(choices, slot, last)
        {
          var a :| 0 <= a < |slots| - 1 && slots[a] == slot;
          assert StartsSooner(choices, slots[a], slots[|slots| - 1]);
        }
        OrderedMore(choices, kept, last);
      }
    }
  }

  lemma OrderedFront(choices: seq<Choice>, slots: seq<Slot>)
    requires slots != [] && Ordered(choices, slots)
    ensures Ordered(choices, Front(slots))
  {
    forall a, b | 0 <= a < b < |slots| - 1
      ensures StartsSooner(choices, Front(slots)[a], Front(slots)[b])
    {
      assert StartsSooner(choices, slots[a], slots[b]);
    }
  }

  lemma OrderedMore(choices: seq<Choice>, slots: seq<Slot>, last: Slot)
    requires Ordered(choices, slots) && forall slot :: slot in slots ==> StartsSooner(choices, slot, last)
    ensures Ordered(choices, slots + [last])
  {
    var more := slots + [last];
    forall a, b | 0 <= a < b < |more|
      ensures StartsSooner(choices, more[a], more[b])
    {
      if b < |slots| {
        assert StartsSooner(choices, slots[a], slots[b]);
      } else {
        assert more[a] in slots;
      }
    }
  }

  ghost predicate Readable(ds: seq<Delta>, slot: Slot) {
    slot.ToolSlot? ==> NamedAt(ds, slot.index).Some?
  }

  ghost predicate ReadAs(ds: seq<Delta>, slot: Slot, o: Output) {
    Readable(ds, slot) && o == Reading(ds, slot)
  }

  /** Every slot of the list is read when all its calls are ended; without any ended call only the words are. */
  lemma {:induction false} ReadSlots(ds: seq<Delta>, slots: seq<Slot>, ended: set<int>)
    requires forall i :: ToolSlot(i) in slots ==> NamedAt(ds, i).Some? && i in ended
    ensures |ReadingsOf(ds, slots, ended)| == |slots|
    ensures forall k {:trigger ReadAs(ds, slots[k], ReadingsOf(ds, slots, ended)[k])} ::
              0 <= k < |slots| ==> ReadAs(ds, slots[k], ReadingsOf(ds, slots, ended)[k])
  {
    if slots != [] {
      var front, last := Front(slots), Last(slots);
      assert last in slots;
      assert forall slot :: slot in front ==> slot in slots;
      ReadSlots(ds, front, ended);
      var before := ReadingsOf(ds, front, ended);
      assert ReadingsOf(ds, slots, ended) == before + [Reading(ds, last)];
      forall k | 0 <= k < |slots|
        ensures ReadAs(ds, slots[k], (before + [Reading(ds, last)])[k])
      {
        assert k < |front| ==> ReadAs(ds, front[k], before[k]);
      }
    }
  }

  lemma ReadLast(ds: seq<Delta>, slots: seq<Slot>, last: Slot)
    requires forall i :: ToolSlot(i) in slots + [last] ==> NamedAt(ds, i).Some?
    ensures forall i :: ToolSlot(i) in slots ==> NamedAt(ds, i).Some?
    ensures ReadingsOf(ds, slots + [last], {}) ==
              if last.ToolSlot? then ReadingsOf(ds, slots, {}) else ReadingsOf(ds, slots, {}) + [Reading(ds, last)]
  {
    assert Front(slots + [last]) == slots && Last(slots + [last]) == last;
    assert forall slot :: slot in slots ==> slot in slots + [last];
  }

  lemma {:induction false} ReadWordSlots(ds: seq<Delta>, slots: seq<Slot>)
    requires forall i :: ToolSlot(i) in slots ==> NamedAt(ds, i).Some?
    requires forall i :: ToolSlot(i) !in WordSlots(slots)
    ensures ReadingsOf(ds, slots, {}) == ReadingsOf(ds, WordSlots(slots), {})
  {
    if slots != [] {
      var front, last := Front(slots), Last(slots);
      assert slots == front + [last];
      assert forall slot :: slot in WordSlots(front) ==> slot in WordSlots(slots);
      ReadLast(ds, front, last);
      ReadWordSlots(ds, front);
      if last.ToolSlot? {
        assert WordSlots(slots) == WordSlots(front);
      } else {
        ReadLast(ds, WordSlots(front), last);
      }
    }
  }

  lemma AllTell(choices: seq<Choice>, spots: seq<Spot>, slots: seq<Slot>, ended: set<int>, outputs: seq<Output>)
    requires ListsAll(choices, spots, AllDeltas(choices))
    requires forall i :: ToolSlot(i) in slots ==> NamedAt(AllDeltas(choices), i).Some? && i in ended
    requires outputs == ReadingsOf(AllDeltas(choices), slots, ended)
    ensures |outputs| == |slots|
    ensures forall k {:trigger Tells(choices, slots[k], outputs[k])} ::
              0 <= k < |slots| ==> Tells(choices, slots[k], outputs[k])
  {
    var ds := AllDeltas(choices);
    ReadSlots(ds, slots, ended);
    forall k | 0 <= k < |slots|
      ensures Tells(choices, slots[k], outputs[k])
    {
      assert ReadAs(ds, slots[k], outputs[k]);
      ReadingTells(choices, spots, slots[k]);
    }
  }

  /** A stream whose named calls were all ended comes back whole. */
  lemma AllSaid(choices: seq<Choice>) returns (slots: seq<Slot>)
    ensures var ds := AllDeltas(choices); Said(choices, slots, Readings(ds, NamedCalls(ds)), true)
  {
    var ds := AllDeltas(choices);
    var spots := SpotsOf(choices);
    slots := SlotOrder(ds);
    SlotNamed(ds);
    NamedCallsAre(ds);
    SlotsOrdered(choices, spots, ds);
    forall slot
      ensures slot in slots <==> exists s :: Starts(choices, s, slot)
    {
      SlotsStart(choices, spots, ds, slot);
    }
    AllTell(choices, spots, slots, NamedCalls(ds), Readings(ds, NamedCalls(ds)));
  }

  /** One that was interrupted comes back without its calls. */
  lemma WordsSaid(choices: seq<Choice>) returns (slots: seq<Slot>)
    ensures Said(choices, slots, Readings(AllDeltas(choices), {}), false)
  {
    var ds := AllDeltas(choices);
    var spots := SpotsOf(choices);
    SlotNamed(ds);
    SlotsOrdered(choices, spots, ds);
    WordSlotsAre(choices, SlotOrder(ds));
    slots := WordSlots(SlotOrder(ds));
    forall slot
      ensures slot in slots <==> !slot.ToolSlot? && exists s :: Starts(choices, s, slot)
    {
      SlotsStart(choices, spots, ds, slot);
    }
    ReadWordSlots(ds, SlotOrder(ds));
    AllTell(choices, spots, slots, {}, Readings(ds, {}));
  }

  /** The reason is the one given last; without any it is "stop". */
  lemma {:induction false} ReasonExact(choices: seq<Choice>)
    ensures (forall c :: c in choices ==> c.finishReason == None) ==> FinishReason(choices) == "stop"
    ensures forall k, reason {:trigger Gives(choices[k], reason)} ::
              0 <= k < |choices| && Gives(choices[k], reason) && NoneGiven(choices[k + 1..]) ==>
                FinishReason(choices) == reason
  {
    if choices != [] {
      ReasonExact(Front(choices));
      assert forall c :: c in Front(choices) ==> c in choices;
      forall k: nat, reason | k < |choices| && Gives(choices[k], reason) && NoneGiven(choices[k + 1..])
        ensures FinishReason(choices) == reason
      {
        if k < |choices| - 1 {
          GivenBefore(choices, k);
          assert Gives(Front(choices)[k], reason);
        }
      }
    }
  }

  predicate Gives(c: Choice, reason: string) { c.finishReason == Some(reason) }

  predicate NoneGiven(choices: seq<Choice>) { forall c :: c in choices ==> c.finishReason == None }

  lemma GivenBefore(choices: seq<Choice>, k: nat)
    requires k < |choices| - 1 && NoneGiven(choices[k + 1..])
    ensures NoneGiven(Front(choices)[k + 1..]) && Last(choices).finishReason == None
  {
    assert choices[k + 1..] == Front(choices)[k + 1..] + [Last(choices)];
  }
}
