/**
 Merging the events emitted for a completion stream gives back what the deltas say.  The reference
 reads the list of deltas only: it knows nothing of buffering, events or merge state.
 */
module StreamTheorems {
  import opened Basics
  import opened StreamModel

  // ---------------------------------------------------------------- reference reading of the deltas

  predicate Names(d: Delta, i: int) { d.Tool? && d.index == i && d.name != "" }

  predicate Identifies(d: Delta, i: int) { d.Tool? && d.index == i && d.id != "" }

  /** Where tool call `i` is first named. */
  function NamedAt(ds: seq<Delta>, i: int): (at: Option<nat>)
    ensures at.Some? ==> at.value < |ds| && Names(ds[at.value], i) && forall q :: 0 <= q < at.value ==> !Names(ds[q], i)
    ensures at.None? ==> forall q :: 0 <= q < |ds| ==> !Names(ds[q], i)
  {
    if ds == [] then None
    else match NamedAt(Front(ds), i)
      case Some(p) => Some(p)
      case None => if Names(Last(ds), i) then Some(|ds| - 1) else None
  }

  /** Where tool call `i` is first given an id. */
  function IdAt(ds: seq<Delta>, i: int): (at: Option<nat>)
    ensures at.Some? ==> at.value < |ds| && Identifies(ds[at.value], i)
                         && forall q :: 0 <= q < at.value ==> !Identifies(ds[q], i)
    ensures at.None? ==> forall q :: 0 <= q < |ds| ==> !Identifies(ds[q], i)
  {
    if ds == [] then None
    else match IdAt(Front(ds), i)
      case Some(p) => Some(p)
      case None => if Identifies(Last(ds), i) then Some(|ds| - 1) else None
  }

  /** The first id seen no later than the name; the group's name when there is none. */
  function CallId(ds: seq<Delta>, i: int): string
    requires NamedAt(ds, i).Some?
  {
    var at := IdAt(ds, i);
    if at.Some? && at.value <= NamedAt(ds, i).value then ds[at.value].id else GroupOf(i)
  }

  function CallName(ds: seq<Delta>, i: int): string
    requires NamedAt(ds, i).Some?
  {
    ds[NamedAt(ds, i).value].name
  }

  /** Every argument fragment of tool call `i`, in arrival order, whether before or after its name. */
  function CallArguments(ds: seq<Delta>, i: int): string {
    if ds == [] then ""
    else CallArguments(Front(ds), i) + (if Last(ds).Tool? && Last(ds).index == i then Last(ds).arguments else "")
  }

  function TextOf(ds: seq<Delta>): string {
    if ds == [] then "" else TextOf(Front(ds)) + (if Last(ds).Text? then Last(ds).text else "")
  }

  function ReasoningOf(ds: seq<Delta>): string {
    if ds == [] then "" else ReasoningOf(Front(ds)) + (if Last(ds).Reasoning? then Last(ds).text else "")
  }

  /** What can appear in the result: the text, the reasoning, and each named tool call. */
  datatype Slot = TextSlot | ReasoningSlot | ToolSlot(index: int)

  predicate Opens(d: Delta, slot: Slot) {
    match slot
    case TextSlot => d.Text?
    case ReasoningSlot => d.Reasoning?
    case ToolSlot(i) => Names(d, i)
  }

  function SlotOf(d: Delta): Option<Slot> {
    match d
    case Text(_) => Some(TextSlot)
    case Reasoning(_) => Some(ReasoningSlot)
    case Tool(i, _, name, _) => if name == "" then None else Some(ToolSlot(i))
  }

  /** The slots in the order in which they first open. */
  function SlotOrder(ds: seq<Delta>): (order: seq<Slot>)
    ensures forall slot :: slot in order <==> exists p :: 0 <= p < |ds| && Opens(ds[p], slot)
  {
    if ds == [] then []
    else
      var before := SlotOrder(Front(ds));
      assert forall p :: 0 <= p < |ds| - 1 ==> ds[p] == Front(ds)[p];
      match SlotOf(Last(ds))
      case None => before
      case Some(slot) => if slot in before then before else before + [slot]
  }

  function Reading(ds: seq<Delta>, slot: Slot): Output
    requires slot.ToolSlot? ==> NamedAt(ds, slot.index).Some?
  {
    match slot
    case TextSlot => GenText(TextOf(ds))
    case ReasoningSlot => GenReasoning(ReasoningOf(ds))
    case ToolSlot(i) => GenToolCall(CallId(ds, i), CallName(ds, i), CallArguments(ds, i))
  }

  /** The slots of `order` read off the deltas, without the tool calls that are not `ended`. */
  function ReadingsOf(ds: seq<Delta>, order: seq<Slot>, ended: set<int>): seq<Output>
    requires forall i :: ToolSlot(i) in order ==> NamedAt(ds, i).Some?
  {
    if order == [] then []
    else
      ReadingsOf(ds, Front(order), ended)
      + (if Last(order).ToolSlot? && Last(order).index !in ended then [] else [Reading(ds, Last(order))])
  }

  function Readings(ds: seq<Delta>, ended: set<int>): seq<Output> {
    SlotNamed(ds);
    ReadingsOf(ds, SlotOrder(ds), ended)
  }

  lemma SlotNamed(ds: seq<Delta>)
    ensures forall i :: ToolSlot(i) in SlotOrder(ds) <==> NamedAt(ds, i).Some?
  {
  }

  /** Each slot is listed once and slots are listed by where they first open. */
  function OpensAt(ds: seq<Delta>, slot: Slot): (at: Option<nat>)
    ensures at.Some? ==> at.value < |ds| && Opens(ds[at.value], slot)
                         && forall q :: 0 <= q < at.value ==> !Opens(ds[q], slot)
    ensures at.None? ==> forall q :: 0 <= q < |ds| ==> !Opens(ds[q], slot)
  {
    if ds == [] then None
    else match OpensAt(Front(ds), slot)
      case Some(p) => Some(p)
      case None => if Opens(Last(ds), slot) then Some(|ds| - 1) else None
  }

  lemma OpensFirst(ds: seq<Delta>, d: Delta, slot: Slot)
    requires OpensAt(ds, slot).Some?
    ensures OpensAt(ds + [d], slot) == OpensAt(ds, slot)
  {
  }

  lemma {:induction false} SlotsByFirstAppearance(ds: seq<Delta>, a: nat, b: nat)
    requires a < b < |SlotOrder(ds)|
    ensures OpensAt(ds, SlotOrder(ds)[a]).Some? && OpensAt(ds, SlotOrder(ds)[b]).Some?
    ensures OpensAt(ds, SlotOrder(ds)[a]).value < OpensAt(ds, SlotOrder(ds)[b]).value
  {
    var front, d := Front(ds), Last(ds);
    assert ds == front + [d];
    var before := SlotOrder(front);
    var x, y := SlotOrder(ds)[a], SlotOrder(ds)[b];
    assert x in SlotOrder(ds) && y in SlotOrder(ds) && x in before;
    if b < |before| {
      SlotsByFirstAppearance(front, a, b);
      OpensFirst(front, d, y);
    } else {
      assert y !in before;
    }
    OpensFirst(front, d, x);
  }

  // ---------------------------------------------------------------- one more delta, read

  lemma ReadAnother(ds: seq<Delta>, d: Delta, i: int)
    ensures NamedAt(ds + [d], i) ==
              (if NamedAt(ds, i).Some? then NamedAt(ds, i) else if Names(d, i) then Some(|ds|) else None)
    ensures IdAt(ds + [d], i) ==
              (if IdAt(ds, i).Some? then IdAt(ds, i) else if Identifies(d, i) then Some(|ds|) else None)
    ensures CallArguments(ds + [d], i) == CallArguments(ds, i) + (if d.Tool? && d.index == i then d.arguments else "")
  {
  }

  lemma CallFixed(ds: seq<Delta>, d: Delta, i: int)
    requires NamedAt(ds, i).Some?
    ensures NamedAt(ds + [d], i).Some? && CallName(ds + [d], i) == CallName(ds, i)
              && CallId(ds + [d], i) == CallId(ds, i)
  {
  }

  // ---------------------------------------------------------------- merging in pieces

  lemma {:induction false} MergeConcat(m: Merged, a: seq<Event>, b: seq<Event>)
    ensures MergeAll(m, a + b) == MergeAll(MergeAll(m, a), b)
  {
    if b == [] {
      assert a + b == a;
    } else {
      assert Front(a + b) == a + Front(b) && Last(a + b) == Last(b);
      MergeConcat(m, a, Front(b));
    }
  }

  /** `after` is `before` but for the arguments of one call, which grew by `text`. */
  ghost predicate ArgumentsGrew(before: Merged, after: Merged, group: string, text: string) {
    && group in before.calls
    && after.order == before.order && after.text == before.text && after.reasoning == before.reasoning
    && after.stop == before.stop
    && after.calls.Keys == before.calls.Keys
    && (forall g :: g in before.calls && g != group ==> after.calls[g] == before.calls[g])
    && after.calls[group] == before.calls[group].(arguments := after.calls[group].arguments)
    && GetOr(after.calls[group].arguments, "") == GetOr(before.calls[group].arguments, "") + text
  }

  lemma MergeFragment(m: Merged, group: string, text: string)
    requires group in m.calls && Key(ToolKind, group) in m.order
    ensures ArgumentsGrew(m, MergeEvent(m, Event(group, ToolArgumentsDelta(text))), group, text)
  {
  }

  lemma {:induction false} MergeFragments(m: Merged, group: string, fragments: seq<string>)
    requires group in m.calls && Key(ToolKind, group) in m.order
    ensures ArgumentsGrew(m, MergeAll(m, ArgumentEvents(group, fragments)), group, Concat(fragments))
  {
    if fragments == [] {
      assert GetOr(m.calls[group].arguments, "") + "" == GetOr(m.calls[group].arguments, "");
    } else {
      var events := ArgumentEvents(group, fragments);
      assert Front(events) == ArgumentEvents(group, Front(fragments));
      MergeFragments(m, group, Front(fragments));
      var almost := MergeAll(m, Front(events));
      MergeFragment(almost, group, Last(fragments));
      assert GetOr(m.calls[group].arguments, "") + Concat(Front(fragments)) + Last(fragments)
          == GetOr(m.calls[group].arguments, "") + Concat(fragments);
    }
  }

  // ---------------------------------------------------------------- what the two machines know

  /** Buffer and merge state of tool call `i` after the deltas `ds`. */
  ghost predicate ToolAgrees(ds: seq<Delta>, s: ToolState, m: Merged, i: int) {
    if NamedAt(ds, i).None? then
      && i !in s.named && GroupOf(i) !in m.calls
      && Concat(PendingOf(s, i)) == CallArguments(ds, i)
      && (i in s.ids <==> IdAt(ds, i).Some?)
      && (i in s.ids ==> s.ids[i] == ds[IdAt(ds, i).value].id)
    else
      && i in s.named && i !in s.pending && GroupOf(i) in m.calls
      && CallAgrees(ds, m.calls[GroupOf(i)], i)
  }

  ghost predicate CallAgrees(ds: seq<Delta>, call: Call, i: int)
    requires NamedAt(ds, i).Some?
  {
    && call.name == Some(CallName(ds, i))
    && call.id == Some(CallId(ds, i))
    && GetOr(call.arguments, "") == CallArguments(ds, i)
  }

  function KeyOf(slot: Slot): Key {
    match slot
    case TextSlot => Key(TextKind, TEXT_GROUP)
    case ReasoningSlot => Key(ReasoningKind, REASONING_GROUP)
    case ToolSlot(i) => Key(ToolKind, GroupOf(i))
  }

  function KeysOf(slots: seq<Slot>): (keys: seq<Key>)
    ensures |keys| == |slots|
  {
    seq(|slots|, k requires 0 <= k < |slots| => KeyOf(slots[k]))
  }

  lemma KeyInjective(a: Slot, b: Slot)
    requires KeyOf(a) == KeyOf(b)
    ensures a == b
  {
    if a.ToolSlot? && b.ToolSlot? {
      GroupInjective(a.index, b.index);
    }
  }

  lemma KeyListed(slots: seq<Slot>, slot: Slot)
    ensures KeyOf(slot) in KeysOf(slots) <==> slot in slots
  {
    var keys := KeysOf(slots);
    if slot in slots {
      var k :| 0 <= k < |slots| && slots[k] == slot;
      assert keys[k] == KeyOf(slot);
    }
    if KeyOf(slot) in keys {
      var k :| 0 <= k < |keys| && keys[k] == KeyOf(slot);
      KeyInjective(slots[k], slot);
    }
  }

  /** Marking the key of a slot lists the slot. */
  lemma MarkSlot(slots: seq<Slot>, slot: Slot)
    ensures Mark(KeysOf(slots), KeyOf(slot)) == KeysOf(if slot in slots then slots else slots + [slot])
  {
    KeyListed(slots, slot);
    if slot !in slots {
      assert KeysOf(slots + [slot]) == KeysOf(slots) + [KeyOf(slot)];
    }
  }

  /** The rest of what is known: the order, and the text and reasoning so far. */
  ghost predicate OrderAgrees(ds: seq<Delta>, m: Merged) {
    && m.order == KeysOf(SlotOrder(ds))
    && JoinedOf(m.text, TEXT_GROUP) == TextOf(ds)
    && JoinedOf(m.reasoning, REASONING_GROUP) == ReasoningOf(ds)
  }

  ghost predicate Agrees(ds: seq<Delta>, s: ToolState, m: Merged) {
    && OrderAgrees(ds, m)
    && forall i {:trigger ToolAgrees(ds, s, m, i)} :: ToolAgrees(ds, s, m, i)
  }

  // ---------------------------------------------------------------- one delta at a time

  /** Only what the gateway remembers of tool call `i` differs. */
  ghost predicate StateElsewhere(s: ToolState, s': ToolState, i: int) {
    && (forall j :: j != i ==> (j in s'.named <==> j in s.named) && (j in s'.ids <==> j in s.ids)
                               && (j in s'.pending <==> j in s.pending))
    && (forall j :: j != i && j in s.ids ==> s'.ids[j] == s.ids[j])
    && (forall j :: j != i && j in s.pending ==> s'.pending[j] == s.pending[j])
  }

  /** Only the merged call of group `group` differs. */
  ghost predicate MergeElsewhere(m: Merged, m': Merged, group: string) {
    && m'.text == m.text && m'.reasoning == m.reasoning
    && (forall g :: g != group ==> (g in m'.calls <==> g in m.calls))
    && (forall g :: g != group && g in m.calls ==> m'.calls[g] == m.calls[g])
  }

  lemma EmitElsewhere(s: ToolState, d: Delta)
    requires d.Tool?
    ensures StateElsewhere(s, EmitDelta(s, d).state, d.index)
  {
  }

  lemma OtherToolAgrees(ds: seq<Delta>, d: Delta, s: ToolState, s': ToolState, m: Merged, m': Merged, i: int, j: int)
    requires ToolAgrees(ds, s, m, j) && i != j
    requires StateElsewhere(s, s', i) && MergeElsewhere(m, m', GroupOf(i))
    requires d.Tool? && d.index == i
    ensures ToolAgrees(ds + [d], s', m', j)
  {
    ReadAnother(ds, d, j);
    if GroupOf(i) == GroupOf(j) {
      GroupInjective(i, j);
    }
    if NamedAt(ds, j).Some? {
      CallFixed(ds, d, j);
    }
  }

  lemma OrderGrows(ds: seq<Delta>, d: Delta)
    ensures SlotOrder(ds + [d]) ==
            (match SlotOf(d)
             case None => SlotOrder(ds)
             case Some(slot) => if slot in SlotOrder(ds) then SlotOrder(ds) else SlotOrder(ds) + [slot])
    ensures TextOf(ds + [d]) == TextOf(ds) + (if d.Text? then d.text else "")
    ensures ReasoningOf(ds + [d]) == ReasoningOf(ds) + (if d.Reasoning? then d.text else "")
  {
  }

  lemma OrderKept(ds: seq<Delta>, d: Delta, m: Merged, m': Merged)
    requires OrderAgrees(ds, m)
    requires d.Tool? && m'.text == m.text && m'.reasoning == m.reasoning
    requires m'.order == if d.name == "" then m.order else Mark(m.order, KeyOf(ToolSlot(d.index)))
    ensures OrderAgrees(ds + [d], m')
  {
    OrderGrows(ds, d);
    assert TextOf(ds) + "" == TextOf(ds) && ReasoningOf(ds) + "" == ReasoningOf(ds);
    MarkSlot(SlotOrder(ds), ToolSlot(d.index));
  }

  lemma NamedIsListed(ds: seq<Delta>, m: Merged, i: int)
    requires OrderAgrees(ds, m) && NamedAt(ds, i).Some?
    ensures Key(ToolKind, GroupOf(i)) in m.order
  {
    SlotNamed(ds);
    KeyListed(SlotOrder(ds), ToolSlot(i));
  }

  lemma EmitNamed(s: ToolState, d: Delta)
    requires d.Tool? && d.index in s.named && d.index !in s.pending
    ensures var e := EmitDelta(s, d);
            && d.index in e.state.named && d.index !in e.state.pending
            && e.events == if d.arguments == "" then [] else [Event(GroupOf(d.index), ToolArgumentsDelta(d.arguments))]
  {
  }

  /** The merge after the arguments of a tool call that has its name. */
  lemma MergeNamed(ds: seq<Delta>, d: Delta, s: ToolState, m: Merged)
    requires d.Tool? && OrderAgrees(ds, m) && ToolAgrees(ds, s, m, d.index) && NamedAt(ds, d.index).Some?
    ensures ArgumentsGrew(m, MergeAll(m, EmitDelta(s, d).events), GroupOf(d.index), d.arguments)
  {
    var i, group := d.index, GroupOf(d.index);
    NamedIsListed(ds, m, i);
    EmitNamed(s, d);
    var events := EmitDelta(s, d).events;
    var fragments := if d.arguments == "" then [] else [d.arguments];
    assert events == ArgumentEvents(group, fragments);
    MergeFragments(m, group, fragments);
    assert Concat(fragments) == d.arguments;
  }

  /** Arguments of a tool call that has its name. */
  lemma StepNamed(ds: seq<Delta>, d: Delta, s: ToolState, m: Merged)
    requires d.Tool? && OrderAgrees(ds, m) && ToolAgrees(ds, s, m, d.index) && NamedAt(ds, d.index).Some?
    ensures ToolAgrees(ds + [d], EmitDelta(s, d).state, MergeAll(m, EmitDelta(s, d).events), d.index)
  {
    EmitNamed(s, d);
    MergeNamed(ds, d, s, m);
    ReadAnother(ds, d, d.index);
    CallFixed(ds, d, d.index);
  }

  /** A fragment of a tool call that has no name yet is held back. */
  lemma StepHeld(ds: seq<Delta>, d: Delta, s: ToolState, m: Merged)
    requires d.Tool? && ToolAgrees(ds, s, m, d.index) && NamedAt(ds, d.index).None? && d.name == ""
    ensures EmitDelta(s, d).events == [] && ToolAgrees(ds + [d], EmitDelta(s, d).state, m, d.index)
  {
    var i := d.index;
    var held := PendingOf(s, i);
    ReadAnother(ds, d, i);
    assert Front(held + [d.arguments]) == held;
    assert CallArguments(ds, i) + "" == CallArguments(ds, i);
  }

  /** The state and events when a tool call gets its name. */
  lemma NamingEvents(s: ToolState, d: Delta, id: string)
    requires d.Tool? && d.name != "" && d.index !in s.named
    requires id == if d.index in s.ids then s.ids[d.index] else if d.id != "" then d.id else GroupOf(d.index)
    ensures var i, e := d.index, EmitDelta(s, d);
            && i in e.state.named && i !in e.state.pending
            && e.events == [Event(GroupOf(i), ToolName(d.name, id))] + ArgumentEvents(GroupOf(i), PendingOf(s, i))
                           + ArgumentEvents(GroupOf(i), if d.arguments == "" then [] else [d.arguments])
  {
  }

  lemma NamingId(ds: seq<Delta>, d: Delta, s: ToolState, m: Merged)
    requires d.Tool? && ToolAgrees(ds, s, m, d.index) && NamedAt(ds, d.index).None? && d.name != ""
    ensures NamedAt(ds + [d], d.index).Some? && CallName(ds + [d], d.index) == d.name
    ensures CallId(ds + [d], d.index)
         == if d.index in s.ids then s.ids[d.index] else if d.id != "" then d.id else GroupOf(d.index)
    ensures CallId(ds + [d], d.index) != ""
  {
    ReadAnother(ds, d, d.index);
  }

  lemma MergeNaming(ds: seq<Delta>, m: Merged, i: int, name: string, id: string)
    requires OrderAgrees(ds, m) && GroupOf(i) !in m.calls && id != ""
    ensures var m1 := MergeEvent(m, Event(GroupOf(i), ToolName(name, id)));
            && m1 == m.(order := Mark(m.order, KeyOf(ToolSlot(i))),
                        calls := m.calls[GroupOf(i) := Call(Some(name), Some(id), None, false)])
            && Key(ToolKind, GroupOf(i)) in m1.order
  {
  }

  lemma GrewTwice(a: Merged, b: Merged, c: Merged, group: string, x: string, y: string)
    requires ArgumentsGrew(a, b, group, x) && ArgumentsGrew(b, c, group, y)
    ensures ArgumentsGrew(a, c, group, x + y)
  {
  }

  /** A name, then fragments, then more fragments, merged. */
  lemma MergeNamingEvents(m: Merged, m1: Merged, naming: Event, group: string, held: seq<string>, rest: seq<string>)
    requires m1 == MergeEvent(m, naming) && group in m1.calls && Key(ToolKind, group) in m1.order
    ensures ArgumentsGrew(m1, MergeAll(m, [naming] + ArgumentEvents(group, held) + ArgumentEvents(group, rest)), group,
                          Concat(held) + Concat(rest))
  {
    var events := [naming] + ArgumentEvents(group, held) + ArgumentEvents(group, rest);
    assert MergeAll(m, [naming]) == m1 by { assert Front([naming]) == []; }
    MergeConcat(m, [naming] + ArgumentEvents(group, held), ArgumentEvents(group, rest));
    MergeConcat(m, [naming], ArgumentEvents(group, held));
    var m2 := MergeAll(m1, ArgumentEvents(group, held));
    MergeFragments(m1, group, held);
    MergeFragments(m2, group, rest);
    GrewTwice(m1, m2, MergeAll(m2, ArgumentEvents(group, rest)), group, Concat(held), Concat(rest));
  }

  /** Its name, the arguments held back and its own, merged. */
  lemma StepNaming(ds: seq<Delta>, d: Delta, s: ToolState, m: Merged)
    requires d.Tool? && OrderAgrees(ds, m) && ToolAgrees(ds, s, m, d.index) && NamedAt(ds, d.index).None?
    requires d.name != ""
    ensures var e := EmitDelta(s, d); var m' := MergeAll(m, e.events);
            && d.index in e.state.named && d.index !in e.state.pending
            && NamedAt(ds + [d], d.index).Some?
            && ArgumentsGrew(m.(order := Mark(m.order, KeyOf(ToolSlot(d.index))),
                                calls := m.calls[GroupOf(d.index) :=
                                                  Call(Some(d.name), Some(CallId(ds + [d], d.index)), None, false)]),
                             m', GroupOf(d.index), CallArguments(ds + [d], d.index))
  {
    var i, group := d.index, GroupOf(d.index);
    NamingId(ds, d, s, m);
    var id := CallId(ds + [d], i);
    NamingEvents(s, d, id);
    MergeNaming(ds, m, i, d.name, id);
    var rest := if d.arguments == "" then [] else [d.arguments];
    var naming := Event(group, ToolName(d.name, id));
    MergeNamingEvents(m, MergeEvent(m, naming), naming, group, PendingOf(s, i), rest);
    assert Concat(rest) == d.arguments;
    ReadAnother(ds, d, i);
  }

  lemma NamingAgrees(ds: seq<Delta>, d: Delta, s: ToolState, m: Merged)
    requires d.Tool? && OrderAgrees(ds, m) && ToolAgrees(ds, s, m, d.index) && NamedAt(ds, d.index).None?
    requires d.name != ""
    ensures ToolAgrees(ds + [d], EmitDelta(s, d).state, MergeAll(m, EmitDelta(s, d).events), d.index)
  {
    StepNaming(ds, d, s, m);
    NamingId(ds, d, s, m);
    assert "" + CallArguments(ds + [d], d.index) == CallArguments(ds + [d], d.index);
  }

  /** What one tool delta does to the merge, besides its own call. */
  lemma MergeStep(ds: seq<Delta>, d: Delta, s: ToolState, m: Merged)
    requires d.Tool? && OrderAgrees(ds, m) && ToolAgrees(ds, s, m, d.index)
    ensures var m' := MergeAll(m, EmitDelta(s, d).events);
            && MergeElsewhere(m, m', GroupOf(d.index))
            && m'.order == if d.name == "" then m.order else Mark(m.order, KeyOf(ToolSlot(d.index)))
  {
    if NamedAt(ds, d.index).Some? {
      MergeNamedStep(ds, d, s, m);
    } else if d.name == "" {
      StepHeld(ds, d, s, m);
    } else {
      MergeNamingStep(ds, d, s, m);
    }
  }

  lemma MergeNamedStep(ds: seq<Delta>, d: Delta, s: ToolState, m: Merged)
    requires d.Tool? && OrderAgrees(ds, m) && ToolAgrees(ds, s, m, d.index) && NamedAt(ds, d.index).Some?
    ensures var m' := MergeAll(m, EmitDelta(s, d).events);
            && MergeElsewhere(m, m', GroupOf(d.index))
            && m'.order == if d.name == "" then m.order else Mark(m.order, KeyOf(ToolSlot(d.index)))
  {
    var m' := MergeAll(m, EmitDelta(s, d).events);
    MergeNamed(ds, d, s, m);
    GrewElsewhere(m, m, m', GroupOf(d.index), d.arguments);
    NamedIsListed(ds, m, d.index);
  }

  lemma MergeNamingStep(ds: seq<Delta>, d: Delta, s: ToolState, m: Merged)
    requires d.Tool? && OrderAgrees(ds, m) && ToolAgrees(ds, s, m, d.index)
    requires NamedAt(ds, d.index).None? && d.name != ""
    ensures var m' := MergeAll(m, EmitDelta(s, d).events);
            MergeElsewhere(m, m', GroupOf(d.index)) && m'.order == Mark(m.order, KeyOf(ToolSlot(d.index)))
  {
    var group, m' := GroupOf(d.index), MergeAll(m, EmitDelta(s, d).events);
    StepNaming(ds, d, s, m);
    var named := Call(Some(d.name), Some(CallId(ds + [d], d.index)), None, false);
    var m1 := m.(order := Mark(m.order, KeyOf(ToolSlot(d.index))), calls := m.calls[group := named]);
    GrewElsewhere(m, m1, m', group, CallArguments(ds + [d], d.index));
  }

  lemma GrewElsewhere(m: Merged, m1: Merged, m': Merged, group: string, text: string)
    requires MergeElsewhere(m, m1, group) && ArgumentsGrew(m1, m', group, text)
    ensures MergeElsewhere(m, m', group)
  {
  }

  lemma StepTool(ds: seq<Delta>, d: Delta, s: ToolState, m: Merged)
    requires Agrees(ds, s, m) && d.Tool?
    ensures var e := EmitDelta(s, d); Agrees(ds + [d], e.state, MergeAll(m, e.events))
  {
    var e := EmitDelta(s, d);
    var m' := MergeAll(m, e.events);
    assert ToolAgrees(ds, s, m, d.index);
    MergeStep(ds, d, s, m);
    EmitElsewhere(s, d);
    OrderKept(ds, d, m, m');
    forall j
      ensures ToolAgrees(ds + [d], e.state, m', j)
    {
      assert ToolAgrees(ds, s, m, j);
      if j != d.index {
        OtherToolAgrees(ds, d, s, e.state, m, m', d.index, j);
      } else if NamedAt(ds, j).Some? {
        StepNamed(ds, d, s, m);
      } else if d.name == "" {
        StepHeld(ds, d, s, m);
      } else {
        NamingAgrees(ds, d, s, m);
      }
    }
  }

  lemma JoinMore(texts: map<string, seq<string>>, group: string, text: string)
    ensures JoinedOf(AppendTo(texts, group, text), group) == JoinedOf(texts, group) + text
  {
    var before := if group in texts then texts[group] else [];
    var now := before + [text];
    assert Front(now) == before;
    assert Concat(now) == Concat(before) + text;
  }

  lemma WordsKeepOrder(ds: seq<Delta>, d: Delta, m: Merged)
    requires OrderAgrees(ds, m) && !d.Tool?
    ensures OrderAgrees(ds + [d], MergeEvent(m, EmitDelta(NO_TOOLS, d).events[0]))
  {
    OrderGrows(ds, d);
    assert TextOf(ds) + "" == TextOf(ds) && ReasoningOf(ds) + "" == ReasoningOf(ds);
    if d.Text? {
      JoinMore(m.text, TEXT_GROUP, d.text);
      MarkSlot(SlotOrder(ds), TextSlot);
    } else {
      JoinMore(m.reasoning, REASONING_GROUP, d.text);
      MarkSlot(SlotOrder(ds), ReasoningSlot);
    }
  }

  lemma WordsKeepTool(ds: seq<Delta>, d: Delta, s: ToolState, m: Merged, m': Merged, j: int)
    requires ToolAgrees(ds, s, m, j) && !d.Tool? && m'.calls == m.calls
    ensures ToolAgrees(ds + [d], s, m', j)
  {
  }

  lemma StepWords(ds: seq<Delta>, d: Delta, s: ToolState, m: Merged)
    requires Agrees(ds, s, m) && !d.Tool?
    ensures var e := EmitDelta(s, d); Agrees(ds + [d], e.state, MergeAll(m, e.events))
  {
    var e := EmitDelta(s, d);
    assert Front(e.events) == [] && e.events == EmitDelta(NO_TOOLS, d).events;
    var m' := MergeEvent(m, e.events[0]);
    assert MergeAll(m, e.events) == m';
    WordsKeepOrder(ds, d, m);
    forall j
      ensures ToolAgrees(ds + [d], e.state, m', j)
    {
      assert ToolAgrees(ds, s, m, j);
      WordsKeepTool(ds, d, s, m, m', j);
    }
  }

  /** After any deltas the buffers and the merge of what was emitted agree with the reading. */
  lemma {:induction false} EmittedAgrees(ds: seq<Delta>)
    ensures Agrees(ds, EmitAll(ds).state, MergeAll(NOTHING, EmitAll(ds).events))
  {
    if ds == [] {
      assert KeysOf([]) == [];
    } else {
      var front, d := Front(ds), Last(ds);
      var before := EmitAll(front);
      EmittedAgrees(front);
      var now := EmitDelta(before.state, d);
      MergeConcat(NOTHING, before.events, now.events);
      assert ds == front + [d];
      if d.Tool? {
        StepTool(front, d, before.state, MergeAll(NOTHING, before.events));
      } else {
        StepWords(front, d, before.state, MergeAll(NOTHING, before.events));
      }
    }
  }

  // ---------------------------------------------------------------- the whole stream

  /** The indexes that ever got a name. */
  function NamedCalls(ds: seq<Delta>): set<int> {
    set slot | slot in SlotOrder(ds) && slot.ToolSlot? :: slot.index
  }

  /** The events that close a stream. */
  function Closing(ended: seq<int>, reason: string): seq<Event> {
    EndEvents(ended) + [Event("", StreamStop(reason))]
  }

  /** The same merge but for which calls are done. */
  ghost predicate Ended(before: Merged, after: Merged, ended: set<int>) {
    && after.order == before.order && after.text == before.text && after.reasoning == before.reasoning
    && (forall i {:trigger i in ended} :: i in ended ==> GroupOf(i) in after.calls && after.calls[GroupOf(i)].done)
    && (forall g :: g in before.calls ==>
          g in after.calls && after.calls[g] == before.calls[g].(done := after.calls[g].done))
    && (forall g :: g in after.calls && after.calls[g].done ==> exists i :: i in ended && GroupOf(i) == g)
  }

  ghost predicate NoneDone(m: Merged) {
    forall g :: g in m.calls ==> !m.calls[g].done
  }

  lemma {:induction false} MergeEnds(m: Merged, ended: seq<int>)
    requires NoneDone(m)
    ensures Ended(m, MergeAll(m, EndEvents(ended)), Elements(ended))
  {
    if ended != [] {
      var events := EndEvents(ended);
      assert Front(events) == EndEvents(Front(ended));
      MergeEnds(m, Front(ended));
      assert forall i :: i in ended <==> i in Front(ended) || i == Last(ended);
      EndOne(m, MergeAll(m, Front(events)), Elements(Front(ended)), Last(ended));
      assert Elements(ended) == Elements(Front(ended)) + {Last(ended)};
    }
  }

  lemma EndOne(m: Merged, almost: Merged, ended: set<int>, i: int)
    requires Ended(m, almost, ended)
    ensures Ended(m, MergeEvent(almost, Event(GroupOf(i), ToolArgumentsEnd)), ended + {i})
  {
  }

  // ---------------------------------------------------------------- the result

  lemma StreamMerge(ds: seq<Delta>, ended: seq<int>, reason: string)
    requires NoneDone(MergeAll(NOTHING, EmitAll(ds).events))
    ensures var m' := MergeAll(NOTHING, EmitAll(ds).events + Closing(ended, reason));
            m'.stop == reason && Ended(MergeAll(NOTHING, EmitAll(ds).events), m', Elements(ended))
  {
    var m := MergeAll(NOTHING, EmitAll(ds).events);
    MergeConcat(NOTHING, EmitAll(ds).events, Closing(ended, reason));
    MergeEnds(m, ended);
    MergeStop(m, ended, reason);
  }

  lemma MergeStop(m: Merged, ended: seq<int>, reason: string)
    ensures MergeAll(m, Closing(ended, reason)) == MergeAll(m, EndEvents(ended)).(stop := reason)
  {
  }

  /** The output of one slot, once the calls in `ended` are done. */
  lemma SlotOutput(ds: seq<Delta>, s: ToolState, m: Merged, m': Merged, ended: set<int>, slot: Slot)
    requires Agrees(ds, s, m) && Ended(m, m', ended) && NoneDone(m)
    requires slot.ToolSlot? ==> NamedAt(ds, slot.index).Some?
    ensures OutputsOf(m', KeyOf(slot), true)
         == if slot.ToolSlot? && slot.index !in ended then [] else [Reading(ds, slot)]
    ensures OutputsOf(m', KeyOf(slot), false) == [Reading(ds, slot)]
  {
    if slot.ToolSlot? {
      var i := slot.index;
      assert ToolAgrees(ds, s, m, i);
      if m'.calls[GroupOf(i)].done {
        var j :| j in ended && GroupOf(j) == GroupOf(i);
        GroupInjective(i, j);
      }
    }
  }

  lemma {:induction false} SlotOutputs(ds: seq<Delta>, s: ToolState, m: Merged, m': Merged, ended: set<int>,
        slots: seq<Slot>)
    requires Agrees(ds, s, m) && Ended(m, m', ended) && NoneDone(m)
    requires forall i :: ToolSlot(i) in slots ==> NamedAt(ds, i).Some?
    ensures Outputs(m', KeysOf(slots), true) == ReadingsOf(ds, slots, ended)
  {
    if slots != [] {
      assert Front(KeysOf(slots)) == KeysOf(Front(slots)) && Last(KeysOf(slots)) == KeyOf(Last(slots));
      assert Last(slots) in slots;
      SlotOutputs(ds, s, m, m', ended, Front(slots));
      SlotOutput(ds, s, m, m', ended, Last(slots));
    }
  }

  lemma {:induction false} SlotOutputsPartial(ds: seq<Delta>, s: ToolState, m: Merged, m': Merged, ended: set<int>,
                                              slots: seq<Slot>, all: set<int>)
    requires Agrees(ds, s, m) && Ended(m, m', ended) && NoneDone(m)
    requires forall i :: ToolSlot(i) in slots ==> NamedAt(ds, i).Some? && i in all
    ensures Outputs(m', KeysOf(slots), false) == ReadingsOf(ds, slots, all)
  {
    if slots != [] {
      assert Front(KeysOf(slots)) == KeysOf(Front(slots)) && Last(KeysOf(slots)) == KeyOf(Last(slots));
      assert Last(slots) in slots;
      SlotOutputsPartial(ds, s, m, m', ended, Front(slots), all);
      SlotOutput(ds, s, m, m', ended, Last(slots));
    }
  }

  /** No event but an end marks a call done. */
  lemma {:induction false} EmittedNoneDone(events: seq<Event>)
    requires forall e :: e in events ==> !e.payload.ToolArgumentsEnd?
    ensures NoneDone(MergeAll(NOTHING, events))
  {
    if events != [] {
      assert Last(events) in events;
      EmittedNoneDone(Front(events));
    }
  }

  lemma {:induction false} EmitsNoEnd(ds: seq<Delta>)
    ensures forall e :: e in EmitAll(ds).events ==> !e.payload.ToolArgumentsEnd?
  {
    if ds != [] {
      EmitsNoEnd(Front(ds));
    }
  }

  /**
   For every stream of deltas and every set of calls that were ended: the merge has one output per
   slot, in the order of first appearance, with the reading's text, reasoning, name, id and
   arguments; calls that were named but not ended are left out.
   */
  lemma MergeReadsStream(ds: seq<Delta>, ended: seq<int>, reason: string)
    ensures Merge(EmitAll(ds).events + Closing(ended, reason), true) == (Readings(ds, Elements(ended)), reason)
  {
    var s, m := EmitAll(ds).state, MergeAll(NOTHING, EmitAll(ds).events);
    EmittedAgrees(ds);
    EmitsNoEnd(ds);
    EmittedNoneDone(EmitAll(ds).events);
    StreamMerge(ds, ended, reason);
    SlotNamed(ds);
    SlotOutputs(ds, s, m, MergeAll(NOTHING, EmitAll(ds).events + Closing(ended, reason)), Elements(ended),
        SlotOrder(ds));
  }

  /** Kept partial calls: every named call comes back, ended or not. */
  lemma PartialMergeReadsStream(ds: seq<Delta>, ended: seq<int>, reason: string)
    ensures Merge(EmitAll(ds).events + Closing(ended, reason), false) == (Readings(ds, NamedCalls(ds)), reason)
  {
    var s, m := EmitAll(ds).state, MergeAll(NOTHING, EmitAll(ds).events);
    EmittedAgrees(ds);
    EmitsNoEnd(ds);
    EmittedNoneDone(EmitAll(ds).events);
    StreamMerge(ds, ended, reason);
    SlotNamed(ds);
    NamedCallsAre(ds);
    SlotOutputsPartial(ds, s, m, MergeAll(NOTHING, EmitAll(ds).events + Closing(ended, reason)), Elements(ended),
                       SlotOrder(ds),
                       NamedCalls(ds));
  }

  lemma NamedCallsAre(ds: seq<Delta>)
    ensures forall i :: i in NamedCalls(ds) <==> ToolSlot(i) in SlotOrder(ds)
    ensures forall i :: i in NamedCalls(ds) <==> NamedAt(ds, i).Some?
  {
  }

  /** The gateway ends exactly the calls that were ever named. */
  lemma NamedSoFar(ds: seq<Delta>)
    ensures EmitAll(ds).state.named == NamedCalls(ds)
  {
    EmittedAgrees(ds);
    NamedCallsAre(ds);
    forall i
      ensures i in EmitAll(ds).state.named <==> i in NamedCalls(ds)
    {
      assert ToolAgrees(ds, EmitAll(ds).state, MergeAll(NOTHING, EmitAll(ds).events), i);
    }
  }

  /** A stream that ran to its end closes every call that was ever named: each of them comes back. */
  lemma StreamRoundTrip(ds: seq<Delta>, indexes: seq<int>, reason: string)
    requires Elements(indexes) == EmitAll(ds).state.named
    ensures Merge(EmitAll(ds).events + Closing(indexes, reason), true) == (Readings(ds, NamedCalls(ds)), reason)
    ensures forall i :: i in NamedCalls(ds) <==> exists p :: 0 <= p < |ds| && Names(ds[p], i)
  {
    NamedSoFar(ds);
    MergeReadsStream(ds, indexes, reason);
    NamedCallsAre(ds);
    forall i
      ensures i in NamedCalls(ds) <==> exists p :: 0 <= p < |ds| && Names(ds[p], i)
    {
      if i in NamedCalls(ds) {
        assert Names(ds[NamedAt(ds, i).value], i);
      }
    }
  }
}
