/** Success limits of one turn: reservations, their ends, and the registry of turn tokens. */
module TurnLimits {
  import opened Basics

  // ---------------------------------------------------------------- the rule

  function LimitOf(capability: string): Option<nat> {
    if capability == "fixer_gemini" || capability == "fixer_grok" then Some(1)
    else if capability == "web_search" then Some(3)
    else if capability == "delegate" then Some(4)
    else None
  }

  datatype Outcome = Pending | Committed | Released

  /** A reservation as it was handed out. */
  datatype Slot = Slot(capability: string, outcome: Outcome)

  function Tally(slots: seq<Slot>, capability: string, outcome: Outcome): nat {
    if slots == [] then 0
    else Tally(Front(slots), capability, outcome) + if Last(slots) == Slot(capability, outcome) then 1 else 0
  }

  type Counts = map<string, int>

  function CountAt(counts: Counts, capability: string): int {
    if capability in counts then counts[capability] else 0
  }

  function Lowered(counts: Counts, capability: string): Counts {
    var remaining := CountAt(counts, capability) - 1;
    if remaining > 0 then counts[capability := remaining] else counts - {capability}
  }

  datatype Turn = Turn(successes: Counts, inFlight: Counts, slots: seq<Slot>)

  const NEW_TURN := Turn(map[], map[], [])

  datatype Refusal = UnknownToken | UnknownCapability | LimitReached

  predicate HasRoom(t: Turn, capability: string, limit: nat) {
    CountAt(t.successes, capability) + CountAt(t.inFlight, capability) < limit
  }

  function Reserved(t: Turn, capability: string): Turn {
    t.(inFlight := t.inFlight[capability := CountAt(t.inFlight, capability) + 1],
        slots := t.slots + [Slot(capability, Pending)])
  }

  /** Ending a reservation; only the first end counts. */
  function Ended(t: Turn, k: nat, success: bool): Turn
    requires k < |t.slots|
  {
    var slot := t.slots[k];
    if slot.outcome != Pending then t
    else
      Turn(if success then t.successes[slot.capability := CountAt(t.successes, slot.capability) + 1] else t.successes,
           Lowered(t.inFlight, slot.capability),
           t.slots[k := slot.(outcome := if success then Committed else Released)])
  }

  ghost predicate CapabilityGood(t: Turn, capability: string) {
    && CountAt(t.inFlight, capability) == Tally(t.slots, capability, Pending)
    && CountAt(t.successes, capability) == Tally(t.slots, capability, Committed)
    && (match LimitOf(capability)
        case Some(limit) => CountAt(t.successes, capability) + CountAt(t.inFlight, capability) <= limit
        case None => CountAt(t.successes, capability) + CountAt(t.inFlight, capability) == 0)
  }

  /** The counters tell the reservations' outcomes, and no limit is passed. */
  ghost predicate TurnGood(t: Turn) {
    forall capability {:trigger CapabilityGood(t, capability)} :: CapabilityGood(t, capability)
  }

  lemma TallyGrows(slots: seq<Slot>, slot: Slot, capability: string, outcome: Outcome)
    ensures Tally(slots + [slot], capability, outcome)
         == Tally(slots, capability, outcome) + if slot == Slot(capability, outcome) then 1 else 0
  {
  }

  lemma {:induction false} TallyChanges(slots: seq<Slot>, k: nat, slot: Slot, capability: string, outcome: Outcome)
    requires k < |slots|
    ensures Tally(slots[k := slot], capability, outcome)
         == Tally(slots, capability, outcome) - (if slots[k] == Slot(capability, outcome) then 1 else 0)
            + (if slot == Slot(capability, outcome) then 1 else 0)
  {
    if k == |slots| - 1 {
      assert Front(slots[k := slot]) == Front(slots);
    } else {
      assert Front(slots[k := slot]) == Front(slots)[k := slot];
      TallyChanges(Front(slots), k, slot, capability, outcome);
    }
  }

  lemma ReserveGood(t: Turn, capability: string)
    requires TurnGood(t) && LimitOf(capability).Some? && HasRoom(t, capability, LimitOf(capability).value)
    ensures TurnGood(Reserved(t, capability))
  {
    forall c
      ensures CapabilityGood(Reserved(t, capability), c)
    {
      assert CapabilityGood(t, c);
      TallyGrows(t.slots, Slot(capability, Pending), c, Pending);
      TallyGrows(t.slots, Slot(capability, Pending), c, Committed);
    }
  }

  lemma EndGood(t: Turn, k: nat, success: bool)
    requires TurnGood(t) && k < |t.slots|
    ensures TurnGood(Ended(t, k, success))
  {
    var slot := t.slots[k];
    if slot.outcome == Pending {
      var ended := slot.(outcome := if success then Committed else Released);
      forall c
        ensures CapabilityGood(Ended(t, k, success), c)
      {
        assert CapabilityGood(t, c);
        TallyChanges(t.slots, k, ended, c, Pending);
        TallyChanges(t.slots, k, ended, c, Committed);
      }
    }
  }

  /** There is room exactly when fewer reservations than the limit have succeeded or are still open. */
  lemma RoomIsExact(t: Turn, capability: string, limit: nat)
    requires TurnGood(t)
    ensures HasRoom(t, capability, limit)
       <==> Tally(t.slots, capability, Committed) + Tally(t.slots, capability, Pending) < limit
  {
    assert CapabilityGood(t, capability);
  }

  // ---------------------------------------------------------------- all turns

  /** Turns outlive their tokens: a closed token only stops naming its turn. */
  datatype Registry = Registry(tokens: map<string, nat>, turns: seq<Turn>)

  datatype Step =
    | Open(token: string)
    | Close(token: string)
    | Reserve(token: string, capability: string)
    | End(turn: nat, slot: nat, success: bool)

  /** Why a reservation is refused, if it is. */
  function RefusalOf(r: Registry, token: string, capability: string): Option<Refusal> {
    if token !in r.tokens || r.tokens[token] >= |r.turns| then Some(UnknownToken)
    else if LimitOf(capability).None? then Some(UnknownCapability)
    else if !HasRoom(r.turns[r.tokens[token]], capability, LimitOf(capability).value) then Some(LimitReached)
    else None
  }

  /** Tokens are drawn at random and taken to be new; an end belongs to a reservation that was handed out. */
  predicate Enabled(r: Registry, step: Step) {
    match step
    case Open(token) => token !in r.tokens
    case End(turn, slot, _) => turn < |r.turns| && slot < |r.turns[turn].slots|
    case _ => true
  }

  function Next(r: Registry, step: Step): Registry
    requires Enabled(r, step)
  {
    match step
    case Open(token) => Registry(r.tokens[token := |r.turns|], r.turns + [NEW_TURN])
    case Close(token) => r.(tokens := r.tokens - {token})
    case Reserve(token, capability) =>
      if RefusalOf(r, token, capability).Some? then r
      else r.(turns := r.turns[r.tokens[token] := Reserved(r.turns[r.tokens[token]], capability)])
    case End(turn, slot, success) => r.(turns := r.turns[turn := Ended(r.turns[turn], slot, success)])
  }

  ghost predicate Runs(r: Registry, steps: seq<Step>, s: Registry)
    decreases |steps|
  {
    if steps == [] then r == s else Enabled(r, steps[0]) && Runs(Next(r, steps[0]), steps[1..], s)
  }

  ghost predicate AllGood(r: Registry) {
    forall k :: 0 <= k < |r.turns| ==> TurnGood(r.turns[k])
  }

  lemma NewTurnGood()
    ensures TurnGood(NEW_TURN)
  {
  }

  lemma StepKeepsGood(r: Registry, step: Step)
    requires AllGood(r) && Enabled(r, step)
    ensures AllGood(Next(r, step))
  {
    match step
    case Open(token) => NewTurnGood();
    case Close(token) =>
    case Reserve(token, capability) =>
      if RefusalOf(r, token, capability).None? {
        ReserveGood(r.turns[r.tokens[token]], capability);
      }
    case End(turn, slot, success) => EndGood(r.turns[turn], slot, success);
  }

  lemma {:induction false} RunKeepsGood(r: Registry, steps: seq<Step>, s: Registry)
    requires AllGood(r) && Runs(r, steps, s)
    ensures AllGood(s)
    decreases |steps|
  {
    if steps != [] {
      StepKeepsGood(r, steps[0]);
      RunKeepsGood(Next(r, steps[0]), steps[1..], s);
    }
  }

  /**
   In every interleaving of opening, closing, reserving, committing and releasing: of the reservations
   handed out in a turn, those committed and those still open are never more than the limit, and the
   two counters say exactly how many there are of each.
   */
  lemma QuotaHolds(steps: seq<Step>, r: Registry, turn: nat, capability: string)
    requires Runs(Registry(map[], []), steps, r) && turn < |r.turns|
    ensures var slots := r.turns[turn].slots;
            && CountAt(r.turns[turn].inFlight, capability) == Tally(slots, capability, Pending)
            && CountAt(r.turns[turn].successes, capability) == Tally(slots, capability, Committed)
            && (LimitOf(capability).Some? ==>
                  Tally(slots, capability, Committed) + Tally(slots, capability, Pending) <= LimitOf(capability).value)
  {
    RunKeepsGood(Registry(map[], []), steps, r);
    assert CapabilityGood(r.turns[turn], capability);
  }

  /** What has been settled stays settled, whatever happens next: a second commit or release, or closing the token. */
  lemma SettledStays(r: Registry, step: Step, turn: nat, slot: nat)
    requires Enabled(r, step) && turn < |r.turns| && slot < |r.turns[turn].slots|
    requires r.turns[turn].slots[slot].outcome != Pending
    ensures turn < |Next(r, step).turns| && slot < |Next(r, step).turns[turn].slots|
    ensures Next(r, step).turns[turn].slots[slot] == r.turns[turn].slots[slot]
    ensures step.End? && step.turn == turn && step.slot == slot ==> Next(r, step) == r
  {
  }

  /** The numbers: one run of each fixer, three searches, four delegations. */
  lemma QuotaNumbers(steps: seq<Step>, r: Registry, turn: nat)
    requires Runs(Registry(map[], []), steps, r) && turn < |r.turns|
    ensures var slots := r.turns[turn].slots;
            && Tally(slots, "fixer_gemini", Committed) + Tally(slots, "fixer_gemini", Pending) <= 1
            && Tally(slots, "fixer_grok", Committed) + Tally(slots, "fixer_grok", Pending) <= 1
            && Tally(slots, "web_search", Committed) + Tally(slots, "web_search", Pending) <= 3
            && Tally(slots, "delegate", Committed) + Tally(slots, "delegate", Pending) <= 4
  {
    QuotaHolds(steps, r, turn, "fixer_gemini");
    QuotaHolds(steps, r, turn, "fixer_grok");
    QuotaHolds(steps, r, turn, "web_search");
    QuotaHolds(steps, r, turn, "delegate");
  }

  /**
   What the end of an open reservation leaves: after a success there is as much room as before, after a
   failure room for one more, and no other reservation or capability is touched.
   */
  lemma EndedExact(t: Turn, k: nat, success: bool, capability: string)
    requires TurnGood(t) && k < |t.slots| && t.slots[k].outcome == Pending
    ensures var r, own := Ended(t, k, success), t.slots[k].capability;
            && |r.slots| == |t.slots|
            && r.slots[k] == Slot(own, if success then Committed else Released)
            && (forall j {:trigger r.slots[j]} :: 0 <= j < |t.slots| && j != k ==> r.slots[j] == t.slots[j])
            && CountAt(r.successes, capability) == CountAt(t.successes, capability)
                                                   + (if success && capability == own then 1 else 0)
            && CountAt(r.inFlight, capability) == CountAt(t.inFlight, capability)
                                                  - (if capability == own then 1 else 0)
  {
    var own := t.slots[k].capability;
    assert CapabilityGood(t, own);
    TallyChanges(t.slots, k, Slot(own, Released), own, Pending);
  }

  /** Closing a token touches no turn; the reservations already made commit and release as before. */
  lemma CloseLeavesTurns(r: Registry, token: string, capability: string, turn: nat, slot: nat, success: bool)
    requires turn < |r.turns| && slot < |r.turns[turn].slots|
    ensures Next(Next(r, Close(token)), End(turn, slot, success)) ==
              Next(Next(r, End(turn, slot, success)), Close(token))
    ensures RefusalOf(Next(r, Close(token)), token, capability) == Some(UnknownToken)
  {
  }

  // ---------------------------------------------------------------- the objects

  class TurnState {
    var successes: map<string, int>
    var inFlight: map<string, int>
    ghost var slots: seq<Slot>

    constructor ()
      ensures View() == NEW_TURN
    {
      successes, inFlight, slots := map[], map[], [];
    }

    ghost function View(): Turn
      reads this
    {
      Turn(successes, inFlight, slots)
    }

    /** One fewer in flight; a count of none is not kept. */
    method Lower(capability: string)
      modifies this`inFlight
      ensures inFlight == Lowered(old(inFlight), capability)
    {
      var remaining := (if capability in inFlight then inFlight[capability] else 0) - 1;
      if remaining > 0 {
        inFlight := inFlight[capability := remaining];
      } else {
        inFlight := inFlight - {capability};
      }
    }

    /** Reserves when the turn has room; the capability must be one with a limit. */
    method Reserve(capability: string) returns (result: Result<TurnLimitReservation, Refusal>)
      requires TurnGood(View())
      modifies this
      ensures TurnGood(View())
      ensures result.Err? ==> View() == old(View())
      ensures result.Err? ==> result.error == if LimitOf(capability).None? then UnknownCapability else LimitReached
      ensures result.Ok? <==> LimitOf(capability).Some?
                              && Tally(old(slots), capability, Committed)
                                 + Tally(old(slots), capability, Pending) < LimitOf(capability).value
      ensures result.Ok? ==> View() == Reserved(old(View()), capability) && fresh(result.value)
                             && result.value.Stands() && result.value.state == this && result.value.slot == |old(slots)|
    {
      if LimitOf(capability).None? {
        return Err(UnknownCapability);
      }
      var limit := LimitOf(capability).value;
      RoomIsExact(View(), capability, limit);
      var used := if capability in successes then successes[capability] else 0;
      var pending := if capability in inFlight then inFlight[capability] else 0;
      if used + pending >= limit {
        return Err(LimitReached);
      }
      ReserveGood(View(), capability);
      inFlight := inFlight[capability := pending + 1];
      slots := slots + [Slot(capability, Pending)];
      var reservation := new TurnLimitReservation(this, capability, |slots| - 1);
      result := Ok(reservation);
    }
  }

  class TurnLimitReservation {
    const state: TurnState
    const capability: string
    var finished: bool
    ghost const slot: nat

    constructor (state: TurnState, capability: string, ghost slot: nat)
      requires slot < |state.slots| && state.slots[slot] == Slot(capability, Pending)
      ensures this.state == state && this.slot == slot && Stands()
    {
      this.state, this.capability, this.slot, this.finished := state, capability, slot, false;
    }

    /** The reservation is the one its turn knows by its slot. */
    ghost predicate Stands()
      reads this, state
    {
      && slot < |state.slots| && state.slots[slot].capability == capability
      && (finished <==> state.slots[slot].outcome != Pending)
    }

    method Commit()
      requires Stands() && TurnGood(state.View())
      modifies this, state
      ensures Stands() && TurnGood(state.View()) && finished
      ensures state.View() == Ended(old(state.View()), slot, true)
      ensures !old(finished) ==> state.slots == old(state.slots)[slot := Slot(capability, Committed)]
      ensures old(finished) ==> state.View() == old(state.View())
    {
      if finished {
        return;
      }
      EndGood(state.View(), slot, true);
      state.Lower(capability);
      var before := if capability in state.successes then state.successes[capability] else 0;
      state.successes := state.successes[capability := before + 1];
      state.slots := state.slots[slot := Slot(capability, Committed)];
      finished := true;
    }

    method Release()
      requires Stands() && TurnGood(state.View())
      modifies this, state
      ensures Stands() && TurnGood(state.View()) && finished
      ensures state.View() == Ended(old(state.View()), slot, false)
      ensures !old(finished) ==> state.slots == old(state.slots)[slot := Slot(capability, Released)]
      ensures old(finished) ==> state.View() == old(state.View())
    {
      if finished {
        return;
      }
      EndGood(state.View(), slot, false);
      state.Lower(capability);
      state.slots := state.slots[slot := Slot(capability, Released)];
      finished := true;
    }
  }

  class TurnLimitRegistry {
    var states: map<string, TurnState>

    constructor ()
      ensures states == map[]
    {
      states := map[];
    }

    method Open(token: string) returns (state: TurnState)
      requires token !in states
      modifies this
      ensures states == old(states)[token := state] && fresh(state) && state.View() == NEW_TURN
    {
      state := new TurnState();
      states := states[token := state];
    }

    method Close(token: string)
      modifies this
      ensures states == old(states) - {token}
    {
      states := states - {token};
    }

    method Reserve(token: string, capability: string) returns (result: Result<TurnLimitReservation, Refusal>)
      requires token in states ==> TurnGood(states[token].View())
      modifies if token in states then {states[token]} else {}
      ensures token !in states ==> result == Err(UnknownToken)
      ensures token in states ==>
                && TurnGood(states[token].View())
                && (result.Ok? <==> LimitOf(capability).Some?
                                    && Tally(old(states[token].slots), capability, Committed)
                                       + Tally(old(states[token].slots), capability, Pending)
                                       < LimitOf(capability).value)
                && (result.Ok? ==> states[token].View() == Reserved(old(states[token].View()), capability)
                                   && result.value.state == states[token]
                                       && result.value.slot == |old(states[token].slots)|
                                   && result.value.Stands() && fresh(result.value))
                && (result.Err? ==> states[token].View() == old(states[token].View()) && result.error != UnknownToken)
    {
      if token !in states {
        return Err(UnknownToken);
      }
      result := states[token].Reserve(capability);
    }

    /** A run of one operation: its slot is a success or free again, never left open. */
    method Run(token: string, capability: string, succeeds: bool) returns (result: Result<(), Refusal>)
      requires token in states ==> TurnGood(states[token].View())
      modifies if token in states then {states[token]} else {}
      ensures token !in states ==> result == Err(UnknownToken)
      ensures token in states ==> TurnGood(states[token].View())
      ensures token in states && result.Ok? ==>
                states[token].View() == Ended(Reserved(old(states[token].View()), capability),
                    |old(states[token].slots)|, succeeds)
    {
      var reservation := Reserve(token, capability);
      if reservation.Err? {
        return Err(reservation.error);
      }
      if succeeds {
        reservation.value.Commit();
      } else {
        reservation.value.Release();
      }
      result := Ok(());
    }
  }
}
