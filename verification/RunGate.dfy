/**
 The run gate of a conversation: one run at a time, and interrupts that arrive at any point of suspension
 of the run.
 */
module RunGate {
  import opened Basics

  datatype RunState = Idle | Running | Interrupting | Interrupted

  datatype Reason = Stop | ToolCalls | StopInterrupted | Other

  /** Where the current run is. */
  datatype Phase =
    | NoRun
    | Top                                   // about to ask the model
    | Streaming(sawStop: bool)              // whether the stop event was set when the stream began
    | Judging(reason: Reason, pause: bool)
    | Tools
    | Collected
    | Leaving                               // only the exit is left

  datatype Gate = Gate(state: RunState, stop: bool, phase: Phase)

  const START := Gate(Idle, false, NoRun)

  datatype Step =
    | Enter
    | BeginStream
    | EndStream(reason: Reason, pause: bool)
    | Judge
    | ToolsDone
    | LoopBack
    | StopAfterTools
    | Cancel
    | Fail
    | Exit
    | Interrupt
    | Close

  /** Whether an interrupt is taken up. */
  predicate Accepts(g: Gate) {
    g.state.Running? || g.state.Interrupting?
  }

  predicate InRun(g: Gate) {
    !g.phase.NoRun?
  }

  /**
   A stream that begins with the stop event set says at once that it was interrupted; only the stop
   event makes a stream say so.
   */
  predicate Enabled(g: Gate, step: Step) {
    match step
    case Enter => g.state.Idle?
    case BeginStream => g.phase.Top?
    case EndStream(reason, _) => g.phase.Streaming? && (g.phase.sawStop ==> reason == StopInterrupted)
                                 && (reason == StopInterrupted ==> g.stop)
    case Judge => g.phase.Judging?
    case ToolsDone => g.phase.Tools?
    case LoopBack => g.phase.Collected? && !g.stop
    case StopAfterTools => g.phase.Collected? && g.stop
    case Cancel => InRun(g)
    case Fail => InRun(g)
    case Exit => g.phase.Leaving?
    case _ => true
  }

  function Judged(g: Gate, reason: Reason, pause: bool): Gate {
    if reason == StopInterrupted then g.(state := Interrupted, phase := Leaving)
    else if reason == ToolCalls && !pause then g.(phase := Tools)
    else g.(phase := Leaving)
  }

  function Next(g: Gate, step: Step): Gate
    requires Enabled(g, step)
  {
    match step
    case Enter => Gate(Running, false, Top)
    case BeginStream => g.(phase := Streaming(g.stop))
    case EndStream(reason, pause) => g.(phase := Judging(reason, pause))
    case Judge => Judged(g, g.phase.reason, g.phase.pause)
    case ToolsDone => g.(phase := Collected)
    case LoopBack => g.(phase := Top)
    case StopAfterTools => g.(state := Interrupted, phase := Leaving)
    case Cancel => g.(state := Interrupted, phase := Leaving)
    case Fail => g.(phase := Leaving)
    case Exit => g.(state := Idle, phase := NoRun)
    case Interrupt => if g.state.Running? then g.(state := Interrupting, stop := true) else g
    case Close => g.(stop := true)
  }

  ghost predicate Runs(g: Gate, steps: seq<Step>, h: Gate)
    decreases |steps|
  {
    if steps == [] then g == h else Enabled(g, steps[0]) && Runs(Next(g, steps[0]), steps[1..], h)
  }

  // ---------------------------------------------------------------- what every run keeps

  /** The gate is idle exactly between runs; "interrupting" and a seen stop mean the event is set. */
  predicate Inv(g: Gate) {
    && (g.state.Idle? <==> g.phase.NoRun?)
    && (g.state.Interrupting? ==> g.stop)
    && (g.phase.Streaming? && g.phase.sawStop ==> g.stop)
    && (g.state.Interrupted? ==> g.phase.Leaving?)
  }

  lemma StepKeepsInv(g: Gate, step: Step)
    requires Inv(g) && Enabled(g, step)
    ensures Inv(Next(g, step))
  {
  }

  lemma {:induction false} RunKeepsInv(g: Gate, steps: seq<Step>, h: Gate)
    requires Inv(g) && Runs(g, steps, h)
    ensures Inv(h)
    decreases |steps|
  {
    if steps != [] {
      StepKeepsInv(g, steps[0]);
      RunKeepsInv(Next(g, steps[0]), steps[1..], h);
    }
  }

  function Count(steps: seq<Step>, step: Step): nat {
    if steps == [] then 0 else (if steps[0] == step then 1 else 0) + Count(steps[1..], step)
  }

  /** Streams a stopped run may still begin: the one it was about to begin. */
  function StreamsLeft(g: Gate): nat {
    if g.phase.Top? then 1 else 0
  }

  /** Every stream begun on the way begins with the stop event set. */
  ghost predicate StreamsSeeStop(g: Gate, steps: seq<Step>, h: Gate)
    requires Runs(g, steps, h)
    decreases |steps|
  {
    steps != [] ==>
      && (steps[0] == BeginStream ==> g.stop && Next(g, steps[0]).phase == Streaming(true))
      && StreamsSeeStop(Next(g, steps[0]), steps[1..], h)
  }

  lemma {:induction false} StoppedRun(g: Gate, steps: seq<Step>, h: Gate)
    requires Inv(g) && InRun(g) && g.stop && Runs(g, steps, h) && Exit !in steps
    ensures h.stop && InRun(h)
    ensures Count(steps, BeginStream) + StreamsLeft(h) <= StreamsLeft(g) && Count(steps, LoopBack) == 0
    ensures StreamsSeeStop(g, steps, h)
    decreases |steps|
  {
    if steps != [] {
      assert steps[0] in steps;
      assert forall s :: s in steps[1..] ==> s in steps;
      StepKeepsInv(g, steps[0]);
      assert Next(g, steps[0]).stop && InRun(Next(g, steps[0]));
      assert (if steps[0] == BeginStream then 1 else 0) + StreamsLeft(Next(g, steps[0])) <= StreamsLeft(g);
      StoppedRun(Next(g, steps[0]), steps[1..], h);
    }
  }

  /**
   An accepted interrupt is never swallowed.  In every run from the start in which an interrupt returns
   true, the stop event stays set until that run exits; no further iteration of the loop starts; and at
   most one more model stream begins — none unless the run was just about to begin one — with the event
   set when it begins.
   */
  lemma AcceptedInterruptSticks(before: seq<Step>, g: Gate, after: seq<Step>, h: Gate)
    requires Runs(START, before, g) && Accepts(g)
    requires Runs(Next(g, Interrupt), after, h) && Exit !in after
    ensures h.stop && InRun(h)
    ensures Count(after, LoopBack) == 0
    ensures Count(after, BeginStream) <= if g.phase.Top? then 1 else 0
    ensures StreamsSeeStop(Next(g, Interrupt), after, h)
  {
    RunKeepsInv(START, before, g);
    StepKeepsInv(g, Interrupt);
    StoppedRun(Next(g, Interrupt), after, h);
  }

  /**
   An interrupt is refused exactly when no run is going on or the run already ended as interrupted; then
   nothing changes.
   */
  lemma RefusedInterruptChangesNothing(before: seq<Step>, g: Gate)
    requires Runs(START, before, g)
    ensures !Accepts(g) <==> g.phase.NoRun? || (g.phase.Leaving? && g.state.Interrupted?)
    ensures !Accepts(g) ==> Next(g, Interrupt) == g
  {
    RunKeepsInv(START, before, g);
  }

  /** A second run cannot enter while one is going on, and one that enters starts with the event clear. */
  lemma OneRunAtATime(before: seq<Step>, g: Gate)
    requires Runs(START, before, g)
    ensures Enabled(g, Enter) <==> !InRun(g)
    ensures Enabled(g, Enter) ==> !Next(g, Enter).stop && Accepts(Next(g, Enter))
  {
    RunKeepsInv(START, before, g);
  }

  // ---------------------------------------------------------------- what a stop reason leads to

  /** The reports of the streams among the steps. */
  function Ends(steps: seq<Step>): seq<Step> {
    if steps == [] then [] else Ends(Front(steps)) + (if Last(steps).EndStream? then [Last(steps)] else [])
  }

  lemma {:induction false} EndsConcat(a: seq<Step>, b: seq<Step>)
    ensures Ends(a + b) == Ends(a) + Ends(b)
  {
    if b == [] {
      assert a + b == a;
    } else {
      assert Front(a + b) == a + Front(b) && Last(a + b) == Last(b);
      EndsConcat(a, Front(b));
      Regroup(Ends(a), Ends(Front(b)), if Last(b).EndStream? then [Last(b)] else []);
    }
  }

  /** Where a run stands after its latest stream, read off its steps. */
  ghost predicate Reported(g: Gate, steps: seq<Step>) {
    match g.phase
    case Judging(reason, pause) => Ends(steps) != [] && Last(Ends(steps)) == EndStream(reason, pause)
    case Tools => Ends(steps) != [] && Last(Ends(steps)) == EndStream(ToolCalls, false)
    case Collected => Ends(steps) != [] && Last(Ends(steps)) == EndStream(ToolCalls, false)
    case _ => true
  }

  lemma ReportedStep(g: Gate, steps: seq<Step>, step: Step)
    requires Reported(g, steps) && Enabled(g, step)
    ensures Reported(Next(g, step), steps + [step])
  {
    assert Front(steps + [step]) == steps;
  }

  lemma {:induction false} ReportedRun(g: Gate, before: seq<Step>, steps: seq<Step>, h: Gate)
    requires Reported(g, before) && Runs(g, steps, h)
    ensures Reported(h, before + steps)
    decreases |steps|
  {
    if steps == [] {
      assert before + steps == before;
    } else {
      ReportedStep(g, before, steps[0]);
      ReportedRun(Next(g, steps[0]), before + [steps[0]], steps[1..], h);
      assert before + [steps[0]] + steps[1..] == before + steps;
    }
  }

  /**
   In every run, whatever arrives: tools are run, and the loop goes round or stops after them, only when the
   latest stream reported tool calls without a pause.
   */
  lemma ToolsOnlyWhenCalled(steps: seq<Step>, g: Gate, step: Step)
    requires Runs(START, steps, g) && Enabled(g, step) && (step.ToolsDone? || step.LoopBack? || step.StopAfterTools?)
    ensures Ends(steps) != [] && Last(Ends(steps)) == EndStream(ToolCalls, false)
  {
    ReportedRun(START, [], steps, g);
    assert [] + steps == steps;
  }

  /**
   What the loop does once a stream has reported, in every run: tools are next exactly after tool calls
   without a pause, else only the exit is left, and the run ends as interrupted exactly if the stream said so.
   */
  lemma JudgedExact(steps: seq<Step>, g: Gate)
    requires Runs(START, steps, g) && Enabled(g, Judge)
    ensures Ends(steps) != [] && Last(Ends(steps)).EndStream?
    ensures var report, h := Last(Ends(steps)), Next(g, Judge);
            && (report == EndStream(ToolCalls, false) ==> h == g.(phase := Tools))
            && (report != EndStream(ToolCalls, false) ==>
                  h == Gate(if report.reason.StopInterrupted? then Interrupted else g.state, g.stop, Leaving))
  {
    ReportedRun(START, [], steps, g);
    assert [] + steps == steps;
  }

  /**
   In every run: which steps end it as interrupted, which set the stop event, and after which only the exit is
   left.  A cancellation interrupts a run at any point; an error ends it and leaves its state.
   */
  lemma StepExact(steps: seq<Step>, g: Gate, step: Step)
    requires Runs(START, steps, g) && Enabled(g, step)
    ensures var h := Next(g, step);
            && (h.state.Interrupted? <==>
                  || step.Cancel? || step.StopAfterTools? || (step.Judge? && g.phase.reason.StopInterrupted?)
                  || (g.state.Interrupted? && !step.Exit?))
            && (h.state.Interrupting? <==>
                  || (step.Interrupt? && Accepts(g))
                  || (g.state.Interrupting? && !h.state.Interrupted? && !step.Exit?))
            && (h.state.Idle? <==> step.Exit? || (g.state.Idle? && !step.Enter?))
            && (h.stop <==> step.Close? || (step.Interrupt? && Accepts(g)) || (g.stop && !step.Enter?))
            && (h.phase.Leaving? <==>
                  || step.Cancel? || step.Fail? || step.StopAfterTools?
                  || (step.Judge? && !(g.phase.reason.ToolCalls? && !g.phase.pause))
                  || (g.phase.Leaving? && !step.Exit?))
  {
    RunKeepsInv(START, steps, g);
  }

  predicate CallsTools(turn: Turn) { turn.reason == ToolCalls && !turn.pause }

  /** Nothing arrives at any suspension. */
  predicate Calm(turn: Turn) {
    turn.before == turn.during == turn.judging == turn.tools == turn.committing == turn.leaving == Nothing
  }

  predicate AllCalm(turns: seq<Turn>) {
    forall k {:trigger turns[k]} :: 0 <= k < |turns| ==> Calm(turns[k])
  }

  /** What arrives is one step, or none. */
  predicate Arrives(arrival: Arrival, taken: seq<Step>, steps: seq<Step>) {
    match arrival
    case Nothing => steps == taken
    case Interrupts => steps == taken + [Step.Interrupt]
    case Cancels => steps == taken + [Cancel]
    case Fails => steps == taken + [Fail]
  }

  /** What a stream that begins at `g` reports in the end when nothing arrives. */
  function CalmReason(g: Gate, turn: Turn): Reason {
    if g.stop then StopInterrupted else if turn.reason == StopInterrupted then Stop else turn.reason
  }

  /** The report is the turn's, but for the stop event. */
  predicate TurnReports(turn: Turn, report: Step) {
    && report.EndStream? && report.pause == turn.pause
    && (report.reason == turn.reason || report.reason == StopInterrupted
        || (turn.reason == StopInterrupted && report.reason == Stop))
  }

  /** A round adds the report of its turn, or is torn before. */
  ghost predicate Adds(turn: Turn, taken: seq<Step>, steps: seq<Step>) {
    || Ends(steps) == Ends(taken)
    || (|Ends(steps)| == |Ends(taken)| + 1 && Front(Ends(steps)) == Ends(taken) && TurnReports(turn, Last(Ends(steps))))
  }

  lemma ArrivalEnds(arrival: Arrival, taken: seq<Step>, steps: seq<Step>)
    requires Arrives(arrival, taken, steps)
    ensures Ends(steps) == Ends(taken)
  {
    if steps != taken {
      assert Front(steps) == taken;
    }
  }

  /** One round in which nothing arrives. */
  ghost predicate CalmRound(g: Gate, turn: Turn, taken: seq<Step>, steps: seq<Step>, h: Gate, again: bool,
                            ending: Ending) {
    if !g.stop && CallsTools(turn) then
      again && h == g && steps == taken + [BeginStream, EndStream(ToolCalls, false), Judge, ToolsDone, LoopBack]
    else
      && !again && steps == taken + [BeginStream, EndStream(CalmReason(g, turn), turn.pause), Judge]
      && h == Gate(if g.stop then Interrupted else g.state, g.stop, Leaving)
      && ending == if !g.stop && turn.reason == Other then Blocked else Returned
  }

  /** The steps of `n` rounds in which the model calls tools and nothing arrives. */
  function ToolRounds(n: nat): seq<Step> {
    if n == 0 then []
    else ToolRounds(n - 1) + [BeginStream, EndStream(ToolCalls, false), Judge, ToolsDone, LoopBack]
  }

  /** The first `n` turns call tools; then the turns are used up or one does not call any. */
  ghost predicate CourseAt(turns: seq<Turn>, n: nat, g: Gate, steps: seq<Step>, ending: Ending, h: Gate) {
    && n <= |turns|
    && (forall k {:trigger turns[k]} :: 0 <= k < n ==> turns[k].reason == ToolCalls && !turns[k].pause)
    && if n == |turns| then steps == ToolRounds(n) && h == g && ending == OutOfTurns
       else
         var turn := turns[n];
         && (turn.reason != ToolCalls || turn.pause)
         && steps == ToolRounds(n)
                     + [BeginStream,
                        EndStream(if turn.reason == StopInterrupted then Stop else turn.reason, turn.pause), Judge]
         && h == g.(phase := Leaving)
         && ending == if turn.reason == Other then Blocked else Returned
  }

  /** What the loop does when nothing arrives. */
  ghost predicate Course(turns: seq<Turn>, g: Gate, steps: seq<Step>, ending: Ending, h: Gate) {
    if g.stop && turns != [] then
      && steps == [BeginStream, EndStream(StopInterrupted, turns[0].pause), Judge]
      && h == Gate(Interrupted, true, Leaving) && ending == Returned
    else exists n: nat {:trigger CourseAt(turns, n, g, steps, ending, h)} :: CourseAt(turns, n, g, steps, ending, h)
  }

  lemma NoFurther(turns: seq<Turn>, n: nat, g: Gate, steps: seq<Step>, ending: Ending, h: Gate, m: nat,
                  steps': seq<Step>, ending': Ending, h': Gate)
    requires CourseAt(turns, n, g, steps, ending, h) && CourseAt(turns, m, g, steps', ending', h')
    ensures n <= m
  {
    assert forall k {:trigger turns[k]} :: 0 <= k < n ==> turns[k].reason == ToolCalls && !turns[k].pause;
  }

  /** There is one such course: the turns alone decide what is done. */
  lemma CourseUnique(turns: seq<Turn>, g: Gate, steps: seq<Step>, ending: Ending, h: Gate,
                     steps': seq<Step>, ending': Ending, h': Gate)
    requires Course(turns, g, steps, ending, h) && Course(turns, g, steps', ending', h')
    ensures steps == steps' && ending == ending' && h == h'
  {
    if !g.stop || turns == [] {
      var n: nat :| CourseAt(turns, n, g, steps, ending, h);
      var m: nat :| CourseAt(turns, m, g, steps', ending', h');
      NoFurther(turns, n, g, steps, ending, h, m, steps', ending', h');
      NoFurther(turns, m, g, steps', ending', h', n, steps, ending, h);
    }
  }

  /** Each report is the one of its turn, in order. */
  ghost predicate Follows(turns: seq<Turn>, steps: seq<Step>) {
    && |Ends(steps)| <= |turns|
    && forall k {:trigger TurnReports(turns[k], Ends(steps)[k])} ::
         0 <= k < |Ends(steps)| ==> TurnReports(turns[k], Ends(steps)[k])
  }

  lemma FollowsOn(turns: seq<Turn>, k: nat, taken: seq<Step>, steps: seq<Step>)
    requires k < |turns| && Follows(turns[..k], taken) && |Ends(taken)| == k && Adds(turns[k], taken, steps)
    ensures Follows(turns[..k + 1], steps)
  {
    var now := Ends(steps);
    forall j | 0 <= j < |now|
      ensures TurnReports(turns[..k + 1][j], now[j])
    {
      if j < k {
        assert TurnReports(turns[..k][j], Ends(taken)[j]);
      }
    }
  }

  // ---------------------------------------------------------------- the conversation's methods

  /** What reaches the run while it is suspended. */
  datatype Arrival = Nothing | Interrupts | Cancels | Fails

  /** One turn of the loop as the outside decides it, with what arrives at each suspension. */
  datatype Turn = Turn(reason: Reason, pause: bool, before: Arrival, during: Arrival, judging: Arrival,
                       tools: Arrival, committing: Arrival, leaving: Arrival)

  /** A run is torn when a cancellation or an error goes through it. */
  datatype Ending = Returned | Blocked | Torn | OutOfTurns

  /** One link of a path of gates. */
  ghost predicate Link(path: seq<Gate>, steps: seq<Step>, k: nat) {
    k < |steps| && k + 1 < |path| && Enabled(path[k], steps[k]) && path[k + 1] == Next(path[k], steps[k])
  }

  ghost predicate Path(path: seq<Gate>, steps: seq<Step>) {
    && |path| == |steps| + 1
    && forall k {:trigger Link(path, steps, k)} :: 0 <= k < |steps| ==> Link(path, steps, k)
  }

  /** A run, said without recursion. */
  ghost predicate Reached(g: Gate, steps: seq<Step>, h: Gate) {
    exists path {:trigger Path(path, steps)} :: Path(path, steps) && path[0] == g && Last(path) == h
  }

  lemma ReachedAtOnce(g: Gate)
    ensures Reached(g, [], g)
  {
    assert Path([g], []);
  }

  lemma ReachedOn(g: Gate, steps: seq<Step>, h: Gate, step: Step)
    requires Reached(g, steps, h) && Enabled(h, step)
    ensures Reached(g, steps + [step], Next(h, step))
  {
    var path :| Path(path, steps) && path[0] == g && Last(path) == h;
    var more := path + [Next(h, step)];
    forall k | 0 <= k < |steps| + 1
      ensures Link(more, steps + [step], k)
    {
      if k < |steps| {
        assert Link(path, steps, k);
      }
    }
    assert Path(more, steps + [step]);
  }

  lemma {:induction false} PathRuns(path: seq<Gate>, steps: seq<Step>)
    requires Path(path, steps)
    ensures Runs(path[0], steps, Last(path))
    decreases |steps|
  {
    if steps != [] {
      assert Link(path, steps, 0);
      forall k | 0 <= k < |steps| - 1
        ensures Link(path[1..], steps[1..], k)
      {
        assert Link(path, steps, k + 1);
      }
      PathRuns(path[1..], steps[1..]);
    }
  }

  lemma ReachedRuns(g: Gate, steps: seq<Step>, h: Gate)
    requires Reached(g, steps, h)
    ensures Runs(g, steps, h)
  {
    var path :| Path(path, steps) && path[0] == g && Last(path) == h;
    PathRuns(path, steps);
  }

  class ConversationGate {
    var runState: RunState
    var stopEvent: bool
    ghost var phase: Phase

    constructor ()
      ensures View() == START
    {
      runState, stopEvent, phase := Idle, false, NoRun;
    }

    ghost function View(): Gate
      reads this
    {
      Gate(runState, stopEvent, phase)
    }

    method Interrupt() returns (accepted: bool)
      modifies this`runState, this`stopEvent
      ensures View() == Next(old(View()), Step.Interrupt)
      ensures accepted == Accepts(old(View()))
    {
      if runState.Idle? || runState.Interrupted? {
        return false;
      }
      if runState.Interrupting? {
        return true;
      }
      runState := Interrupting;
      stopEvent := true;
      accepted := true;
    }

    /** A conversation that is not idle is busy. */
    method EnterRun() returns (entered: bool)
      modifies this
      ensures entered == Enabled(old(View()), Enter)
      ensures View() == if entered then Next(old(View()), Enter) else old(View())
    {
      if !runState.Idle? {
        return false;
      }
      runState, stopEvent, phase := Running, false, Top;
      entered := true;
    }

    method ExitRun()
      requires phase.Leaving?
      modifies this
      ensures View() == Next(old(View()), Exit)
    {
      runState, phase := Idle, NoRun;
    }

    /**
     A point of suspension.  An interrupt is taken up there; a cancellation or an error ends the loop, the
     first leaving the run interrupted.
     */
    method Suspend(arrival: Arrival, ghost from: Gate, ghost taken: seq<Step>)
        returns (goesOn: bool, ghost steps: seq<Step>)
      requires Reached(from, taken, View()) && InRun(View())
      modifies this
      ensures Reached(from, steps, View()) && Arrives(arrival, taken, steps) && Ends(steps) == Ends(taken)
      ensures goesOn <==> arrival.Nothing? || arrival.Interrupts?
      ensures View() == match arrival
                        case Nothing => old(View())
                        case Interrupts => Next(old(View()), Step.Interrupt)
                        case Cancels => Next(old(View()), Cancel)
                        case Fails => Next(old(View()), Fail)
    {
      steps := taken;
      goesOn := true;
      match arrival {
        case Nothing =>
        case Interrupts =>
          ReachedOn(from, taken, View(), Step.Interrupt);
          steps := taken + [Step.Interrupt];
          var accepted := Interrupt();
        case Cancels =>
          ReachedOn(from, taken, View(), Cancel);
          steps := taken + [Cancel];
          runState, phase, goesOn := Interrupted, Leaving, false;
        case Fails =>
          ReachedOn(from, taken, View(), Fail);
          steps := taken + [Fail];
          phase, goesOn := Leaving, false;
      }
      ArrivalEnds(arrival, taken, steps);
    }

    ghost method Begin(from: Gate, taken: seq<Step>) returns (steps: seq<Step>)
      requires Reached(from, taken, View()) && phase.Top?
      modifies this`phase
      ensures Reached(from, steps, View()) && phase == Streaming(stopEvent)
      ensures steps == taken + [BeginStream] && Ends(steps) == Ends(taken)
    {
      ReachedOn(from, taken, View(), BeginStream);
      steps := taken + [BeginStream];
      phase := Streaming(stopEvent);
    }

    ghost method Finish(reason: Reason, pause: bool, from: Gate, taken: seq<Step>) returns (steps: seq<Step>)
      requires Reached(from, taken, View()) && Enabled(View(), Step.EndStream(reason, pause))
      modifies this`phase
      ensures Reached(from, steps, View()) && phase == Judging(reason, pause)
      ensures steps == taken + [Step.EndStream(reason, pause)]
      ensures Ends(steps) == Ends(taken) + [Step.EndStream(reason, pause)]
    {
      ReachedOn(from, taken, View(), Step.EndStream(reason, pause));
      steps := taken + [Step.EndStream(reason, pause)];
      phase := Judging(reason, pause);
    }

    /** The model's stream: what it reports in the end is the outside's choice, but for the stop event. */
    method Stream(turn: Turn, ghost from: Gate, ghost taken: seq<Step>)
        returns (goesOn: bool, reason: Reason, ghost steps: seq<Step>)
      requires Reached(from, taken, View()) && phase.Top?
      modifies this
      ensures Reached(from, steps, View())
      ensures if goesOn then phase == Judging(reason, turn.pause) else phase.Leaving?
      ensures Adds(turn, taken, steps) && (goesOn ==> |Ends(steps)| == |Ends(taken)| + 1)
      ensures turn.before.Nothing? && turn.during.Nothing? && turn.judging.Nothing? ==>
                && goesOn && reason == CalmReason(old(View()), turn)
                && runState == old(runState) && stopEvent == old(stopEvent)
                && steps == taken + [BeginStream] + [Step.EndStream(reason, turn.pause)]
    {
      reason := turn.reason;
      goesOn, steps := Suspend(turn.before, from, taken);
      if goesOn {
        goesOn, reason, steps := Listen(turn, from, steps);
      }
    }

    method Listen(turn: Turn, ghost from: Gate, ghost taken: seq<Step>)
        returns (goesOn: bool, reason: Reason, ghost steps: seq<Step>)
      requires Reached(from, taken, View()) && phase.Top?
      modifies this
      ensures Reached(from, steps, View())
      ensures if goesOn then phase == Judging(reason, turn.pause) else phase.Leaving?
      ensures Adds(turn, taken, steps) && (goesOn ==> |Ends(steps)| == |Ends(taken)| + 1)
      ensures turn.during.Nothing? && turn.judging.Nothing? ==>
                && goesOn && reason == CalmReason(old(View()), turn)
                && runState == old(runState) && stopEvent == old(stopEvent)
                && steps == taken + [BeginStream] + [Step.EndStream(reason, turn.pause)]
    {
      var sawStop := stopEvent;
      steps := Begin(from, taken);
      goesOn, reason, steps := Hear(turn, sawStop, from, steps);
    }

    method Hear(turn: Turn, sawStop: bool, ghost from: Gate, ghost taken: seq<Step>)
        returns (goesOn: bool, reason: Reason, ghost steps: seq<Step>)
      requires Reached(from, taken, View()) && phase == Streaming(sawStop) && sawStop == stopEvent
      modifies this
      ensures Reached(from, steps, View())
      ensures if goesOn then phase == Judging(reason, turn.pause) else phase.Leaving?
      ensures Adds(turn, taken, steps) && (goesOn ==> |Ends(steps)| == |Ends(taken)| + 1)
      ensures turn.during.Nothing? && turn.judging.Nothing? ==>
                && goesOn && reason == CalmReason(old(View()), turn)
                && runState == old(runState) && stopEvent == old(stopEvent)
                && steps == taken + [Step.EndStream(reason, turn.pause)]
    {
      reason := turn.reason;
      goesOn, steps := Suspend(turn.during, from, taken);
      if goesOn {
        reason := Claim(turn, sawStop);
        goesOn, steps := EndStream(turn, reason, from, steps);
      }
    }

    /** A stream that saw the event says so; without the event it does not claim to be interrupted. */
    method Claim(turn: Turn, sawStop: bool) returns (reason: Reason)
      ensures TurnReports(turn, Step.EndStream(reason, turn.pause))
      ensures (sawStop ==> reason == StopInterrupted) && (reason == StopInterrupted ==> sawStop || stopEvent)
      ensures sawStop == stopEvent ==> reason == CalmReason(View(), turn)
    {
      reason := turn.reason;
      if sawStop {
        reason := StopInterrupted;
      } else if reason == StopInterrupted && !stopEvent {
        reason := Stop;
      }
    }

    method EndStream(turn: Turn, reason: Reason, ghost from: Gate, ghost taken: seq<Step>)
        returns (goesOn: bool, ghost steps: seq<Step>)
      requires Reached(from, taken, View()) && Enabled(View(), Step.EndStream(reason, turn.pause))
      modifies this
      ensures Reached(from, steps, View())
      ensures if goesOn then phase == Judging(reason, turn.pause) else phase.Leaving?
      ensures Ends(steps) == Ends(taken) + [Step.EndStream(reason, turn.pause)]
      ensures turn.judging.Nothing? ==>
                && goesOn && runState == old(runState) && stopEvent == old(stopEvent)
                && steps == taken + [Step.EndStream(reason, turn.pause)]
    {
      steps := Finish(reason, turn.pause, from, taken);
      goesOn, steps := Suspend(turn.judging, from, steps);
    }

    /** After the stream: whether there are tools to run; otherwise only the exit is left. */
    method Settle(reason: Reason, pause: bool, ghost from: Gate, ghost taken: seq<Step>)
        returns (tools: bool, ghost steps: seq<Step>)
      requires Reached(from, taken, View()) && phase == Judging(reason, pause)
      modifies this
      ensures Reached(from, steps, View()) && View() == Judged(old(View()), reason, pause)
      ensures tools <==> phase.Tools?
      ensures steps == taken + [Judge] && Ends(steps) == Ends(taken)
    {
      ReachedOn(from, taken, View(), Judge);
      steps := taken + [Judge];
      if reason == StopInterrupted {
        runState := Interrupted;
      }
      tools := reason == ToolCalls && !pause;
      phase := if tools then Tools else Leaving;
    }

    /** The tools run and their results are committed; then the loop goes round unless the event is set. */
    method RunTools(turn: Turn, ghost from: Gate, ghost taken: seq<Step>)
        returns (goesOn: bool, again: bool, ghost steps: seq<Step>)
      requires Reached(from, taken, View()) && phase.Tools?
      modifies this
      ensures Reached(from, steps, View()) && Ends(steps) == Ends(taken)
      ensures (again ==> goesOn) && if again then phase.Top? else phase.Leaving?
      ensures turn.tools.Nothing? && turn.committing.Nothing? && !old(stopEvent) ==>
                && goesOn && again && steps == taken + [ToolsDone] + [LoopBack]
                && runState == old(runState) && !stopEvent
    {
      again := false;
      goesOn, steps := Suspend(turn.tools, from, taken);
      if !goesOn { return; }
      steps := Collect(from, steps);
      goesOn, steps := Suspend(turn.committing, from, steps);
      if !goesOn { return; }
      again, steps := GoRound(from, steps);
    }

    ghost method Collect(from: Gate, taken: seq<Step>) returns (steps: seq<Step>)
      requires Reached(from, taken, View()) && phase.Tools?
      modifies this`phase
      ensures Reached(from, steps, View()) && phase.Collected?
      ensures steps == taken + [ToolsDone] && Ends(steps) == Ends(taken)
    {
      ReachedOn(from, taken, View(), ToolsDone);
      steps := taken + [ToolsDone];
      phase := Collected;
    }

    method GoRound(ghost from: Gate, ghost taken: seq<Step>) returns (again: bool, ghost steps: seq<Step>)
      requires Reached(from, taken, View()) && phase.Collected?
      modifies this
      ensures Reached(from, steps, View()) && Ends(steps) == Ends(taken)
      ensures again == !old(stopEvent) && stopEvent == old(stopEvent)
      ensures if again then phase.Top? && runState == old(runState) && steps == taken + [LoopBack]
              else phase.Leaving? && runState == Interrupted && steps == taken + [StopAfterTools]
    {
      again := !stopEvent;
      if again {
        ReachedOn(from, taken, View(), LoopBack);
        steps := taken + [LoopBack];
        phase := Top;
      } else {
        ReachedOn(from, taken, View(), StopAfterTools);
        steps := taken + [StopAfterTools];
        runState, phase := Interrupted, Leaving;
      }
    }

    /** One round of the loop: it goes round again, or only the exit is left. */
    method Round(turn: Turn, ghost from: Gate, ghost taken: seq<Step>)
        returns (again: bool, ending: Ending, ghost steps: seq<Step>)
      requires Reached(from, taken, View()) && phase.Top?
      modifies this
      ensures Reached(from, steps, View())
      ensures if again then phase.Top? else phase.Leaving? && !ending.OutOfTurns?
      ensures Adds(turn, taken, steps) && (again ==> |Ends(steps)| == |Ends(taken)| + 1)
      ensures Calm(turn) ==> CalmRound(old(View()), turn, taken, steps, View(), again, ending)
    {
      again, ending := false, Torn;
      var goesOn: bool, reason: Reason;
      goesOn, reason, steps := Stream(turn, from, taken);
      if goesOn {
        again, ending, steps := AfterStream(turn, reason, from, steps);
      }
    }

    method AfterStream(turn: Turn, reason: Reason, ghost from: Gate, ghost taken: seq<Step>)
        returns (again: bool, ending: Ending, ghost steps: seq<Step>)
      requires Reached(from, taken, View()) && phase == Judging(reason, turn.pause)
      modifies this
      ensures Reached(from, steps, View()) && Ends(steps) == Ends(taken)
      ensures if again then phase.Top? else phase.Leaving? && !ending.OutOfTurns?
      ensures Calm(turn) && (old(stopEvent) ==> reason == StopInterrupted) ==>
                if reason == ToolCalls && !turn.pause then
                  && again && steps == taken + [Judge] + [ToolsDone] + [LoopBack]
                  && runState == old(runState) && stopEvent == old(stopEvent)
                else
                  && !again && steps == taken + [Judge] && View() == Judged(old(View()), reason, turn.pause)
                  && ending == if reason == Other then Blocked else Returned
    {
      var tools: bool;
      var goesOn := true;
      again := false;
      tools, steps := Settle(reason, turn.pause, from, taken);
      if tools {
        goesOn, again, steps := RunTools(turn, from, steps);
      }
      ending := if !goesOn then Torn else if reason == Other then Blocked else Returned;
      if goesOn && !again {
        ending, steps := Leave(turn, ending, from, steps);
      }
    }

    /** The way out suspends once more. */
    method Leave(turn: Turn, how: Ending, ghost from: Gate, ghost taken: seq<Step>)
        returns (ending: Ending, ghost steps: seq<Step>)
      requires Reached(from, taken, View()) && phase.Leaving? && !how.OutOfTurns?
      modifies this
      ensures Reached(from, steps, View()) && Ends(steps) == Ends(taken)
      ensures phase.Leaving? && !ending.OutOfTurns?
      ensures turn.leaving.Nothing? ==> ending == how && View() == old(View()) && steps == taken
    {
      var goesOn: bool;
      goesOn, steps := Suspend(turn.leaving, from, taken);
      ending := if goesOn then how else Torn;
    }

    /**
     The loop of one run, for any turns the outside offers and with interrupts, cancellations and errors
     arriving anywhere: every change is one of the steps, so what is proved of all runs holds of it.  Each
     stream reports what its turn says, and when nothing arrives the turns alone decide what is done.
     */
    method RunLoop(turns: seq<Turn>) returns (ending: Ending, ghost steps: seq<Step>)
      requires phase.Top?
      modifies this
      ensures Runs(old(View()), steps, View()) && Follows(turns, steps)
      ensures if ending.OutOfTurns? then phase.Top? else phase.Leaving?
      ensures AllCalm(turns) ==> Course(turns, old(View()), steps, ending, View())
    {
      ghost var from := View();
      steps := [];
      ReachedAtOnce(from);
      ending := OutOfTurns;
      var k := 0;
      var again := true;
      while again && k < |turns|
        invariant 0 <= k <= |turns| && Reached(from, steps, View())
        invariant if again then phase.Top? && ending.OutOfTurns? else phase.Leaving? && !ending.OutOfTurns?
        invariant Follows(turns[..k], steps) && (again ==> |Ends(steps)| == k)
        invariant AllCalm(turns) ==> Coursing(turns, k, again, from, steps, ending, View())
      {
        var how: Ending;
        ghost var taken, was := steps, View();
        again, how, steps := Round(turns[k], from, steps);
        FollowsOn(turns, k, taken, steps);
        ending := if again then OutOfTurns else how;
        if AllCalm(turns) {
          CourseOn(turns, k, from, taken, was, steps, View(), again, ending);
        }
        k := k + 1;
      }
      ReachedRuns(from, steps, View());
      FollowsAll(turns, k, steps);
      if AllCalm(turns) {
        CourseEnds(turns, k, again, from, steps, ending, View());
      }
    }
  }

  /** The loop after `k` turns in which nothing arrived. */
  ghost predicate Coursing(turns: seq<Turn>, k: nat, again: bool, g: Gate, steps: seq<Step>, ending: Ending, h: Gate) {
    && k <= |turns|
    && if again then CourseAt(turns[..k], k, g, steps, ending, h) && (g.stop ==> k == 0)
       else Course(turns, g, steps, ending, h)
  }

  lemma CourseOn(turns: seq<Turn>, k: nat, g: Gate, taken: seq<Step>, was: Gate, steps: seq<Step>, h: Gate, again: bool,
                 ending: Ending)
    requires k < |turns| && Coursing(turns, k, true, g, taken, OutOfTurns, was)
    requires CalmRound(was, turns[k], taken, steps, h, again, ending) && (again ==> ending == OutOfTurns)
    ensures Coursing(turns, k + 1, again, g, steps, ending, h)
  {
    assert forall j {:trigger turns[j]} :: 0 <= j < k ==> turns[..k][j] == turns[j];
    if g.stop {
      assert [] + [BeginStream, EndStream(StopInterrupted, turns[0].pause), Judge]
          == [BeginStream, EndStream(StopInterrupted, turns[0].pause), Judge];
    } else if !again {
      assert CourseAt(turns, k, g, steps, ending, h);
    }
  }

  lemma CourseEnds(turns: seq<Turn>, k: nat, again: bool, g: Gate, steps: seq<Step>, ending: Ending, h: Gate)
    requires Coursing(turns, k, again, g, steps, ending, h) && (again ==> k == |turns|)
    ensures Course(turns, g, steps, ending, h)
  {
    if again {
      assert turns[..k] == turns;
    }
  }

  lemma FollowsAll(turns: seq<Turn>, k: nat, steps: seq<Step>)
    requires k <= |turns| && Follows(turns[..k], steps)
    ensures Follows(turns, steps)
  {
    forall j | 0 <= j < |Ends(steps)|
      ensures TurnReports(turns[j], Ends(steps)[j])
    {
      assert TurnReports(turns[..k][j], Ends(steps)[j]);
    }
  }
}
