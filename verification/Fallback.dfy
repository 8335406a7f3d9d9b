/**
 Two levels of fallback: from the Responses API to Chat completions at one endpoint, and from one target
 to the next.  What an attempt would deliver and how it would end is the outside's choice.
 */
module Fallback {
  import opened Basics

  datatype Protocol = Responses | Chat | Local

  /** A piece of output, or the end of the stream with the targets tried. */
  datatype Event = Part(content: string) | End(reason: string, path: seq<string>)

  /** How one attempt goes: its events, then an end or an error code. */
  datatype Attempt = Attempt(events: seq<Event>, error: Option<string>)

  datatype Endpoint = Endpoint(responses: Attempt, chat: Attempt)

  /** A target of the route; its endpoint may be missing. */
  datatype Target = Target(name: string, endpoint: Option<Endpoint>)

  predicate FallsThrough(code: string) {
    code == "gateway_auth_failed" || code == "gateway_model_unavailable"
    || code == "gateway_temporarily_unavailable" || code == "gateway_unreachable"
  }

  predicate FallsToChat(code: string) {
    FallsThrough(code) || code == "gateway_request_failed"
  }

  /** An attempt that delivered nothing and failed in a way the next one may make good. */
  predicate Fruitless(a: Attempt, code: string -> bool) {
    a.events == [] && a.error.Some? && code(a.error.value)
  }

  // ---------------------------------------------------------------- one endpoint

  /** The attempt that an endpoint's caller hears. */
  function Heard(e: Endpoint, stopped: bool): (Protocol, Attempt) {
    if stopped then (Local, Attempt([End("interrupted", [])], None))
    else if Fruitless(e.responses, FallsToChat) then (Chat, e.chat)
    else (Responses, e.responses)
  }

  /** An attempt at a target by one of the two protocols. */
  datatype Made = Made(target: nat, protocol: Protocol)

  /** Asks the endpoint once; `log` is what was asked before, of any endpoint. */
  method Ask(e: Endpoint, protocol: Protocol, ghost k: nat, ghost log: seq<Made>)
      returns (attempt: Attempt, ghost made: seq<Made>)
    requires !protocol.Local?
    ensures attempt == if protocol.Responses? then e.responses else e.chat
    ensures made == log + [Made(k, protocol)]
  {
    attempt := if protocol.Responses? then e.responses else e.chat;
    made := log + [Made(k, protocol)];
  }

  /** The endpoint is asked nothing, once, or a second time by Chat. */
  function MadeAt(e: Endpoint, stopped: bool, k: nat): seq<Made> {
    if stopped then []
    else if Fruitless(e.responses, FallsToChat) then [Made(k, Responses), Made(k, Chat)]
    else [Made(k, Responses)]
  }

  /** The codes after which the next target is tried; after one more the same endpoint is asked by Chat. */
  predicate MovesOn(code: string, byChat: bool) {
    match code
    case "gateway_auth_failed" => true
    case "gateway_model_unavailable" => true
    case "gateway_temporarily_unavailable" => true
    case "gateway_unreachable" => true
    case "gateway_request_failed" => byChat
    case _ => false
  }

  /** Nothing was delivered, and the error is one to move on after. */
  predicate Failed(events: seq<Event>, error: Option<string>, byChat: bool) {
    match error
    case None => false
    case Some(code) => events == [] && MovesOn(code, byChat)
  }

  /** What the caller of an endpoint hears, and how often and how the endpoint is asked for it. */
  ghost predicate Hears(e: Endpoint, stopped: bool, k: nat, sent: seq<Event>, error: Option<string>,
                        cleared: bool, asked: seq<Made>) {
    if stopped then sent == [End("interrupted", [])] && error == None && !cleared && asked == []
    else if Failed(e.responses.events, e.responses.error, true) then
      && sent == e.chat.events && error == e.chat.error && cleared
      && asked == [Made(k, Responses), Made(k, Chat)]
    else
      && sent == e.responses.events && error == e.responses.error && !cleared
      && asked == [Made(k, Responses)]
  }

  lemma HeardExact(e: Endpoint, stopped: bool, k: nat)
    ensures var (protocol, attempt) := Heard(e, stopped);
            Hears(e, stopped, k, attempt.events, attempt.error, protocol == Chat, MadeAt(e, stopped, k))
  {
  }

  /** Streams from the Responses API; only if nothing came and the error allows it, from Chat instead. */
  method EndpointStream(e: Endpoint, stopped: bool, ghost k: nat, ghost log: seq<Made>)
      returns (sent: seq<Event>, error: Option<string>, cleared: bool, ghost made: seq<Made>)
    ensures Attempt(sent, error) == Heard(e, stopped).1
    ensures cleared <==> Heard(e, stopped).0 == Chat
    ensures made == log + MadeAt(e, stopped, k)
    ensures Hears(e, stopped, k, sent, error, cleared, MadeAt(e, stopped, k))
  {
    HeardExact(e, stopped, k);
    sent, error, cleared, made := [], None, false, log;
    if stopped {
      sent := [End("interrupted", [])];
      return;
    }
    var attempt: Attempt;
    attempt, made := Ask(e, Responses, k, made);
    var emitted := false;
    var n := 0;
    while n < |attempt.events|
      invariant 0 <= n <= |attempt.events|
      invariant sent == attempt.events[..n] && emitted == (n > 0)
    {
      emitted := true;
      sent := sent + [attempt.events[n]];
      n := n + 1;
    }
    if attempt.error.None? {
      return;
    }
    if emitted || !FallsToChat(attempt.error.value) {
      error := attempt.error;
      return;
    }
    cleared := true;
    attempt, made := Ask(e, Chat, k, made);
    n := 0;
    while n < |attempt.events|
      invariant 0 <= n <= |attempt.events| && sent == attempt.events[..n]
    {
      sent := sent + [attempt.events[n]];
      n := n + 1;
    }
    error := attempt.error;
  }

  // ---------------------------------------------------------------- the route

  /** A target that gives way to the next one. */
  predicate GivesWay(t: Target, stopped: bool) {
    t.endpoint.None? || Fruitless(Heard(t.endpoint.value, stopped).1, FallsThrough)
  }

  function CodeOf(t: Target, stopped: bool): string
    requires GivesWay(t, stopped)
  {
    if t.endpoint.None? then "gateway_model_unavailable" else Heard(t.endpoint.value, stopped).1.error.value
  }

  function Names(targets: seq<Target>): seq<string> {
    if targets == [] then [] else Names(Front(targets)) + [Last(targets).name]
  }

  lemma NamesOn(targets: seq<Target>, k: nat)
    requires k < |targets|
    ensures Names(targets[..k]) + [targets[k].name] == Names(targets[..k + 1])
  {
    assert Front(targets[..k + 1]) == targets[..k];
  }

  /** The end of a stream is told the targets tried. */
  function WithPath(event: Event, path: seq<string>): Event {
    if event.End? then event.(path := path) else event
  }

  function AllWithPath(events: seq<Event>, path: seq<string>): seq<Event> {
    if events == [] then [] else AllWithPath(Front(events), path) + [WithPath(Last(events), path)]
  }

  lemma {:induction false} AllWithPathEmpty(events: seq<Event>, path: seq<string>)
    ensures AllWithPath(events, path) == [] <==> events == []
  {
  }

  /** The first target from `k` on that does not give way; past the end when all do. */
  function Standing(targets: seq<Target>, stopped: seq<bool>, k: nat): (w: nat)
    requires |stopped| == |targets| && k <= |targets|
    ensures k <= w <= |targets|
    ensures forall j :: k <= j < w ==> GivesWay(targets[j], stopped[j])
    ensures w < |targets| ==> !GivesWay(targets[w], stopped[w])
    decreases |targets| - k
  {
    if k < |targets| && GivesWay(targets[k], stopped[k]) then Standing(targets, stopped, k + 1) else k
  }

  function MadeFor(t: Target, stopped: bool, k: nat): seq<Made> {
    if t.endpoint.None? then [] else MadeAt(t.endpoint.value, stopped, k)
  }

  /** The attempts made from target `k` on, in order. */
  function AttemptsFrom(targets: seq<Target>, stopped: seq<bool>, k: nat): seq<Made>
    requires |stopped| == |targets| && k <= |targets|
    decreases |targets| - k
  {
    if k == |targets| then []
    else MadeFor(targets[k], stopped[k], k)
         + if GivesWay(targets[k], stopped[k]) then AttemptsFrom(targets, stopped, k + 1) else []
  }

  lemma {:induction false} NamesExact(targets: seq<Target>)
    ensures |Names(targets)| == |targets|
    ensures forall k {:trigger targets[k]} :: 0 <= k < |targets| ==> Names(targets)[k] == targets[k].name
  {
    if targets != [] {
      NamesExact(Front(targets));
    }
  }

  lemma {:induction false} PathTold(events: seq<Event>, path: seq<string>)
    ensures Forwarded(events, path, AllWithPath(events, path))
  {
    if events != [] {
      PathTold(Front(events), path);
    }
  }

  /** Events as they came, but that each end is told the path. */
  ghost predicate Forwarded(events: seq<Event>, path: seq<string>, sent: seq<Event>) {
    && |sent| == |events|
    && forall k {:trigger events[k]} :: 0 <= k < |events| ==>
         sent[k] == if events[k].Part? then events[k] else End(events[k].reason, path)
  }

  /** The target has no endpoint, or what is heard there is a failure to move on after; `code` says which. */
  ghost predicate Passes(t: Target, stopped: bool, code: string) {
    match t.endpoint
    case None => code == "gateway_model_unavailable"
    case Some(e) =>
      && !stopped
      && if Failed(e.responses.events, e.responses.error, true) then
           Failed(e.chat.events, e.chat.error, false) && e.chat.error == Some(code)
         else Failed(e.responses.events, e.responses.error, false) && e.responses.error == Some(code)
  }

  ghost predicate PassedOver(t: Target, stopped: bool) {
    exists code :: Passes(t, stopped, code)
  }

  /** What the caller of the route hears when the first `w` targets are passed over. */
  ghost predicate RouteAt(targets: seq<Target>, stopped: seq<bool>, w: nat, sent: seq<Event>, error: Option<string>)
    requires |stopped| == |targets|
  {
    && w <= |targets|
    && (forall k {:trigger PassedOver(targets[k], stopped[k])} :: 0 <= k < w ==> PassedOver(targets[k], stopped[k]))
    && if w < |targets| then
         && !PassedOver(targets[w], stopped[w]) && targets[w].endpoint.Some?
         && exists events, cleared, asked, path {:trigger Reaches(targets, stopped, w, events, error, cleared, asked,
                                                                  path, sent)} ::
              Reaches(targets, stopped, w, events, error, cleared, asked, path, sent)
       else
         && sent == [] && (targets == [] ==> error == Some("gateway_model_unavailable"))
         && (targets != [] ==> error.Some? && Passes(Last(targets), Last(stopped), error.value))
  }

  /** The endpoint of target `w` is heard, with the names of the targets up to it as the path. */
  ghost predicate Reaches(targets: seq<Target>, stopped: seq<bool>, w: nat, events: seq<Event>,
                          error: Option<string>, cleared: bool, asked: seq<Made>, path: seq<string>, sent: seq<Event>)
    requires |stopped| == |targets| && w < |targets| && targets[w].endpoint.Some?
  {
    && Hears(targets[w].endpoint.value, stopped[w], w, events, error, cleared, asked) && Forwarded(events, path, sent)
    && |path| == w + 1 && forall k {:trigger path[k]} :: 0 <= k <= w ==> path[k] == targets[k].name
  }

  lemma GivesWayExact(t: Target, stopped: bool)
    ensures GivesWay(t, stopped) ==> Passes(t, stopped, CodeOf(t, stopped))
    ensures GivesWay(t, stopped) <==> PassedOver(t, stopped)
  {
    if GivesWay(t, stopped) {
      assert Passes(t, stopped, CodeOf(t, stopped));
    } else if code :| Passes(t, stopped, code) {
      PassesGivesWay(t, stopped, code);
    }
  }

  lemma PassesGivesWay(t: Target, stopped: bool, code: string)
    requires Passes(t, stopped, code)
    ensures GivesWay(t, stopped)
  {
  }

  /** The targets passed over and the one heard, in the fields of the targets. */
  lemma RouteExact(targets: seq<Target>, stopped: seq<bool>)
    requires |stopped| == |targets|
    ensures var w := Standing(targets, stopped, 0);
            if w < |targets| then
              var heard := Heard(targets[w].endpoint.value, stopped[w]).1;
              RouteAt(targets, stopped, w, AllWithPath(heard.events, Names(targets[..w + 1])), heard.error)
            else
              RouteAt(targets, stopped, w, [], Some(if targets == [] then "gateway_model_unavailable"
                                                    else CodeOf(Last(targets), Last(stopped))))
  {
    var w := Standing(targets, stopped, 0);
    forall k | 0 <= k < w
      ensures PassedOver(targets[k], stopped[k])
    {
      GivesWayExact(targets[k], stopped[k]);
    }
    if w < |targets| {
      GivesWayExact(targets[w], stopped[w]);
      RouteHeard(targets, stopped, w);
    } else {
      RouteEmpty(targets, stopped);
    }
  }

  lemma RouteEmpty(targets: seq<Target>, stopped: seq<bool>)
    requires |stopped| == |targets|
    requires forall k {:trigger PassedOver(targets[k], stopped[k])} ::
               0 <= k < |targets| ==> PassedOver(targets[k], stopped[k])
    requires targets != [] ==> GivesWay(Last(targets), Last(stopped))
    ensures RouteAt(targets, stopped, |targets|, [], Some(if targets == [] then "gateway_model_unavailable"
                                                          else CodeOf(Last(targets), Last(stopped))))
  {
    if targets != [] {
      GivesWayExact(Last(targets), Last(stopped));
    }
  }

  lemma RouteHeard(targets: seq<Target>, stopped: seq<bool>, w: nat)
    requires |stopped| == |targets| && w < |targets| && targets[w].endpoint.Some?
    requires forall k {:trigger PassedOver(targets[k], stopped[k])} :: 0 <= k < w ==> PassedOver(targets[k], stopped[k])
    requires !PassedOver(targets[w], stopped[w])
    ensures var heard := Heard(targets[w].endpoint.value, stopped[w]).1;
            RouteAt(targets, stopped, w, AllWithPath(heard.events, Names(targets[..w + 1])), heard.error)
  {
    HeardReaches(targets, stopped, w);
  }

  lemma HeardReaches(targets: seq<Target>, stopped: seq<bool>, w: nat)
    requires |stopped| == |targets| && w < |targets| && targets[w].endpoint.Some?
    ensures var e := targets[w].endpoint.value;
            var (protocol, attempt) := Heard(e, stopped[w]);
            var path := Names(targets[..w + 1]);
            Reaches(targets, stopped, w, attempt.events, attempt.error, protocol == Chat, MadeAt(e, stopped[w], w),
                    path, AllWithPath(attempt.events, path))
  {
    var e := targets[w].endpoint.value;
    HeardExact(e, stopped[w], w);
    NamesExact(targets[..w + 1]);
    PathTold(Heard(e, stopped[w]).1.events, Names(targets[..w + 1]));
    assert forall k {:trigger targets[k]} :: 0 <= k <= w ==> targets[..w + 1][k] == targets[k];
  }

  /**
   The caller hears the first target that does not give way, and only that one; its end of stream names
   the targets up to it, in order.  When every target gives way the caller gets the last one's error.
   `stopped` says for each target whether the stop event is set when its stream begins; `made` is
   the log that each attempt extends where it begins.
   */
  method GatewayStream(targets: seq<Target>, stopped: seq<bool>)
    returns (sent: seq<Event>, error: Option<string>, ghost made: seq<Made>)
    requires |stopped| == |targets|
    ensures var w := Standing(targets, stopped, 0);
            if w < |targets| then
              var heard := Heard(targets[w].endpoint.value, stopped[w]).1;
              sent == AllWithPath(heard.events, Names(targets[..w + 1])) && error == heard.error
            else
              sent == [] && error == Some(if targets == [] then "gateway_model_unavailable"
                                          else CodeOf(Last(targets), Last(stopped)))
    ensures made == AttemptsFrom(targets, stopped, 0)
  {
    var attempted: seq<string> := [];
    var lastError: Option<string> := None;
    var k := 0;
    sent, made := [], [];
    while k < |targets|
      invariant 0 <= k <= |targets| && Standing(targets, stopped, 0) == Standing(targets, stopped, k)
      invariant sent == [] && attempted == Names(targets[..k])
      invariant Logged(targets, stopped, k, made)
      invariant k == 0 ==> lastError == None
      invariant 0 < k ==> GivesWay(targets[k - 1], stopped[k - 1])
                          && lastError == Some(CodeOf(targets[k - 1], stopped[k - 1]))
    {
      NamesOn(targets, k);
      attempted := attempted + [targets[k].name];
      var next: bool;
      AttemptsStep(targets, stopped, k, made);
      sent, error, next, made := Try(targets[k], stopped[k], attempted, k, made);
      if !next {
        return;
      }
      lastError := error;
      k := k + 1;
    }
    assert made + [] == made;
    error := if lastError.Some? then lastError else Some("gateway_model_unavailable");
  }

  /** What is left from `k` on completes the log. */
  ghost predicate Logged(targets: seq<Target>, stopped: seq<bool>, k: nat, made: seq<Made>)
    requires |stopped| == |targets| && k <= |targets|
  {
    made + AttemptsFrom(targets, stopped, k) == AttemptsFrom(targets, stopped, 0)
  }

  lemma AttemptsStep(targets: seq<Target>, stopped: seq<bool>, k: nat, made: seq<Made>)
    requires |stopped| == |targets| && k < |targets| && Logged(targets, stopped, k, made)
    ensures var more := made + MadeFor(targets[k], stopped[k], k);
            if GivesWay(targets[k], stopped[k]) then Logged(targets, stopped, k + 1, more)
            else more == AttemptsFrom(targets, stopped, 0)
  {
    var here := MadeFor(targets[k], stopped[k], k);
    if GivesWay(targets[k], stopped[k]) {
      Regroup(made, here, AttemptsFrom(targets, stopped, k + 1));
    } else {
      assert here + [] == here;
    }
  }

  /** One target: heard, or passed over for the next. */
  method Try(target: Target, stopped: bool, path: seq<string>, ghost k: nat, ghost log: seq<Made>)
      returns (sent: seq<Event>, error: Option<string>, next: bool, ghost made: seq<Made>)
    ensures made == log + MadeFor(target, stopped, k)
    ensures next == GivesWay(target, stopped)
    ensures next ==> sent == [] && error == Some(CodeOf(target, stopped))
    ensures !next ==> var heard := Heard(target.endpoint.value, stopped).1;
                      sent == AllWithPath(heard.events, path) && error == heard.error
  {
    if target.endpoint.None? {
      return [], Some("gateway_model_unavailable"), true, log;
    }
    var events: seq<Event>;
    var failure: Option<string>;
    var cleared: bool;
    events, failure, cleared, made := EndpointStream(target.endpoint.value, stopped, k, log);
    sent := Forward(events, path);
    AllWithPathEmpty(events, path);
    error := failure;
    next := !(failure.None? || sent != [] || !FallsThrough(failure.value));
  }

  method Forward(events: seq<Event>, path: seq<string>) returns (sent: seq<Event>)
    ensures sent == AllWithPath(events, path)
  {
    sent := [];
    var k := 0;
    while k < |events|
      invariant 0 <= k <= |events|
      invariant sent == AllWithPath(events[..k], path)
    {
      assert Front(events[..k + 1]) == events[..k];
      sent := sent + [WithPath(events[k], path)];
      k := k + 1;
    }
    assert events[..k] == events;
  }

  // ---------------------------------------------------------------- single source

  /** `m` is an attempt at a present endpoint. */
  predicate Real(targets: seq<Target>, m: Made) {
    m.target < |targets| && targets[m.target].endpoint.Some? && !m.protocol.Local?
  }

  function AttemptOf(targets: seq<Target>, m: Made): Attempt
    requires Real(targets, m)
  {
    var e := targets[m.target].endpoint.value;
    if m.protocol.Responses? then e.responses else e.chat
  }

  /**
   `m` delivered nothing and failed: with a code that moves on to Chat, and where it was the last attempt
   at its target, with one that moves on to the next target.
   */
  predicate Superseded(targets: seq<Target>, m: Made) {
    && Real(targets, m)
    && Fruitless(AttemptOf(targets, m), FallsToChat)
    && (m.protocol.Chat? ==> Fruitless(AttemptOf(targets, m), FallsThrough))
  }

  /** Every attempt but the last was superseded; the last one too when `all` were in vain. */
  ghost predicate InVain(targets: seq<Target>, made: seq<Made>, all: bool) {
    forall a {:trigger made[a]} :: 0 <= a < |made| && (all || a + 1 < |made|) ==> Superseded(targets, made[a])
  }

  lemma MadeInVain(targets: seq<Target>, stopped: seq<bool>, k: nat)
    requires |stopped| == |targets| && k < |targets|
    ensures InVain(targets, MadeFor(targets[k], stopped[k], k), GivesWay(targets[k], stopped[k]))
  {
  }

  lemma InVainConcat(targets: seq<Target>, here: seq<Made>, rest: seq<Made>, all: bool)
    requires InVain(targets, here, true) && InVain(targets, rest, all)
    ensures InVain(targets, here + rest, all)
  {
    var made := here + rest;
    forall a | 0 <= a < |made| && (all || a + 1 < |made|)
      ensures Superseded(targets, made[a])
    {
      if a < |here| {
        assert made[a] == here[a];
      } else {
        assert made[a] == rest[a - |here|];
      }
    }
  }

  lemma {:induction false} EarlierInVain(targets: seq<Target>, stopped: seq<bool>, k: nat)
    requires |stopped| == |targets| && k <= |targets|
    ensures var w := Standing(targets, stopped, k);
            InVain(targets, AttemptsFrom(targets, stopped, k), w == |targets| || stopped[w])
    decreases |targets| - k
  {
    if k < |targets| {
      var here := MadeFor(targets[k], stopped[k], k);
      MadeInVain(targets, stopped, k);
      if GivesWay(targets[k], stopped[k]) {
        EarlierInVain(targets, stopped, k + 1);
        var w := Standing(targets, stopped, k + 1);
        InVainConcat(targets, here, AttemptsFrom(targets, stopped, k + 1), w == |targets| || stopped[w]);
      } else {
        assert here + [] == here;
      }
    }
  }

  /** `made` ends with the attempt at target `w` that the caller hears. */
  ghost predicate EndsHeard(targets: seq<Target>, made: seq<Made>, w: nat)
    requires w < |targets| && targets[w].endpoint.Some?
  {
    && made != [] && Real(targets, Last(made)) && Last(made).target == w
    && AttemptOf(targets, Last(made)) == Heard(targets[w].endpoint.value, false).1
  }

  lemma {:induction false} LastIsHeard(targets: seq<Target>, stopped: seq<bool>, k: nat)
    requires |stopped| == |targets| && k <= |targets|
    ensures var w := Standing(targets, stopped, k);
            w < |targets| && !stopped[w] ==> EndsHeard(targets, AttemptsFrom(targets, stopped, k), w)
    decreases |targets| - k
  {
    if k < |targets| {
      var here := MadeFor(targets[k], stopped[k], k);
      if GivesWay(targets[k], stopped[k]) {
        LastIsHeard(targets, stopped, k + 1);
        var rest := AttemptsFrom(targets, stopped, k + 1);
        assert rest != [] ==> Last(here + rest) == Last(rest);
      } else {
        assert here + [] == here;
      }
    }
  }

  /**
   Whatever reaches the caller comes from one attempt, the last one made.  Every attempt before it — and
   every attempt at all when all targets give way or the one heard is stopped — delivered nothing and
   failed with a code that allows the next.
   */
  lemma SingleSource(targets: seq<Target>, stopped: seq<bool>, k: nat)
    requires |stopped| == |targets| && k <= |targets|
    ensures var made, w := AttemptsFrom(targets, stopped, k), Standing(targets, stopped, k);
            && InVain(targets, made, w == |targets| || stopped[w])
            && (w < |targets| && !stopped[w] ==> EndsHeard(targets, made, w))
  {
    EarlierInVain(targets, stopped, k);
    LastIsHeard(targets, stopped, k);
  }

  /** Once the stop event is set nothing is asked of any endpoint: the first one there says so itself. */
  lemma {:induction false} StoppedAnswersLocally(targets: seq<Target>, stopped: seq<bool>, k: nat)
    requires |stopped| == |targets| && k <= |targets|
    requires forall j :: 0 <= j < |stopped| ==> stopped[j]
    ensures AttemptsFrom(targets, stopped, k) == []
    ensures var w := Standing(targets, stopped, k);
            && (w < |targets| <==> exists j :: k <= j < |targets| && targets[j].endpoint.Some?)
            && (w < |targets| ==>
                  Heard(targets[w].endpoint.value, stopped[w]) == (Local, Attempt([End("interrupted", [])], None)))
    decreases |targets| - k
  {
    if k < |targets| {
      if GivesWay(targets[k], stopped[k]) {
        StoppedAnswersLocally(targets, stopped, k + 1);
        assert targets[k].endpoint.None?;
      } else {
        assert targets[k].endpoint.Some?;
      }
    }
  }
}
