/**
  How a turn goes on, how it ends and what it costs, told from the raw replies alone (internal/assistant/loop.go):
  a reference account that shares nothing with the loop's own specification.
 */
module AskOutcomes {
  import opened Conversation
  import opened History
  import opened Wrappers
  import opened AskLoop
  import opened AskStream
  import opened AskGuarantees
  import opened StreamGuarantees

  // ---- What a reply asks for ----

  /** The calls to run: the reply's own, or the one that its text spells out. */
  function CallsIn(w: World, r: Response): seq<ToolCall> {
    if r.calls != [] then r.calls
    else if w.blank(r.text) then []
    else
      match w.stray(r.text)
      case Some(call) => [call]
      case None => []
  }

  /** A text that was a call is not said. */
  function TextIn(w: World, r: Response): string {
    if r.calls == [] && CallsIn(w, r) != [] then "" else r.text
  }

  /** The result of a call run as tool number n: its name is repaired once by the loop and again by the tools. */
  function ResultFor(w: World, c: ToolCall, n: nat): ToolResult {
    var name := w.resolve(ToolCall(c.id, w.resolve(c), c.input));
    var out := w.exec(n, ToolCall(c.id, name, c.input));
    ToolResult(c.id, name, out.0, out.1)
  }

  function StepFor(w: World, c: ToolCall, n: nat): Step {
    Step(w.resolve(c), c.input, ResultFor(w, c, n).content, ResultFor(w, c, n).isError)
  }

  function ResultsFor(w: World, calls: seq<ToolCall>, n: nat): seq<ToolResult> {
    seq(|calls|, j requires 0 <= j < |calls| => ResultFor(w, calls[j], n + j))
  }

  function StepsFor(w: World, calls: seq<ToolCall>, n: nat): seq<Step> {
    seq(|calls|, j requires 0 <= j < |calls| => StepFor(w, calls[j], n + j))
  }

  /** The turn is cancelled before one of the calls. */
  ghost predicate Interrupted(w: World, calls: seq<ToolCall>, n: nat) {
    exists m :: n <= m < n + |calls| && w.cancelled(m)
  }

  lemma RunsAsTold(w: World, calls: seq<ToolCall>, n: nat)
    ensures var ran := RunTools(w, calls, n);
            var k := |ran.results|;
            && ran.results == ResultsFor(w, calls[..k], n) && ran.steps == StepsFor(w, calls[..k], n)
            && (ran.finished <==> !Interrupted(w, calls, n))
            && RunsUpTo(w, calls, n, k)
  {
    var ran := RunTools(w, calls, n);
    RunToolsRuns(w, calls, n);
    AllAsTold(w, calls[..|ran.results|], n, ran.results, ran.steps);
  }

  lemma AllAsTold(w: World, calls: seq<ToolCall>, n: nat, results: seq<ToolResult>, steps: seq<Step>)
    requires |calls| == |results| == |steps|
    requires forall j :: 0 <= j < |calls| ==> RanAs(w, calls[j], n + j, results[j], steps[j])
    ensures results == ResultsFor(w, calls, n) && steps == StepsFor(w, calls, n)
    ensures forall m :: n <= m < n + |calls| ==> !w.cancelled(m)
  {
    forall j | 0 <= j < |calls|
      ensures results[j] == ResultFor(w, calls[j], n + j) && steps[j] == StepFor(w, calls[j], n + j)
    {
      RanAsTold(w, calls[j], n + j, results[j], steps[j]);
    }
    forall m | n <= m < n + |calls|
      ensures !w.cancelled(m)
    {
      var j := m - n;
      assert RanAs(w, calls[j], n + j, results[j], steps[j]);
    }
  }

  lemma RanAsTold(w: World, call: ToolCall, n: nat, result: ToolResult, step: Step)
    requires RanAs(w, call, n, result, step)
    ensures result == ResultFor(w, call, n) && step == StepFor(w, call, n)
  {
  }

  /** The first k calls run: all of them, unless the turn is cancelled before call k. */
  ghost predicate RunsUpTo(w: World, calls: seq<ToolCall>, n: nat, k: nat) {
    && k <= |calls| && (forall m :: n <= m < n + k ==> !w.cancelled(m))
    && (k < |calls| ==> w.cancelled(n + k))
  }

  // ---- Replies after which the turn goes on ----

  /** `n` tools ran before in the turn. */
  ghost predicate GoesOn(w: World, reply: Reply, n: nat) {
    match reply
    case ToolCallUnparsed => true
    case ProviderFailed(_) => false
    case Replied(r) => !r.truncated && CallsIn(w, r) != [] && !Interrupted(w, CallsIn(w, r), n)
  }

  function Exchange(w: World, r: Response, n: nat): Transcript {
    [Message(Assistant, TextIn(w, r), CallsIn(w, r), []), Message(User, "", [], ResultsFor(w, CallsIn(w, r), n))]
  }

  /** What such a reply adds to the transcript. */
  function Added(w: World, reply: Reply, n: nat): Transcript {
    match reply
    case Replied(r) => Exchange(w, r, n)
    case _ => []
  }

  function CallsOf(w: World, reply: Reply): seq<ToolCall> {
    match reply
    case Replied(r) => CallsIn(w, r)
    case _ => []
  }

  /** How many tools the replies to these requests had run, and the steps they took. */
  function StepsTold(w: World, requests: seq<Transcript>): seq<Step> {
    if requests == [] then []
    else
      var n := |requests| - 1;
      var before := StepsTold(w, requests[..n]);
      before + StepsFor(w, CallsOf(w, w.chat(n, requests[n])), |before|)
  }

  function ToolsBefore(w: World, requests: seq<Transcript>): nat {
    |StepsTold(w, requests)|
  }

  /** Every request is the one before it and what its reply added, and so are the messages after the last one. */
  ghost predicate Unfolds(w: World, first: Transcript, requests: seq<Transcript>, messages: Transcript) {
    if requests == [] then messages == first
    else
      var n := |requests| - 1;
      var reply, ran := w.chat(n, requests[n]), ToolsBefore(w, requests[..n]);
      && GoesOn(w, reply, ran) && messages == requests[n] + Added(w, reply, ran)
      && Unfolds(w, first, requests[..n], requests[n])
  }

  function UnparsedIn(w: World, requests: seq<Transcript>): nat {
    if requests == [] then 0
    else
      var n := |requests| - 1;
      UnparsedIn(w, requests[..n]) + if w.chat(n, requests[n]).ToolCallUnparsed? then 1 else 0
  }

  function RepliedIn(w: World, requests: seq<Transcript>): nat {
    if requests == [] then 0
    else
      var n := |requests| - 1;
      RepliedIn(w, requests[..n]) + if w.chat(n, requests[n]).Replied? then 1 else 0
  }

  // ---- How it ends ----

  ghost function Ending(w: World, reply: Reply, n: nat): Option<AskError> {
    match reply
    case ToolCallUnparsed => Some(Unparsed)
    case ProviderFailed(reason) => Some(Provider(reason))
    case Replied(r) =>
      if r.truncated then Some(OutOfOutputTokens)
      else if CallsIn(w, r) != [] then if Interrupted(w, CallsIn(w, r), n) then Some(Cancelled) else Some(GaveUp)
      else if w.blank(r.text) then Some(NothingReturned)
      else if w.jsonLike(r.text) then Some(StrayToolCall)
      else None
  }

  /** What the last reply adds to the transcript. */
  ghost function LastAdded(w: World, reply: Reply, n: nat): Transcript {
    match reply
    case Replied(r) =>
      if r.truncated then []
      else if CallsIn(w, r) == [] then [Message(Assistant, r.text, [], [])]
      else if Interrupted(w, CallsIn(w, r), n) then [Message(Assistant, TextIn(w, r), CallsIn(w, r), [])]
      else Exchange(w, r, n)
    case _ => []
  }

  /** The calls of the last reply that ran, and the steps of the whole turn. */
  ghost predicate StepsEnd(w: World, reply: Reply, before: seq<Step>, steps: seq<Step>) {
    var calls := if reply.Replied? && !reply.response.truncated then CallsIn(w, reply.response) else [];
    exists k: nat :: RunsUpTo(w, calls, |before|, k) && steps == before + StepsFor(w, calls[..k], |before|)
  }

  ghost predicate EndsSo(w: World, first: Transcript, end: Progress) {
    && end.Stop? && end.st.requests != []
    && var n := |end.st.requests| - 1;
       var before := end.st.requests[..n];
       var reply, ran := w.chat(n, end.st.requests[n]), ToolsBefore(w, before);
       && Unfolds(w, first, before, end.st.requests[n])
       && end.err == Ending(w, reply, ran)
       && end.st.messages == end.st.requests[n] + LastAdded(w, reply, ran)
       && StepsEnd(w, reply, StepsTold(w, before), end.st.turn.steps)
       && (end.err == Some(GaveUp) ==> RepliedIn(w, end.st.requests) == 8)
       && RepliedIn(w, end.st.requests) <= 8
       && UnparsedIn(w, end.st.requests) == (if end.err == Some(Unparsed) then 4 else UnparsedIn(w, before))
       && UnparsedIn(w, before) <= 3
  }

  // ---- The loop does so ----

  ghost predicate OnItsWay(w: World, first: Transcript, st: LoopState) {
    && Unfolds(w, first, st.requests, st.messages)
    && st.turn.steps == StepsTold(w, st.requests)
    && RepliedIn(w, st.requests) == st.round <= 8 && UnparsedIn(w, st.requests) == st.unparsed <= 3
    && (st.round == 8 ==>
          st.requests != [] && w.chat(|st.requests| - 1, st.requests[|st.requests| - 1]).Replied?)
  }

  lemma RequestsMore(w: World, requests: seq<Transcript>, next: Transcript)
    ensures var reply := w.chat(|requests|, next);
            && StepsTold(w, requests + [next])
               == StepsTold(w, requests) + StepsFor(w, CallsOf(w, reply), ToolsBefore(w, requests))
            && RepliedIn(w, requests + [next]) == RepliedIn(w, requests) + (if reply.Replied? then 1 else 0)
            && UnparsedIn(w, requests + [next]) == UnparsedIn(w, requests) + if reply.ToolCallUnparsed? then 1 else 0
  {
    assert (requests + [next])[..|requests|] == requests;
  }

  lemma UnfoldsMore(w: World, first: Transcript, requests: seq<Transcript>, next: Transcript, messages: Transcript)
    requires Unfolds(w, first, requests, next)
    requires GoesOn(w, w.chat(|requests|, next), ToolsBefore(w, requests))
    requires messages == next + Added(w, w.chat(|requests|, next), ToolsBefore(w, requests))
    ensures Unfolds(w, first, requests + [next], messages)
  {
    assert (requests + [next])[..|requests|] == requests;
  }

  /** A round by its raw reply. */
  lemma RoundByReply(w: World, st: LoopState)
    ensures var p, reply, ran := Round(w, st), w.chat(|st.requests|, st.messages), |st.turn.steps|;
            && p.st.requests == st.requests + [st.messages]
            && (p.Again? <==> GoesOn(w, reply, ran) && (reply.ToolCallUnparsed? ==> st.unparsed < 3))
            && (p.Again? ==> && p.st.messages == st.messages + Added(w, reply, ran)
                             && p.st.turn.steps == st.turn.steps + StepsFor(w, CallsOf(w, reply), ran)
                             && p.st.round == st.round + (if reply.Replied? then 1 else 0)
                             && p.st.unparsed == st.unparsed + (if reply.Replied? then 0 else 1))
  {
    var reply, ran := w.chat(|st.requests|, st.messages), |st.turn.steps|;
    if reply.Replied? {
      RunsAsTold(w, CallsIn(w, reply.response), ran);
      assert CallsIn(w, reply.response)[..|CallsIn(w, reply.response)|] == CallsIn(w, reply.response);
      assert st.messages + [Message(Assistant, TextIn(w, reply.response), CallsIn(w, reply.response), [])]
             + [Message(User, "", [], ResultsFor(w, CallsIn(w, reply.response), ran))]
          == st.messages + Exchange(w, reply.response, ran);
    } else {
      assert st.messages + [] == st.messages;
      assert st.turn.steps + [] == st.turn.steps;
    }
  }

  /** A round that ends the turn, by its raw reply. */
  lemma LastRoundByReply(w: World, st: LoopState)
    requires Round(w, st).Stop?
    ensures var p, reply, ran := Round(w, st), w.chat(|st.requests|, st.messages), |st.turn.steps|;
            && p.err == Ending(w, reply, ran)
            && p.st.messages == st.messages + LastAdded(w, reply, ran)
            && StepsEnd(w, reply, st.turn.steps, p.st.turn.steps)
  {
    var p, reply, ran := Round(w, st), w.chat(|st.requests|, st.messages), |st.turn.steps|;
    RoundByReply(w, st);
    if reply.Replied? && !reply.response.truncated && CallsIn(w, reply.response) != [] {
      var calls := CallsIn(w, reply.response);
      RunsAsTold(w, calls, ran);
      StepsEndAt(w, reply, st.turn.steps, p.st.turn.steps, calls, |RunTools(w, calls, ran).results|);
    } else {
      StepsEndAt(w, reply, st.turn.steps, p.st.turn.steps, [], 0);
    }
  }

  lemma StepsEndAt(w: World, reply: Reply, before: seq<Step>, steps: seq<Step>, calls: seq<ToolCall>, k: nat)
    requires calls == if reply.Replied? && !reply.response.truncated then CallsIn(w, reply.response) else []
    requires RunsUpTo(w, calls, |before|, k) && steps == before + StepsFor(w, calls[..k], |before|)
    ensures StepsEnd(w, reply, before, steps)
  {
  }

  lemma RoundGoesOn(w: World, first: Transcript, st: LoopState, p: Progress)
    requires OnItsWay(w, first, st) && st.round < MAX_TOOL_ROUNDS && p == Round(w, st) && p.Again?
    ensures OnItsWay(w, first, p.st)
  {
    RoundByReply(w, st);
    RequestsMore(w, st.requests, st.messages);
    UnfoldsMore(w, first, st.requests, st.messages, p.st.messages);
  }

  lemma RoundEnds(w: World, first: Transcript, st: LoopState, p: Progress)
    requires OnItsWay(w, first, st) && st.round < MAX_TOOL_ROUNDS && p == Round(w, st) && p.Stop?
    ensures EndsSo(w, first, p)
  {
    RoundByReply(w, st);
    LastRoundByReply(w, st);
    RequestsMore(w, st.requests, st.messages);
    assert p.st.requests[..|st.requests|] == st.requests;
  }

  /** The eighth reply called tools and they all ran: the loop gives up. */
  lemma LoopGivesUp(w: World, first: Transcript, st: LoopState, end: Progress)
    requires OnItsWay(w, first, st) && st.round == MAX_TOOL_ROUNDS && end == RunLoop(w, st)
    ensures EndsSo(w, first, end)
  {
    var n := |st.requests| - 1;
    var before := st.requests[..n];
    assert st.requests == before + [st.requests[n]];
    RequestsMore(w, before, st.requests[n]);
    EighthReply(w, before, st.requests[n], st.messages, st.turn.steps);
  }

  /** A reply that calls tools, all of which ran. */
  lemma EighthReply(w: World, before: seq<Transcript>, request: Transcript, messages: Transcript, steps: seq<Step>)
    requires w.chat(|before|, request).Replied?
    requires GoesOn(w, w.chat(|before|, request), ToolsBefore(w, before))
    requires messages == request + Added(w, w.chat(|before|, request), ToolsBefore(w, before))
    requires steps == StepsTold(w, before) + StepsFor(w, CallsOf(w, w.chat(|before|, request)), ToolsBefore(w, before))
    ensures Ending(w, w.chat(|before|, request), ToolsBefore(w, before)) == Some(GaveUp)
    ensures messages == request + LastAdded(w, w.chat(|before|, request), ToolsBefore(w, before))
    ensures StepsEnd(w, w.chat(|before|, request), StepsTold(w, before), steps)
  {
    var calls := CallsIn(w, w.chat(|before|, request).response);
    assert calls[..|calls|] == calls;
    StepsEndAt(w, w.chat(|before|, request), StepsTold(w, before), steps, calls, |calls|);
  }

  lemma {:induction false} LoopEnds(w: World, first: Transcript, st: LoopState)
    requires OnItsWay(w, first, st)
    ensures EndsSo(w, first, RunLoop(w, st))
    decreases Measure(st)
  {
    if st.round == MAX_TOOL_ROUNDS {
      LoopGivesUp(w, first, st, RunLoop(w, st));
    } else {
      OneRound(w, st);
      if Round(w, st).Again? {
        RoundGoesOn(w, first, st, Round(w, st));
        LoopEnds(w, first, Round(w, st).st);
      } else {
        RoundEnds(w, first, st, Round(w, st));
      }
    }
  }

  lemma TurnEndsSo(w: World, kept: Transcript, question: string, end: Progress)
    requires end == RunLoop(w, Start(w, kept, question))
    ensures EndsSo(w, kept + [Message(User, question, [], [])], end)
  {
    LoopEnds(w, kept + [Message(User, question, [], [])], Start(w, kept, question));
  }

  // ---- What every turn does ----

  lemma {:induction false} UnfoldsAt(w: World, first: Transcript, requests: seq<Transcript>, messages: Transcript,
                                     i: nat)
    requires Unfolds(w, first, requests, messages) && i < |requests|
    ensures GoesOn(w, w.chat(i, requests[i]), ToolsBefore(w, requests[..i]))
    ensures (requests + [messages])[i + 1]
         == requests[i] + Added(w, w.chat(i, requests[i]), ToolsBefore(w, requests[..i]))
    ensures requests[0] == first
  {
    var n := |requests| - 1;
    if i < n {
      UnfoldsAt(w, first, requests[..n], requests[n], i);
      assert requests[..n][..i] == requests[..i];
      assert (requests[..n] + [requests[n]])[i + 1] == requests[i + 1];
    } else if n > 0 {
      UnfoldsAt(w, first, requests[..n], requests[n], 0);
    }
  }

  /**
    The first request is the kept history and the question; each further one is the one before it and, if its reply
    was not thrown out by the runtime, exactly the assistant's message and one message with every call's result.
   */
  lemma TurnGoesOn(w: World, kept: Transcript, question: string, requests: seq<Transcript>, i: nat)
    requires requests == RunLoop(w, Start(w, kept, question)).st.requests
    ensures requests != [] && requests[0] == kept + [Message(User, question, [], [])]
    ensures i + 1 < |requests| ==>
              var reply, ran := w.chat(i, requests[i]), ToolsBefore(w, requests[..i]);
              && GoesOn(w, reply, ran)
              && requests[i + 1] == requests[i] + Added(w, reply, ran)
  {
    TurnEndsSo(w, kept, question, RunLoop(w, Start(w, kept, question)));
    ChainAt(w, kept + [Message(User, question, [], [])], requests, i);
  }

  lemma ChainAt(w: World, first: Transcript, requests: seq<Transcript>, i: nat)
    requires requests != [] && Unfolds(w, first, requests[..|requests| - 1], requests[|requests| - 1])
    ensures requests[0] == first
    ensures i + 1 < |requests| ==>
              && GoesOn(w, w.chat(i, requests[i]), ToolsBefore(w, requests[..i]))
              && requests[i + 1] == requests[i] + Added(w, w.chat(i, requests[i]), ToolsBefore(w, requests[..i]))
  {
    var n := |requests| - 1;
    if i < n {
      UnfoldsAt(w, first, requests[..n], requests[n], i);
      assert requests[..n][..i] == requests[..i] && (requests[..n] + [requests[n]])[i + 1] == requests[i + 1];
    } else if n > 0 {
      UnfoldsAt(w, first, requests[..n], requests[n], 0);
    }
  }

  /** A call written as prose is run: the transcript goes on by the call, without the prose, and its result. */
  lemma ProseCallIsRun(w: World, kept: Transcript, question: string, end: Progress, i: nat, r: Response, call: ToolCall)
    requires end == RunLoop(w, Start(w, kept, question)) && i < |end.st.requests|
    requires w.chat(i, end.st.requests[i]) == Replied(r)
    requires r.calls == [] && !r.truncated && !w.blank(r.text) && w.stray(r.text) == Some(call)
    requires !w.cancelled(ToolsBefore(w, end.st.requests[..i]))
    ensures var result := ResultFor(w, call, ToolsBefore(w, end.st.requests[..i]));
            && result.callID == call.id
            && (if i + 1 < |end.st.requests| then end.st.requests[i + 1] else end.st.messages)
               == end.st.requests[i] + [Message(Assistant, "", [call], []), Message(User, "", [], [result])]
  {
    var ran := ToolsBefore(w, end.st.requests[..i]);
    assert CallsIn(w, r) == [call];
    assert ResultsFor(w, [call], ran) == [ResultFor(w, call, ran)];
    assert !Interrupted(w, [call], ran);
    TurnEndsSo(w, kept, question, end);
    TurnGoesOn(w, kept, question, end.st.requests, i);
  }

  /** Some reply was given, not cut off, and calls no tool in any form. */
  ghost predicate Plainly(w: World, reply: Reply) {
    && reply.Replied? && !reply.response.truncated && reply.response.calls == []
    && (w.blank(reply.response.text) || w.stray(reply.response.text).None?)
  }

  /** Some reply was given, not cut off, and calls tools, itself or by its text. */
  ghost predicate Calls(w: World, reply: Reply) {
    && reply.Replied? && !reply.response.truncated
    && (reply.response.calls != [] || (!w.blank(reply.response.text) && w.stray(reply.response.text).Some?))
  }

  /** How a turn ends is decided by its last reply: each outcome if and only if that reply is of one kind. */
  lemma TurnEndsExactly(w: World, kept: Transcript, question: string, end: Progress, reply: Reply, ran: nat)
    requires end == RunLoop(w, Start(w, kept, question)) && end.st.requests != []
    requires var n := |end.st.requests| - 1;
             reply == w.chat(n, end.st.requests[n]) && ran == ToolsBefore(w, end.st.requests[..n])
    ensures end.err == Some(Unparsed) <==> reply.ToolCallUnparsed?
    ensures forall reason :: end.err == Some(Provider(reason)) <==> reply == ProviderFailed(reason)
    ensures end.err == Some(OutOfOutputTokens) <==> reply.Replied? && reply.response.truncated
    ensures end.err == Some(NothingReturned) <==> Plainly(w, reply) && w.blank(reply.response.text)
    ensures end.err == Some(StrayToolCall)
       <==> Plainly(w, reply) && !w.blank(reply.response.text) && w.jsonLike(reply.response.text)
    ensures end.err.None? <==> Plainly(w, reply) && !w.blank(reply.response.text) && !w.jsonLike(reply.response.text)
    ensures end.err == Some(Cancelled)
       <==> Calls(w, reply) && exists m :: ran <= m < ran + |CallsIn(w, reply.response)| && w.cancelled(m)
    ensures end.err == Some(GaveUp)
       <==> Calls(w, reply) && forall m :: ran <= m < ran + |CallsIn(w, reply.response)| ==> !w.cancelled(m)
    ensures end.err != Some(NoProvider)
  {
    TurnEndsSo(w, kept, question, end);
  }

  /** A turn gives up after 8 replies, and no turn has more; it fails on its fourth unparsed reply, not before. */
  lemma TurnLimitsExactly(w: World, kept: Transcript, question: string, end: Progress)
    requires end == RunLoop(w, Start(w, kept, question))
    ensures RepliedIn(w, end.st.requests) <= 8
    ensures end.err == Some(GaveUp) ==> RepliedIn(w, end.st.requests) == 8
    ensures UnparsedIn(w, end.st.requests) <= 4
    ensures end.err == Some(Unparsed) <==> UnparsedIn(w, end.st.requests) == 4
  {
    TurnEndsSo(w, kept, question, end);
    var n := |end.st.requests| - 1;
    assert end.st.requests == end.st.requests[..n] + [end.st.requests[n]];
    RequestsMore(w, end.st.requests[..n], end.st.requests[n]);
  }

  /** What the last reply leaves in the transcript, and the steps of the whole turn. */
  lemma TurnLeaves(w: World, kept: Transcript, question: string, end: Progress, reply: Reply, before: seq<Transcript>)
    requires end == RunLoop(w, Start(w, kept, question)) && end.st.requests != []
    requires before == end.st.requests[..|end.st.requests| - 1]
    requires reply == w.chat(|before|, end.st.requests[|before|])
    ensures end.st.messages == end.st.requests[|before|] + LastAdded(w, reply, ToolsBefore(w, before))
    ensures StepsEnd(w, reply, StepsTold(w, before), end.st.turn.steps)
  {
    TurnEndsSo(w, kept, question, end);
  }

  /** A turn replays the history trimmed to the runner's budget: 4000 tokens or 60000 unless it has one of its own. */
  lemma KeptIsTrimmed(runner: Runner, history: Transcript)
    ensures runner.historyBudget == 0 && runner.local ==> runner.Kept(history) == Standard().Trim(history, 4000)
    ensures runner.historyBudget == 0 && !runner.local ==> runner.Kept(history) == Standard().Trim(history, 60000)
    ensures runner.historyBudget != 0 ==> runner.Kept(history) == Standard().Trim(history, runner.historyBudget)
  {
  }

  /** Without a provider nothing is asked. */
  lemma NoProviderIsAnError(runner: Runner, history: Transcript, question: string)
    requires runner.provider.None?
    ensures var a := Answered(runner, history, question); a.turn.None? && a.added == [] && a.err == Some(NoProvider)
  {
  }

  // ---- What it costs ----

  function InputsOf(rs: seq<Response>): int {
    if rs == [] then 0 else InputsOf(rs[..|rs| - 1]) + rs[|rs| - 1].usage.inputTokens
  }

  function OutputsOf(rs: seq<Response>): int {
    if rs == [] then 0 else OutputsOf(rs[..|rs| - 1]) + rs[|rs| - 1].usage.outputTokens
  }

  function CostsOf(rs: seq<Response>): real {
    if rs == [] then 0.0 else CostsOf(rs[..|rs| - 1]) + rs[|rs| - 1].usage.cost
  }

  /** Totals field by field. */
  ghost predicate AddsUp(total: Usage, model: string, rs: seq<Response>) {
    && total.modelID == model
    && total.inputTokens == InputsOf(rs) && total.outputTokens == OutputsOf(rs) && total.cost == CostsOf(rs)
    && total.costKnown == (rs != [] && rs[|rs| - 1].usage.costKnown)
  }

  lemma {:induction false} BillAddsUp(model: string, rs: seq<Response>)
    ensures AddsUp(Bill(model, rs), model, rs)
  {
    if rs != [] {
      BillAddsUp(model, rs[..|rs| - 1]);
    }
  }

  /** On every exit the turn's usage is the sum of its replies', and their cost is known if the last one's is. */
  lemma UsageAddsUp(w: World, kept: Transcript, question: string)
    ensures var end := RunLoop(w, Start(w, kept, question)).st;
            AddsUp(end.turn.usage, w.model, Accepted(w, end.requests))
  {
    AskIsBounded(w, kept, question);
    BillAddsUp(w.model, Accepted(w, RunLoop(w, Start(w, kept, question)).st.requests));
  }

  /** So is the i-th usage event, of the first i replies; there is one for each. */
  lemma UsageEventsAddUp(w: World, kept: Transcript, question: string, totals: seq<Usage>, replies: seq<Response>)
    requires totals == TotalsOf(Events(w, Start(w, kept, question)))
    requires replies == Accepted(w, RunLoop(w, Start(w, kept, question)).st.requests)
    ensures |totals| == |replies|
    ensures forall i :: 0 <= i < |totals| ==> AddsUp(totals[i], w.model, replies[..i + 1])
  {
    TotalsAreTheBill(w, kept, question);
    forall i | 0 <= i < |totals|
      ensures AddsUp(totals[i], w.model, replies[..i + 1])
    {
      BillAddsUp(w.model, replies[..i + 1]);
      assert totals[i] == Bill(w.model, replies[..0 + i + 1]);
    }
  }

  // ---- What a listener is told of rounds and retractions ----

  function RoundsOf(events: seq<Event>): seq<nat> {
    if events == [] then []
    else (if events[0].RoundEvent? then [events[0].round] else []) + RoundsOf(events[1..])
  }

  /** The number of each request's round: one more than the replies accepted before it. */
  function RoundNumbers(w: World, requests: seq<Transcript>): seq<nat> {
    if requests == [] then []
    else
      var n := |requests| - 1;
      RoundNumbers(w, requests[..n]) + [1 + RepliedIn(w, requests[..n])]
  }

  lemma {:induction false} RoundsOfAppend(a: seq<Event>, b: seq<Event>)
    ensures RoundsOf(a + b) == RoundsOf(a) + RoundsOf(b)
  {
    if a == [] {
      assert a + b == b;
    } else {
      assert (a + b)[1..] == a[1..] + b;
      RoundsOfAppend(a[1..], b);
      Assoc(if a[0].RoundEvent? then [a[0].round] else [], RoundsOf(a[1..]), RoundsOf(b));
    }
  }

  lemma {:induction false} NoRoundsIn(events: seq<Event>)
    requires forall e :: e in events ==> !e.RoundEvent?
    ensures RoundsOf(events) == []
  {
    if events != [] {
      NoRoundsIn(events[1..]);
    }
  }

  lemma OneRoundEvent(w: World, st: LoopState)
    ensures RoundsOf(RoundEvents(w, st)) == [st.round + 1]
  {
    var text := TextEvents(w.deltas(|st.requests|, st.messages));
    JudgedIsQuiet(w, st);
    TextEventsOnly(w.deltas(|st.requests|, st.messages));
    NoRoundsIn(text);
    JudgedHasNoRound(w, st);
    NoRoundsIn(Judged(w, st));
    assert [RoundEvent(st.round + 1)][1..] == [];
    RoundsOfAppend([RoundEvent(st.round + 1)], text);
    RoundsOfAppend(Heard(w, st), Judged(w, st));
  }

  lemma JudgedHasNoRound(w: World, st: LoopState)
    ensures forall e :: e in Judged(w, st) ==> !e.RoundEvent?
  {
    match w.chat(|st.requests|, st.messages)
    case Replied(response) =>
      if !response.truncated {
        ToolEventsOnly(RunTools(w, ReplyMessage(w, response).calls, |st.turn.steps|).steps);
      }
    case _ =>
  }

  lemma RoundNumbersMore(w: World, requests: seq<Transcript>, next: Transcript)
    ensures RoundNumbers(w, requests + [next]) == RoundNumbers(w, requests) + [1 + RepliedIn(w, requests)]
  {
    assert (requests + [next])[..|requests|] == requests;
  }

  lemma {:induction false} RoundsFrom(w: World, st: LoopState)
    requires st.round == RepliedIn(w, st.requests)
    ensures RoundNumbers(w, st.requests) + RoundsOf(Events(w, st)) == RoundNumbers(w, RunLoop(w, st).st.requests)
    decreases Measure(st)
  {
    if st.round < MAX_TOOL_ROUNDS {
      var p := Round(w, st);
      OneRound(w, st);
      RoundNumbersOn(w, st, p);
      if p.Again? {
        RoundsFrom(w, p.st);
        RoundsOfAppend(RoundEvents(w, st), Events(w, p.st));
        Assoc(RoundNumbers(w, st.requests), RoundsOf(RoundEvents(w, st)), RoundsOf(Events(w, p.st)));
      }
    }
  }

  lemma RoundNumbersOn(w: World, st: LoopState, p: Progress)
    requires st.round == RepliedIn(w, st.requests) && p == Round(w, st)
    ensures RoundNumbers(w, st.requests) + RoundsOf(RoundEvents(w, st)) == RoundNumbers(w, p.st.requests)
    ensures p.Again? ==> p.st.round == RepliedIn(w, p.st.requests)
  {
    RoundByReply(w, st);
    OneRoundEvent(w, st);
    RoundNumbersMore(w, st.requests, st.messages);
    RequestsMore(w, st.requests, st.messages);
  }

  /** Every request is announced, by the number of the round it is made in: a retried round keeps its number. */
  lemma RoundsAnnounced(w: World, kept: Transcript, question: string)
    ensures var start := Start(w, kept, question);
            RoundsOf(Events(w, start)) == RoundNumbers(w, RunLoop(w, start).st.requests)
  {
    RoundsFrom(w, Start(w, kept, question));
    assert RoundNumbers(w, []) == [];
  }

  /** A round retracts what it streamed if and only if its raw reply is thrown out, or is a call or JSON in prose. */
  lemma RetractsExactly(w: World, st: LoopState, reply: Reply)
    requires reply == w.chat(|st.requests|, st.messages)
    ensures RetractEvent in RoundEvents(w, st)
       <==> || (reply.ToolCallUnparsed? && st.unparsed < 3)
            || (&& reply.Replied? && !reply.response.truncated && reply.response.calls == []
                && !w.blank(reply.response.text)
                && (w.stray(reply.response.text).Some? || w.jsonLike(reply.response.text)))
  {
    JudgedIsQuiet(w, st);
    match reply
    case Replied(response) => ReportedIsQuiet(w, st, response);
    case _ =>
  }

  lemma {:induction false} StrayClears(w: World, st: LoopState, k: nat)
    requires RunLoop(w, st).err == Some(StrayToolCall)
    ensures SinceRequest(w, st, k) == |RunLoop(w, st).st.requests|
    decreases Measure(st)
  {
    var p := Round(w, st);
    OneRound(w, st);
    RoundByReply(w, st);
    if p.Again? {
      StrayClears(w, p.st, FirstSince(w, st, k));
    } else {
      LastRoundByReply(w, st);
      RetractsExactly(w, st, w.chat(|st.requests|, st.messages));
    }
  }

  /** A turn that fails because its answer is a call in JSON leaves nothing on the screen. */
  lemma StrayLeavesNothing(w: World, kept: Transcript, question: string)
    requires RunLoop(w, Start(w, kept, question)).err == Some(StrayToolCall)
    ensures Shown("", Events(w, Start(w, kept, question))) == ""
  {
    ScreenIsHeard(w, kept, question);
    StrayClears(w, Start(w, kept, question), 0);
  }
}
