/** The assistant's tool loop (internal/assistant/loop.go). */
module AskLoop {
  import opened Conversation
  import opened History
  import opened Wrappers

  const MAX_TOOL_ROUNDS := 8
  const MAX_UNPARSED_RETRIES := 3

  datatype Usage = Usage(modelID: string, inputTokens: int, outputTokens: int, cost: real, costKnown: bool)

  datatype Step = Step(tool: string, input: string, output: string, isError: bool)

  datatype Turn = Turn(text: string, steps: seq<Step>, usage: Usage, rounds: nat, hitRoundLimit: bool)

  datatype Response = Response(text: string, calls: seq<ToolCall>, usage: Usage, truncated: bool)

  datatype Reply = Replied(response: Response) | ToolCallUnparsed | ProviderFailed(reason: string)

  datatype AskError =
    | NoProvider
    | Unparsed
    | Provider(reason: string)
    | OutOfOutputTokens
    | NothingReturned
    | StrayToolCall
    | Cancelled
    | GaveUp

  /**
    Everything the loop meets outside itself, each part arbitrary. Requests and tool runs are numbered
    within the turn, so a provider or a tool may answer the same thing differently every time.
   */
  datatype World = World(
    model: string,
    chat: (nat, Transcript) -> Reply,
    deltas: (nat, Transcript) -> seq<string>,     // the fragments a streamed reply arrives in
    resolve: ToolCall -> string,                  // tool-name repair
    exec: (nat, ToolCall) -> (string, bool),      // a tool's output, and whether it is an error
    blank: string -> bool,                        // nothing but white space
    stray: string -> Option<ToolCall>,            // a call written as prose, read back
    jsonLike: string -> bool,                     // an answer that is only a JSON object
    cancelled: nat -> bool)                       // the context, asked before each tool run
  {
    function Normalise(call: ToolCall): ToolCall {
      call.(name := resolve(call))
    }

    /** `Toolbox.Run`, which repairs the name again and keeps the id. */
    function RunTool(n: nat, call: ToolCall): ToolResult {
      var repaired := Normalise(call);
      var (output, failed) := exec(n, repaired);
      ToolResult(repaired.id, repaired.name, output, failed)
    }
  }

  // ---- One round ----

  /** The turn in progress; `requests` records what was sent, one transcript per provider call. */
  datatype LoopState = LoopState(messages: Transcript, turn: Turn, unparsed: nat, round: nat, requests: seq<Transcript>)

  datatype Progress = Again(st: LoopState) | Stop(st: LoopState, err: Option<AskError>)

  function StepOf(call: ToolCall, result: ToolResult): Step {
    Step(call.name, call.input, result.content, result.isError)
  }

  datatype Ran = Ran(results: seq<ToolResult>, steps: seq<Step>, finished: bool)

  /** Run the calls in order until the context is cancelled; `done` tools ran earlier in the turn. */
  function RunTools(w: World, calls: seq<ToolCall>, done: nat): (ran: Ran)
    ensures |ran.results| == |ran.steps| <= |calls|
    ensures ran.finished <==> |ran.results| == |calls|
  {
    if calls == [] then Ran([], [], true)
    else if w.cancelled(done) then Ran([], [], false)
    else
      var call := w.Normalise(calls[0]);
      var result := w.RunTool(done, call);
      var rest := RunTools(w, calls[1..], done + 1);
      Ran([result] + rest.results, [StepOf(call, result)] + rest.steps, rest.finished)
  }

  function Charge(turn: Turn, usage: Usage): Turn {
    Turn(turn.text, turn.steps, AddUsage(turn.usage, usage), turn.rounds + 1, turn.hitRoundLimit)
  }

  function AddUsage(sum: Usage, u: Usage): Usage {
    Usage(sum.modelID, sum.inputTokens + u.inputTokens, sum.outputTokens + u.outputTokens,
          sum.cost + u.cost, u.costKnown)
  }

  /** The stray call a response's text holds, when it makes no call of its own. */
  function Recovered(w: World, r: Response): Option<ToolCall> {
    if r.calls == [] && !w.blank(r.text) then w.stray(r.text) else None
  }

  /** The assistant message a response becomes. */
  function ReplyMessage(w: World, r: Response): Message {
    match Recovered(w, r)
    case Some(call) => Message(Assistant, "", [call], [])
    case None => Message(Assistant, r.text, r.calls, [])
  }

  function Round(w: World, st: LoopState): Progress {
    var requests := st.requests + [st.messages];
    match w.chat(|st.requests|, st.messages)
    case ToolCallUnparsed =>
      if st.unparsed < MAX_UNPARSED_RETRIES then
        Again(LoopState(st.messages, st.turn, st.unparsed + 1, st.round, requests))
      else Stop(LoopState(st.messages, st.turn, st.unparsed, st.round, requests), Some(Unparsed))
    case ProviderFailed(reason) =>
      Stop(LoopState(st.messages, st.turn, st.unparsed, st.round, requests), Some(Provider(reason)))
    case Replied(response) =>
      Accept(w, LoopState(st.messages, Charge(st.turn, response.usage), st.unparsed, st.round, requests), response)
  }

  /** The state after a round that left these messages and this turn, and stopped with `stop` if it did. */
  function Told(st: LoopState, messages: Transcript, turn: Turn, stop: Option<Option<AskError>>): Progress {
    match stop
    case Some(err) => Stop(LoopState(messages, turn, st.unparsed, st.round, st.requests), err)
    case None => Again(LoopState(messages, turn, st.unparsed, st.round + 1, st.requests))
  }

  function Accept(w: World, st: LoopState, response: Response): Progress {
    if response.truncated then Told(st, st.messages, st.turn, Some(Some(OutOfOutputTokens)))
    else
      var reply := ReplyMessage(w, response);
      if reply.calls == [] then Conclude(w, st, reply) else Work(w, st, reply)
  }

  /** The reply calls no tool, so it is the answer or a failure. */
  function Conclude(w: World, st: LoopState, reply: Message): Progress {
    var messages := st.messages + [reply];
    if w.blank(reply.text) then Told(st, messages, st.turn, Some(Some(NothingReturned)))
    else if w.jsonLike(reply.text) then Told(st, messages, st.turn, Some(Some(StrayToolCall)))
    else Told(st, messages, st.turn.(text := reply.text), Some(None))
  }

  /** The reply calls tools: run them and answer all of them in one message. */
  function Work(w: World, st: LoopState, reply: Message): Progress {
    var ran := RunTools(w, reply.calls, |st.turn.steps|);
    var turn := st.turn.(steps := st.turn.steps + ran.steps);
    var messages := st.messages + [reply];
    if !ran.finished then Told(st, messages, turn, Some(Some(Cancelled)))
    else Told(st, messages + [Message(User, "", [], ran.results)], turn, None)
  }

  // ---- The whole loop ----

  function Measure(st: LoopState): nat {
    (if st.round < MAX_TOOL_ROUNDS then MAX_TOOL_ROUNDS - st.round else 0)
    + (if st.unparsed < MAX_UNPARSED_RETRIES then MAX_UNPARSED_RETRIES - st.unparsed else 0)
  }

  function RunLoop(w: World, st: LoopState): (end: Progress)
    ensures end.Stop?
    decreases Measure(st)
  {
    if st.round >= MAX_TOOL_ROUNDS then
      Stop(LoopState(st.messages, st.turn.(hitRoundLimit := true), st.unparsed, st.round, st.requests), Some(GaveUp))
    else
      match Round(w, st)
      case Again(next) => RunLoop(w, next)
      case Stop(last, err) => Stop(last, err)
  }

  function NewTurn(w: World): Turn {
    Turn("", [], Usage(w.model, 0, 0, 0.0, false), 0, false)
  }

  function Start(w: World, kept: Transcript, question: string): LoopState {
    LoopState(kept + [Message(User, question, [], [])], NewTurn(w), 0, 0, [])
  }

  // ---- Ask ----

  /** A runner: no provider, or one that runs locally or not; a zero budget means the default. */
  datatype Runner = Runner(provider: Option<World>, local: bool, historyBudget: int) {
    function Budget(): int {
      if historyBudget == 0 then BudgetFor(local) else historyBudget
    }

    function Kept(history: Transcript): Transcript {
      Standard().Trim(history, Budget())
    }
  }

  datatype Answer = Answer(turn: Option<Turn>, added: Transcript, err: Option<AskError>)

  function Answered(runner: Runner, history: Transcript, question: string): Answer {
    match runner.provider
    case None => Answer(None, [], Some(NoProvider))
    case Some(w) =>
      var kept := runner.Kept(history);
      RunKeepsBase(w, kept, Start(w, kept, question));
      AnswerOf(kept, RunLoop(w, Start(w, kept, question)))
  }

  method Ask(runner: Runner, history: Transcript, question: string) returns (a: Answer)
    ensures a == Answered(runner, history, question)
  {
    if runner.provider.None? {
      return Answer(None, [], Some(NoProvider));
    }
    var budget := runner.historyBudget;
    if budget == 0 {
      budget := BudgetFor(runner.local);
    }
    var kept := Standard().TrimHistory(history, budget);
    a := AskRounds(runner.provider.value, kept, question);
  }

  /** The answer a finished loop amounts to: only what it added past the kept history. */
  function AnswerOf(kept: Transcript, end: Progress): Answer
    requires end.Stop? && kept <= end.st.messages
  {
    Answer(Some(end.st.turn), end.st.messages[|kept|..], end.err)
  }

  method AskRounds(w: World, kept: Transcript, question: string) returns (a: Answer)
    ensures kept <= RunLoop(w, Start(w, kept, question)).st.messages
    ensures a == AnswerOf(kept, RunLoop(w, Start(w, kept, question)))
  {
    var messages := kept;
    var addedFrom := |messages|;
    messages := messages + [Message(User, question, [], [])];
    var turn := NewTurn(w);
    var unparsed := 0;
    var round := 0;
    var attempt := 0;
    ghost var st := Start(w, kept, question);
    ghost var end := RunLoop(w, st);
    RunKeepsBase(w, kept, st);
    while round < MAX_TOOL_ROUNDS
      invariant 0 <= round <= MAX_TOOL_ROUNDS && 0 <= unparsed <= MAX_UNPARSED_RETRIES && attempt == |st.requests|
      invariant st == LoopState(messages, turn, unparsed, round, st.requests)
      invariant RunLoop(w, st) == end
      invariant kept <= messages
      decreases MAX_TOOL_ROUNDS - round + MAX_UNPARSED_RETRIES - unparsed
    {
      OneRound(w, st);
      var reply := w.chat(attempt, messages);
      attempt := attempt + 1;
      ghost var requests := st.requests + [messages];
      if reply.ToolCallUnparsed? && unparsed < MAX_UNPARSED_RETRIES {
        unparsed := unparsed + 1;
        round := round - 1;
        round := round + 1;
        ghost var again := LoopState(messages, turn, unparsed, round, requests);
        assert Round(w, st) == Again(again);
        st := again;
        continue;
      }
      if reply.ToolCallUnparsed? {
        return Answer(Some(turn), messages[addedFrom..], Some(Unparsed));
      }
      if reply.ProviderFailed? {
        return Answer(Some(turn), messages[addedFrom..], Some(Provider(reply.reason)));
      }
      turn := Charge(turn, reply.response.usage);
      ghost var charged := LoopState(messages, turn, unparsed, round, requests);
      assert Round(w, st) == Accept(w, charged, reply.response);
      var stop;
      messages, turn, stop := TakeReply(w, charged, messages, turn, reply.response);
      if stop.Some? {
        return Answer(Some(turn), messages[addedFrom..], stop.value);
      }
      round := round + 1;
      ghost var next := LoopState(messages, turn, unparsed, round, requests);
      assert Round(w, st) == Again(next);
      st := next;
    }
    turn := turn.(hitRoundLimit := true);
    return Answer(Some(turn), messages[addedFrom..], Some(GaveUp));
  }

  /** The rest of a round, from an accepted response on; `stop` says with what the turn ends, if it does. */
  method TakeReply(w: World, ghost st: LoopState, messages: Transcript, turn: Turn, response: Response)
    returns (messages': Transcript, turn': Turn, stop: Option<Option<AskError>>)
    requires st.messages == messages && st.turn == turn
    ensures messages <= messages'
    ensures Accept(w, st, response) == Told(st, messages', turn', stop)
  {
    messages', turn', stop := messages, turn, None;
    var resp := response;
    if resp.truncated {
      stop := Some(Some(OutOfOutputTokens));
      return;
    }
    if |resp.calls| == 0 && !w.blank(resp.text) {
      var call := w.stray(resp.text);
      if call.Some? {
        resp := resp.(calls := [call.value], text := "");
      }
    }
    var said := Message(Assistant, resp.text, resp.calls, []);
    assert said == ReplyMessage(w, response);
    messages' := messages' + [said];
    assert Accept(w, st, response) == if said.calls == [] then Conclude(w, st, said) else Work(w, st, said);
    if |resp.calls| == 0 {
      assert Accept(w, st, response) == Conclude(w, st, said);
      if w.blank(resp.text) {
        stop := Some(Some(NothingReturned));
        return;
      }
      if w.jsonLike(resp.text) {
        stop := Some(Some(StrayToolCall));
        return;
      }
      turn' := turn'.(text := resp.text);
      stop := Some(None);
      return;
    }
    assert Accept(w, st, response) == Work(w, st, said);
    var results, steps, finished := CallTools(w, resp.calls, turn'.steps);
    turn' := turn'.(steps := steps);
    if !finished {
      stop := Some(Some(Cancelled));
      return;
    }
    messages' := messages' + [Message(User, "", [], results)];
  }

  lemma OneRound(w: World, st: LoopState)
    requires st.round < MAX_TOOL_ROUNDS
    ensures RunLoop(w, st) == if Round(w, st).Again? then RunLoop(w, Round(w, st).st) else Round(w, st)
    ensures Round(w, st).Again? ==> Measure(Round(w, st).st) < Measure(st)
  {
  }

  /** The inner loop over one round's calls. */
  method CallTools(w: World, calls: seq<ToolCall>, before: seq<Step>)
    returns (results: seq<ToolResult>, steps: seq<Step>, finished: bool)
    ensures var ran := RunTools(w, calls, |before|);
            results == ran.results && steps == before + ran.steps && finished == ran.finished
  {
    results, steps, finished := [], before, true;
    ghost var added: seq<Step> := [];
    for i := 0 to |calls|
      invariant |results| == |added| == i && steps == before + added
      invariant forall j :: 0 <= j < i ==> RanAs(w, calls[j], |before| + j, results[j], added[j])
    {
      var call := w.Normalise(calls[i]);
      if w.cancelled(|steps|) {
        finished := false;
        break;
      }
      var result := w.RunTool(|steps|, call);
      results := results + [result];
      steps := steps + [StepOf(call, result)];
      added := added + [StepOf(call, result)];
    }
    RunToolsUnique(w, calls, |before|, Ran(results, added, finished));
  }

  /** The call ran, as the turn's tool number n, with this result and this step. */
  ghost predicate RanAs(w: World, call: ToolCall, n: nat, result: ToolResult, step: Step) {
    !w.cancelled(n) && result == w.RunTool(n, w.Normalise(call)) && step == StepOf(w.Normalise(call), result)
  }

  /** Each result and step is that of its call, and a run that did not finish was cancelled where it stopped. */
  lemma {:induction false} RunToolsRuns(w: World, calls: seq<ToolCall>, done: nat)
    ensures var ran := RunTools(w, calls, done);
            && (forall j :: 0 <= j < |ran.results| ==> RanAs(w, calls[j], done + j, ran.results[j], ran.steps[j]))
            && (!ran.finished ==> w.cancelled(done + |ran.results|))
  {
    if calls != [] && !w.cancelled(done) {
      var call := w.Normalise(calls[0]);
      var result := w.RunTool(done, call);
      RunToolsRuns(w, calls[1..], done + 1);
      OneRanBefore(w, calls, done, result, StepOf(call, result), RunTools(w, calls[1..], done + 1));
    }
  }

  lemma OneRanBefore(w: World, calls: seq<ToolCall>, done: nat, result: ToolResult, step: Step, rest: Ran)
    requires calls != [] && RanAs(w, calls[0], done, result, step) && |rest.results| == |rest.steps| < |calls|
    requires forall j :: 0 <= j < |rest.results| ==>
               RanAs(w, calls[1..][j], done + 1 + j, rest.results[j], rest.steps[j])
    ensures var results, steps := [result] + rest.results, [step] + rest.steps;
            forall j :: 0 <= j < |results| ==> RanAs(w, calls[j], done + j, results[j], steps[j])
  {
    forall j | 0 < j < |rest.results| + 1
      ensures RanAs(w, calls[j], done + j, rest.results[j - 1], rest.steps[j - 1])
    {
      assert RanAs(w, calls[1..][j - 1], done + 1 + (j - 1), rest.results[j - 1], rest.steps[j - 1]);
    }
  }

  /** Two accounts of which calls ran agree when both stop at the first cancellation or the end. */
  lemma {:induction false} RunToolsUnique(w: World, calls: seq<ToolCall>, done: nat, ran: Ran)
    requires |ran.results| == |ran.steps| <= |calls|
    requires forall j :: 0 <= j < |ran.results| ==> RanAs(w, calls[j], done + j, ran.results[j], ran.steps[j])
    requires ran.finished <==> |ran.results| == |calls|
    requires !ran.finished ==> w.cancelled(done + |ran.results|)
    ensures ran == RunTools(w, calls, done)
  {
    if calls != [] && ran.results != [] {
      var rest := Ran(ran.results[1..], ran.steps[1..], ran.finished);
      forall j | 0 <= j < |rest.results|
        ensures RanAs(w, calls[1..][j], done + 1 + j, rest.results[j], rest.steps[j])
      {
        var k := j + 1;
        assert RanAs(w, calls[k], done + k, ran.results[k], ran.steps[k]) && calls[1..][j] == calls[k];
      }
      assert RanAs(w, calls[0], done, ran.results[0], ran.steps[0]);
      RunToolsUnique(w, calls[1..], done + 1, rest);
    }
  }

  lemma {:induction false} RunKeepsBase(w: World, kept: Transcript, st: LoopState)
    requires kept <= st.messages
    ensures kept <= RunLoop(w, st).st.messages
    decreases Measure(st)
  {
    if st.round < MAX_TOOL_ROUNDS && Round(w, st).Again? {
      RunKeepsBase(w, kept, Round(w, st).st);
    }
  }
}
