/** The streamed twin of the tool loop and the events it reports (internal/assistant/stream.go). */
module AskStream {
  import opened Conversation
  import opened History
  import opened Wrappers
  import opened AskLoop

  datatype Event =
    | RoundEvent(round: nat)
    | TextEvent(text: string)
    | ToolEvent(tool: string, input: string)
    | UsageEvent(usage: Usage)
    | RetractEvent

  // ---- The events of a turn ----

  function TextEvents(deltas: seq<string>): seq<Event> {
    if deltas == [] then [] else [TextEvent(deltas[0])] + TextEvents(deltas[1..])
  }

  function ToolEvents(steps: seq<Step>): seq<Event> {
    if steps == [] then [] else [ToolEvent(steps[0].tool, steps[0].input)] + ToolEvents(steps[1..])
  }

  /** What a round reports before its reply is judged. */
  function Heard(w: World, st: LoopState): seq<Event> {
    [RoundEvent(st.round + 1)] + TextEvents(w.deltas(|st.requests|, st.messages))
  }

  /** What it reports of an accepted response, on top of the running totals. */
  function Reported(w: World, st: LoopState, response: Response): seq<Event> {
    if response.truncated then []
    else
      var reply := ReplyMessage(w, response);
      (if Recovered(w, response).Some? then [RetractEvent] else [])
      + if reply.calls != [] then ToolEvents(RunTools(w, reply.calls, |st.turn.steps|).steps)
        else if !w.blank(reply.text) && w.jsonLike(reply.text) then [RetractEvent]
        else []
  }

  function RoundEvents(w: World, st: LoopState): seq<Event> {
    Heard(w, st)
    + match w.chat(|st.requests|, st.messages)
      case ToolCallUnparsed => if st.unparsed < MAX_UNPARSED_RETRIES then [RetractEvent] else []
      case ProviderFailed(_) => []
      case Replied(response) => [UsageEvent(AddUsage(st.turn.usage, response.usage))] + Reported(w, st, response)
  }

  function Events(w: World, st: LoopState): seq<Event>
    decreases Measure(st)
  {
    if st.round >= MAX_TOOL_ROUNDS then []
    else
      match Round(w, st)
      case Again(next) => RoundEvents(w, st) + Events(w, next)
      case Stop(_, _) => RoundEvents(w, st)
  }

  // ---- AskStream ----

  /** The same answer as Ask, with every event on the way; a provider that cannot stream reports its answer whole. */
  method AskStream(runner: Runner, canStream: bool, history: Transcript, question: string)
    returns (a: Answer, events: seq<Event>)
    ensures a == Answered(runner, history, question)
    ensures canStream && runner.provider.Some? ==>
              events == Events(runner.provider.value, Start(runner.provider.value, runner.Kept(history), question))
    ensures !canStream ==>
              events == if a.turn.Some? && a.turn.value.text != "" then [TextEvent(a.turn.value.text)] else []
    ensures runner.provider.None? ==> events == []
  {
    events := [];
    if runner.provider.None? {
      return Answer(None, [], Some(NoProvider)), [];
    }
    if !canStream {
      a := Ask(runner, history, question);
      if a.turn.Some? && a.turn.value.text != "" {
        events := events + [TextEvent(a.turn.value.text)];
      }
      return;
    }
    var budget := runner.historyBudget;
    if budget == 0 {
      budget := BudgetFor(runner.local);
    }
    var kept := Standard().TrimHistory(history, budget);
    a, events := StreamRounds(runner.provider.value, kept, question);
  }

  method StreamRounds(w: World, kept: Transcript, question: string) returns (a: Answer, events: seq<Event>)
    ensures kept <= RunLoop(w, Start(w, kept, question)).st.messages
    ensures a == AnswerOf(kept, RunLoop(w, Start(w, kept, question)))
    ensures events == Events(w, Start(w, kept, question))
  {
    var messages := kept;
    var addedFrom := |messages|;
    messages := messages + [Message(User, question, [], [])];
    var turn := NewTurn(w);
    var unparsed := 0;
    var round := 0;
    var attempt := 0;
    events := [];
    ghost var st := Start(w, kept, question);
    ghost var end := RunLoop(w, st);
    ghost var all := Events(w, st);
    RunKeepsBase(w, kept, st);
    while round < MAX_TOOL_ROUNDS
      invariant 0 <= round <= MAX_TOOL_ROUNDS && 0 <= unparsed <= MAX_UNPARSED_RETRIES && attempt == |st.requests|
      invariant st == LoopState(messages, turn, unparsed, round, st.requests)
      invariant RunLoop(w, st) == end
      invariant all == events + Events(w, st)
      invariant kept <= messages
      decreases MAX_TOOL_ROUNDS - round + MAX_UNPARSED_RETRIES - unparsed
    {
      OneRound(w, st);
      ghost var before := events;
      OneRoundEvents(w, st, before);
      events := EmitRound(w, st, round, w.deltas(attempt, messages), events);
      var reply := w.chat(attempt, messages);
      attempt := attempt + 1;
      ghost var requests := st.requests + [messages];
      if reply.ToolCallUnparsed? && unparsed < MAX_UNPARSED_RETRIES {
        unparsed := unparsed + 1;
        round := round - 1;
        round := round + 1;
        events := events + [RetractEvent];
        Assoc(before, Heard(w, st), [RetractEvent]);
        ghost var again := LoopState(messages, turn, unparsed, round, requests);
        assert Round(w, st) == Again(again);
        st := again;
        continue;
      }
      if reply.ToolCallUnparsed? {
        return Answer(Some(turn), messages[addedFrom..], Some(Unparsed)), events;
      }
      if reply.ProviderFailed? {
        return Answer(Some(turn), messages[addedFrom..], Some(Provider(reply.reason))), events;
      }
      turn := Charge(turn, reply.response.usage);
      events := events + [UsageEvent(turn.usage)];
      ghost var charged := LoopState(messages, turn, unparsed, round, requests);
      assert Round(w, st) == Accept(w, charged, reply.response);
      var stop;
      messages, turn, stop, events := StreamReply(w, charged, messages, turn, reply.response, events);
      RoundEventsReplied(w, st, charged, reply.response, before);
      if stop.Some? {
        return Answer(Some(turn), messages[addedFrom..], stop.value), events;
      }
      round := round + 1;
      ghost var next := LoopState(messages, turn, unparsed, round, requests);
      assert Round(w, st) == Again(next);
      st := next;
    }
    turn := turn.(hitRoundLimit := true);
    return Answer(Some(turn), messages[addedFrom..], Some(GaveUp)), events;
  }

  lemma OneRoundEvents(w: World, st: LoopState, before: seq<Event>)
    requires st.round < MAX_TOOL_ROUNDS
    ensures Round(w, st).Stop? ==> before + Events(w, st) == before + RoundEvents(w, st)
    ensures Round(w, st).Again? ==> before + Events(w, st) == before + RoundEvents(w, st) + Events(w, Round(w, st).st)
  {
  }

  lemma RoundEventsReplied(w: World, st: LoopState, charged: LoopState, response: Response, before: seq<Event>)
    requires w.chat(|st.requests|, st.messages) == Replied(response)
    requires charged.turn.usage == AddUsage(st.turn.usage, response.usage) && charged.turn.steps == st.turn.steps
    ensures before + RoundEvents(w, st)
         == before + Heard(w, st) + [UsageEvent(charged.turn.usage)] + Reported(w, charged, response)
  {
    var told, rest := [UsageEvent(charged.turn.usage)], Reported(w, charged, response);
    assert rest == Reported(w, st, response);
    Assoc(before, Heard(w, st), told + rest);
    Assoc(before + Heard(w, st), told, rest);
  }

  /** The start of a round and the fragments of its reply. */
  method EmitRound(w: World, ghost st: LoopState, round: nat, deltas: seq<string>, before: seq<Event>)
    returns (events: seq<Event>)
    requires round == st.round && deltas == w.deltas(|st.requests|, st.messages)
    ensures events == before + Heard(w, st)
  {
    events := before + [RoundEvent(round + 1)];
    events := EmitText(deltas, events);
    Assoc(before, [RoundEvent(round + 1)], TextEvents(deltas));
  }

  method EmitText(deltas: seq<string>, before: seq<Event>) returns (events: seq<Event>)
    ensures events == before + TextEvents(deltas)
  {
    events := before;
    for i := 0 to |deltas|
      invariant events + TextEvents(deltas[i..]) == before + TextEvents(deltas)
    {
      events := events + [TextEvent(deltas[i])];
    }
  }

  /** The streamed counterpart of TakeReply. */
  method StreamReply(w: World, ghost st: LoopState, messages: Transcript, turn: Turn, response: Response,
                     before: seq<Event>)
    returns (messages': Transcript, turn': Turn, stop: Option<Option<AskError>>, events: seq<Event>)
    requires st.messages == messages && st.turn == turn
    ensures messages <= messages'
    ensures Accept(w, st, response) == Told(st, messages', turn', stop)
    ensures events == before + Reported(w, st, response)
  {
    messages', turn', stop, events := messages, turn, None, before;
    var resp := response;
    if resp.truncated {
      stop := Some(Some(OutOfOutputTokens));
      return;
    }
    if |resp.calls| == 0 && !w.blank(resp.text) {
      var call := w.stray(resp.text);
      if call.Some? {
        resp := resp.(calls := [call.value], text := "");
        events := events + [RetractEvent];
      }
    }
    var said := Message(Assistant, resp.text, resp.calls, []);
    assert said == ReplyMessage(w, response);
    ghost var recovery := if Recovered(w, response).Some? then [RetractEvent] else [];
    assert events == before + recovery;
    messages' := messages' + [said];
    if |resp.calls| == 0 {
      assert Accept(w, st, response) == Conclude(w, st, said);
      if w.blank(resp.text) {
        stop := Some(Some(NothingReturned));
        return;
      }
      if w.jsonLike(resp.text) {
        events := events + [RetractEvent];
        Assoc(before, recovery, [RetractEvent]);
        stop := Some(Some(StrayToolCall));
        return;
      }
      turn' := turn'.(text := resp.text);
      stop := Some(None);
      return;
    }
    assert Accept(w, st, response) == Work(w, st, said);
    var results, steps, finished;
    results, steps, finished, events := StreamTools(w, resp.calls, turn'.steps, events);
    Assoc(before, recovery, ToolEvents(RunTools(w, resp.calls, |turn.steps|).steps));
    turn' := turn'.(steps := steps);
    if !finished {
      stop := Some(Some(Cancelled));
      return;
    }
    messages' := messages' + [Message(User, "", [], results)];
  }

  /** The streamed counterpart of CallTools: each tool is announced before it runs. */
  method StreamTools(w: World, calls: seq<ToolCall>, before: seq<Step>, heard: seq<Event>)
    returns (results: seq<ToolResult>, steps: seq<Step>, finished: bool, events: seq<Event>)
    ensures var ran := RunTools(w, calls, |before|);
            && results == ran.results && steps == before + ran.steps && finished == ran.finished
            && events == heard + ToolEvents(ran.steps)
  {
    results, steps, finished, events := [], before, true, heard;
    ghost var added: seq<Step> := [];
    for i := 0 to |calls|
      invariant |results| == |added| == i && steps == before + added && events == heard + ToolEvents(added)
      invariant forall j :: 0 <= j < i ==> RanAs(w, calls[j], |before| + j, results[j], added[j])
    {
      var call := w.Normalise(calls[i]);
      if w.cancelled(|steps|) {
        finished := false;
        break;
      }
      events := events + [ToolEvent(call.name, call.input)];
      var result := w.RunTool(|steps|, call);
      var step := StepOf(call, result);
      results := results + [result];
      steps := steps + [step];
      ToolEventsAppend(added, step);
      Assoc(heard, ToolEvents(added), [ToolEvent(step.tool, step.input)]);
      added := added + [step];
    }
    RunToolsUnique(w, calls, |before|, Ran(results, added, finished));
  }

  lemma {:induction false} ToolEventsAppend(steps: seq<Step>, s: Step)
    ensures ToolEvents(steps + [s]) == ToolEvents(steps) + [ToolEvent(s.tool, s.input)]
  {
    if steps == [] {
      assert ToolEvents([s]) == [ToolEvent(s.tool, s.input)];
    } else {
      assert (steps + [s])[1..] == steps[1..] + [s];
      ToolEventsAppend(steps[1..], s);
    }
  }
}
