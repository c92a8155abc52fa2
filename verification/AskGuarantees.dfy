/** What every turn of the tool loop keeps, whatever the provider, the tools and the caller do. */
module AskGuarantees {
  import opened Conversation
  import opened History
  import opened Wrappers
  import opened AskLoop

  // ---- What one round can do to the transcript ----

  /** The round threw its reply away: nothing is said and nothing is run. */
  ghost predicate Silent(st: LoopState, p: Progress) {
    p.st.messages == st.messages && p.st.turn.steps == st.turn.steps && p.st.turn.text == st.turn.text
    && (p.Stop? ==> p.err.Some? && p.err != Some(Cancelled))
  }

  /** The round ended the turn with a reply that calls no tool. */
  ghost predicate Concluded(w: World, st: LoopState, p: Progress, said: Message) {
    && p.Stop? && p.err != Some(Cancelled)
    && p.st.messages == st.messages + [said] && p.st.turn.steps == st.turn.steps
    && (if p.err.None? then p.st.turn.text == said.text && !w.blank(said.text) && !w.jsonLike(said.text)
        else p.st.turn.text == st.turn.text)
  }

  /** The round ran the tools its reply called, all of them unless the turn was cancelled. */
  ghost predicate Worked(w: World, st: LoopState, p: Progress, said: Message, ran: Ran) {
    && ran == RunTools(w, said.calls, |st.turn.steps|)
    && p.st.turn.steps == st.turn.steps + ran.steps && p.st.turn.text == st.turn.text
    && (if ran.finished then p.Again? && p.st.messages == st.messages + [said] + [Message(User, "", [], ran.results)]
        else p.Stop? && p.err == Some(Cancelled) && p.st.messages == st.messages + [said])
  }

  ghost predicate Moved(w: World, st: LoopState, p: Progress) {
    var reply := w.chat(|st.requests|, st.messages);
    && p.st.requests == st.requests + [st.messages]
    && if !reply.Replied? || reply.response.truncated then Silent(st, p) && (reply.Replied? ==> p.Stop?)
       else
         var said := ReplyMessage(w, reply.response);
         if said.calls == [] then Concluded(w, st, p, said)
         else Worked(w, st, p, said, RunTools(w, said.calls, |st.turn.steps|))
  }

  lemma RoundMoves(w: World, st: LoopState)
    ensures Moved(w, st, Round(w, st))
  {
  }

  /** The counters a round moves. */
  ghost predicate Metered(w: World, st: LoopState, p: Progress) {
    var reply := w.chat(|st.requests|, st.messages);
    && p.st.requests == st.requests + [st.messages]
    && p.st.turn.hitRoundLimit == st.turn.hitRoundLimit
    && (p.Stop? ==> p.err != Some(GaveUp))
    && (if reply.Replied? then
          p.st.turn.rounds == st.turn.rounds + 1 && p.st.turn.usage == AddUsage(st.turn.usage, reply.response.usage)
          && (p.Again? ==> p.st.round == st.round + 1 && p.st.unparsed == st.unparsed)
        else
          p.st.turn.rounds == st.turn.rounds && p.st.turn.usage == st.turn.usage
          && (p.Again? ==> p.st.round == st.round && p.st.unparsed == st.unparsed + 1 <= MAX_UNPARSED_RETRIES))
  }

  lemma RoundMeters(w: World, st: LoopState)
    ensures Metered(w, st, Round(w, st))
  {
    match w.chat(|st.requests|, st.messages)
    case Replied(response) =>
      var sent := st.(requests := st.requests + [st.messages], turn := Charge(st.turn, response.usage));
      AcceptMeters(w, sent, response);
      assert Round(w, st) == Accept(w, sent, response);
    case _ =>
  }

  /** Past the accounting, a round leaves the counters alone. */
  ghost predicate CountersKept(st: LoopState, p: Progress) {
    && p.st.requests == st.requests && p.st.unparsed == st.unparsed
    && p.st.turn == st.turn.(text := p.st.turn.text, steps := p.st.turn.steps)
    && (if p.Stop? then p.err != Some(GaveUp) else p.st.round == st.round + 1)
  }

  lemma AcceptMeters(w: World, st: LoopState, response: Response)
    ensures CountersKept(st, Accept(w, st, response))
  {
    var reply := ReplyMessage(w, response);
    ConcludeMeters(w, st, reply);
    WorkMeters(w, st, reply);
  }

  lemma ConcludeMeters(w: World, st: LoopState, reply: Message)
    ensures CountersKept(st, Conclude(w, st, reply))
  {
  }

  lemma WorkMeters(w: World, st: LoopState, reply: Message)
    ensures CountersKept(st, Work(w, st, reply))
  {
  }

  // ---- Rounds, requests and cost ----

  /** The responses among the replies to a turn's requests, in order. */
  function Accepted(w: World, requests: seq<Transcript>): seq<Response> {
    if requests == [] then []
    else
      var n := |requests| - 1;
      var reply := w.chat(n, requests[n]);
      Accepted(w, requests[..n]) + if reply.Replied? then [reply.response] else []
  }

  /** What a list of responses costs together. */
  function Bill(model: string, responses: seq<Response>): Usage {
    if responses == [] then Usage(model, 0, 0, 0.0, false)
    else AddUsage(Bill(model, responses[..|responses| - 1]), responses[|responses| - 1].usage)
  }

  /** The turn's counters are those of the requests made so far. */
  ghost predicate Accounted(w: World, turn: Turn, requests: seq<Transcript>) {
    && turn.rounds == |Accepted(w, requests)|
    && turn.usage == Bill(w.model, Accepted(w, requests))
  }

  ghost predicate Counted(w: World, st: LoopState) {
    && Accounted(w, st.turn, st.requests)
    && st.turn.rounds == st.round <= MAX_TOOL_ROUNDS
    && st.unparsed <= MAX_UNPARSED_RETRIES
    && |st.requests| == st.round + st.unparsed
    && !st.turn.hitRoundLimit
  }

  ghost predicate Settled(w: World, end: Progress) {
    var turn := end.st.turn;
    && Accounted(w, turn, end.st.requests)
    && turn.rounds <= MAX_TOOL_ROUNDS
    && |end.st.requests| <= MAX_TOOL_ROUNDS + MAX_UNPARSED_RETRIES
    && (turn.hitRoundLimit <==> end.Stop? && end.err == Some(GaveUp))
    && (turn.hitRoundLimit ==> turn.rounds == MAX_TOOL_ROUNDS)
  }

  lemma OneMoreRequest(w: World, requests: seq<Transcript>, next: Transcript)
    ensures var reply := w.chat(|requests|, next);
            Accepted(w, requests + [next]) == Accepted(w, requests) + if reply.Replied? then [reply.response] else []
  {
    assert (requests + [next])[..|requests|] == requests;
  }

  lemma RoundCounts(w: World, st: LoopState, p: Progress)
    requires Counted(w, st) && st.round < MAX_TOOL_ROUNDS && Metered(w, st, p)
    ensures p.Again? ==> Counted(w, p.st)
    ensures p.Stop? ==> Settled(w, p)
  {
    OneMoreRequest(w, st.requests, st.messages);
    var before := Accepted(w, st.requests);
    match w.chat(|st.requests|, st.messages)
    case Replied(response) =>
      assert (before + [response])[..|before|] == before;
      assert Bill(w.model, before + [response]) == AddUsage(Bill(w.model, before), response.usage);
    case _ =>
      assert before + [] == before;
  }

  lemma {:induction false} LoopCounts(w: World, st: LoopState)
    requires Counted(w, st)
    ensures Settled(w, RunLoop(w, st))
    decreases Measure(st)
  {
    if st.round < MAX_TOOL_ROUNDS {
      RoundMeters(w, st);
      RoundCounts(w, st, Round(w, st));
      if Round(w, st).Again? {
        LoopCounts(w, Round(w, st).st);
      }
    }
  }

  /** However it ends, a turn makes at most 11 requests and bills exactly the replies it accepted, at most 8. */
  lemma AskIsBounded(w: World, kept: Transcript, question: string)
    ensures var end := RunLoop(w, Start(w, kept, question));
            var replies := Accepted(w, end.st.requests);
            && |end.st.requests| <= 11
            && end.st.turn.rounds == |replies| <= 8
            && end.st.turn.usage == Bill(w.model, replies)
            && (end.st.turn.hitRoundLimit <==> end.err == Some(GaveUp))
  {
    LoopCounts(w, Start(w, kept, question));
  }

  lemma {:induction false} AcceptedCounts(w: World, requests: seq<Transcript>)
    ensures |Accepted(w, requests)| <= |requests|
    ensures |Accepted(w, requests)| == |requests|
       <==> forall i :: 0 <= i < |requests| ==> w.chat(i, requests[i]).Replied?
  {
    if requests != [] {
      AcceptedCounts(w, requests[..|requests| - 1]);
    }
  }

  /** `Rounds` is the number of requests the turn took if and only if every one of them was answered. */
  lemma RoundsAreRequestsExactly(w: World, kept: Transcript, question: string)
    ensures var end := RunLoop(w, Start(w, kept, question)).st;
            && end.turn.rounds <= |end.requests|
            && (end.turn.rounds == |end.requests|
                <==> forall i :: 0 <= i < |end.requests| ==> w.chat(i, end.requests[i]).Replied?)
  {
    LoopCounts(w, Start(w, kept, question));
    AcceptedCounts(w, RunLoop(w, Start(w, kept, question)).st.requests);
  }

  /** A turn whose first request fails made one request, and reports none. */
  lemma FailedRequestIsNotARound(w: World, kept: Transcript, question: string)
    requires w.chat(0, Start(w, kept, question).messages).ProviderFailed?
    ensures var end := RunLoop(w, Start(w, kept, question)).st; |end.requests| == 1 && end.turn.rounds == 0
  {
    OneRound(w, Start(w, kept, question));
  }

  // ---- The answer ----

  /** A successful turn's text is the last message it adds: neither blank nor a stray call. Others carry none. */
  ghost predicate Tells(w: World, end: Progress) {
    var turn, ms := end.st.turn, end.st.messages;
    if end.Stop? && end.err.None? then
      !w.blank(turn.text) && !w.jsonLike(turn.text) && ms != [] && ms[|ms| - 1] == Message(Assistant, turn.text, [], [])
    else turn.text == ""
  }

  lemma {:induction false} LoopAnswers(w: World, st: LoopState)
    requires st.turn.text == ""
    ensures Tells(w, RunLoop(w, st))
    decreases Measure(st)
  {
    if st.round < MAX_TOOL_ROUNDS {
      RoundMoves(w, st);
      OneRound(w, st);
      if Round(w, st).Again? {
        LoopAnswers(w, Round(w, st).st);
      }
    }
  }

  /** What a turn adds to the transcript starts with the question and, on success, ends with the answer. */
  ghost predicate Replies(w: World, question: string, turn: Turn, added: Transcript, err: Option<AskError>) {
    && added != [] && added[0] == Message(User, question, [], [])
    && if err.None? then
         !w.blank(turn.text) && !w.jsonLike(turn.text) && added[|added| - 1] == Message(Assistant, turn.text, [], [])
       else turn.text == ""
  }

  lemma TurnAnswers(w: World, kept: Transcript, question: string, end: Progress)
    requires end == RunLoop(w, Start(w, kept, question))
    ensures kept <= end.st.messages && Replies(w, question, end.st.turn, end.st.messages[|kept|..], end.err)
  {
    var start := Start(w, kept, question);
    LoopAnswers(w, start);
    RunKeepsBase(w, start.messages, start);
    AddedEnds(kept, Message(User, question, [], []), end.st.messages);
  }

  lemma AddedEnds(kept: Transcript, m: Message, all: Transcript)
    requires kept + [m] <= all
    ensures kept <= all && all[|kept|..] != [] && all[|kept|..][0] == m
    ensures all[|kept|..][|all| - |kept| - 1] == all[|all| - 1]
  {
    assert all[..|kept|] == (kept + [m])[..|kept|] == kept;
    assert all[|kept|] == (kept + [m])[|kept|];
  }

  lemma AskAnswers(runner: Runner, history: Transcript, question: string, a: Answer)
    requires runner.provider.Some? && a == Answered(runner, history, question)
    ensures Replies(runner.provider.value, question, a.turn.value, a.added, a.err)
  {
    var w := runner.provider.value;
    var kept := runner.Kept(history);
    TurnAnswers(w, kept, question, RunLoop(w, Start(w, kept, question)));
  }

  // ---- Pairing ----

  ghost predicate AllPaired(requests: seq<Transcript>) {
    forall i :: 0 <= i < |requests| ==> PairComplete(requests[i])
  }

  ghost predicate EndsPaired(end: Progress) {
    && AllPaired(end.st.requests)
    && if end.Stop? && end.err == Some(Cancelled) then AwaitsResults(end.st.messages) else PairComplete(end.st.messages)
  }

  lemma PairedAppend(ms: Transcript, m: Message)
    requires PairComplete(ms) && m.results == []
    ensures m.calls == [] ==> PairComplete(ms + [m])
    ensures m.calls != [] && m.role.Assistant? ==> AwaitsResults(ms + [m])
  {
    var longer := ms + [m];
    forall i | 0 <= i < |longer| - 1
      ensures PairedAt(longer, i)
    {
      if i < |ms| - 1 {
        assert PairedAt(ms, i);
      }
    }
  }

  lemma PairedAnswer(ms: Transcript, m: Message)
    requires AwaitsResults(ms) && m.calls == [] && m.role.User?
    requires Answers(ms[|ms| - 1].calls, m.results)
    ensures PairComplete(ms + [m])
  {
    var longer := ms + [m];
    forall i | 0 <= i < |longer| - 1
      ensures PairedAt(longer, i)
    {
      if i < |ms| - 1 {
        assert PairedAt(ms, i);
      }
    }
  }

  lemma RoundPairs(w: World, st: LoopState, p: Progress)
    requires PairComplete(st.messages) && AllPaired(st.requests) && Moved(w, st, p)
    ensures EndsPaired(p)
  {
    var reply := w.chat(|st.requests|, st.messages);
    if reply.Replied? && !reply.response.truncated {
      var said := ReplyMessage(w, reply.response);
      PairedAppend(st.messages, said);
      if said.calls != [] {
        var ran := RunTools(w, said.calls, |st.turn.steps|);
        if ran.finished {
          RunToolsRuns(w, said.calls, |st.turn.steps|);
          PairedAnswer(st.messages + [said], Message(User, "", [], ran.results));
        }
      }
    }
  }

  lemma {:induction false} LoopPairs(w: World, st: LoopState)
    requires PairComplete(st.messages) && AllPaired(st.requests)
    ensures EndsPaired(RunLoop(w, st))
    decreases Measure(st)
  {
    if st.round < MAX_TOOL_ROUNDS {
      RoundMoves(w, st);
      RoundPairs(w, st, Round(w, st));
      OneRound(w, st);
      if Round(w, st).Again? {
        LoopPairs(w, Round(w, st).st);
      }
    }
  }

  /** A trimmed history is one a provider accepts, if the history was. */
  lemma KeptIsPaired(runner: Runner, history: Transcript)
    requires PairComplete(history)
    ensures PairComplete(runner.Kept(history))
  {
    var budget := runner.Budget();
    if budget > 0 && history != [] {
      Standard().TrimIsSound(history, budget, runner.Kept(history));
    }
  }

  lemma TurnPairs(w: World, kept: Transcript, question: string, end: Progress)
    requires PairComplete(kept) && end == RunLoop(w, Start(w, kept, question))
    ensures |kept| < |end.st.messages| && AllPaired(end.st.requests)
    ensures PairComplete(end.st.messages[|kept|..]) <==> end.err != Some(Cancelled)
  {
    PairedAppend(kept, Message(User, question, [], []));
    LoopPairs(w, Start(w, kept, question));
    TurnAnswers(w, kept, question, end);
    var added := end.st.messages[|kept|..];
    assert added[|added| - 1] == end.st.messages[|end.st.messages| - 1];
    if end.err != Some(Cancelled) {
      PairCompleteSuffix(end.st.messages, |kept|);
    }
  }

  /** Every transcript a turn sends is acceptable, and what it adds is exactly unless it was cancelled. */
  lemma AskPairs(history: Transcript, q: Question, a: Answer)
    requires PairComplete(history) && q.runner.provider.Some? && a == Answered(q.runner, history, q.text)
    ensures AllPaired(SentBy(history, q))
    ensures PairComplete(a.added) <==> a.err != Some(Cancelled)
  {
    var w := q.runner.provider.value;
    var kept := q.runner.Kept(history);
    KeptIsPaired(q.runner, history);
    TurnPairs(w, kept, q.text, RunLoop(w, Start(w, kept, q.text)));
  }

  // ---- A conversation of many turns ----

  datatype Question = Question(runner: Runner, text: string)

  /** The handlers store a turn's messages when it succeeds and nothing when it fails. */
  function Stored(history: Transcript, q: Question): Transcript {
    var a := Answered(q.runner, history, q.text);
    if a.err.None? then history + a.added else history
  }

  /** The transcripts one question sends, request by request. */
  function SentBy(history: Transcript, q: Question): seq<Transcript> {
    match q.runner.provider
    case None => []
    case Some(w) => RunLoop(w, Start(w, q.runner.Kept(history), q.text)).st.requests
  }

  function Converse(history: Transcript, questions: seq<Question>): Transcript
    decreases |questions|
  {
    if questions == [] then history else Converse(Stored(history, questions[0]), questions[1..])
  }

  /** What the conversation sends its providers, turn by turn. */
  function Sent(history: Transcript, questions: seq<Question>): seq<Transcript>
    decreases |questions|
  {
    if questions == [] then []
    else SentBy(history, questions[0]) + Sent(Stored(history, questions[0]), questions[1..])
  }

  /** A stored conversation is empty or ends in an answer. */
  ghost predicate EndsPlain(ms: Transcript) {
    ms != [] ==> ms[|ms| - 1].results == []
  }

  lemma {:induction false} ConversationEndsPlain(history: Transcript, questions: seq<Question>)
    requires EndsPlain(history)
    ensures EndsPlain(Converse(history, questions))
    decreases |questions|
  {
    if questions != [] {
      var a := Answered(questions[0].runner, history, questions[0].text);
      if a.err.None? {
        AskAnswers(questions[0].runner, history, questions[0].text, a);
        assert (history + a.added)[|history + a.added| - 1] == a.added[|a.added| - 1];
      }
      ConversationEndsPlain(Stored(history, questions[0]), questions[1..]);
    }
  }

  /** Nothing the server stores ever comes out of the trimmer larger than it went in, whatever the budget. */
  lemma StoredNeverGrows(questions: seq<Question>, budget: int)
    ensures var ms := Converse([], questions);
            Standard().Total(Standard().Trim(ms, budget)) <= Standard().Total(ms)
  {
    ConversationEndsPlain([], questions);
    if Converse([], questions) != [] {
      PlainEndNeverGrows(Converse([], questions), budget);
    }
  }

  lemma QuestionStaysPaired(history: Transcript, q: Question)
    requires PairComplete(history)
    ensures PairComplete(Stored(history, q)) && AllPaired(SentBy(history, q))
  {
    if q.runner.provider.Some? {
      AskPairs(history, q, Answered(q.runner, history, q.text));
      if Answered(q.runner, history, q.text).err.None? {
        PairCompleteAppend(history, Answered(q.runner, history, q.text).added);
      }
    }
  }

  /** No request of any round of any turn ever breaks the pairing a provider requires. */
  lemma {:induction false} ConversationStaysPaired(history: Transcript, questions: seq<Question>)
    requires PairComplete(history)
    ensures PairComplete(Converse(history, questions))
    ensures AllPaired(Sent(history, questions))
    decreases |questions|
  {
    if questions != [] {
      QuestionStaysPaired(history, questions[0]);
      ConversationStaysPaired(Stored(history, questions[0]), questions[1..]);
    }
  }

  // ---- Steps ----

  /** The steps a message's calls and the results right after it amount to. */
  function PairSteps(w: World, calls: seq<ToolCall>, results: seq<ToolResult>): seq<Step> {
    seq(if |results| <= |calls| then |results| else |calls|,
        j requires 0 <= j < |results| && j < |calls| => StepOf(w.Normalise(calls[j]), results[j]))
  }

  /** Every tool result of a transcript, in order, each with the call it answers. */
  function StepsOf(w: World, ms: Transcript): seq<Step> {
    if |ms| < 2 then []
    else
      var n := |ms| - 1;
      StepsOf(w, ms[..n]) + PairSteps(w, ms[n - 1].calls, ms[n].results)
  }

  lemma StepsOfAppend(w: World, ms: Transcript, m: Message)
    requires ms != []
    ensures StepsOf(w, ms + [m]) == StepsOf(w, ms) + PairSteps(w, ms[|ms| - 1].calls, m.results)
  {
    assert (ms + [m])[..|ms|] == ms;
  }

  /** The recorded steps are those of the transcript; a cancelled turn has also run some of the last calls. */
  ghost predicate StepsMatch(w: World, from: nat, end: Progress)
    requires from < |end.st.messages|
  {
    var ms := end.st.messages[from..];
    var steps := end.st.turn.steps;
    var told := StepsOf(w, ms);
    if end.Stop? && end.err == Some(Cancelled) then
      told <= steps && |steps| < |told| + |ms[|ms| - 1].calls|
    else steps == told
  }

  lemma RoundSteps(w: World, from: nat, st: LoopState, p: Progress)
    requires from < |st.messages| && st.messages[|st.messages| - 1].calls == []
    requires st.turn.steps == StepsOf(w, st.messages[from..])
    requires Moved(w, st, p)
    ensures from < |p.st.messages| && StepsMatch(w, from, p)
    ensures p.Again? ==> p.st.messages[|p.st.messages| - 1].calls == []
  {
    var reply := w.chat(|st.requests|, st.messages);
    if reply.Replied? && !reply.response.truncated {
      var said := ReplyMessage(w, reply.response);
      SuffixAppend(st.messages, from, said);
      ExchangeSteps(w, st.messages[from..], said, |st.turn.steps|);
      if said.calls != [] {
        var results := RunTools(w, said.calls, |st.turn.steps|).results;
        SuffixAppend(st.messages + [said], from, Message(User, "", [], results));
      }
    }
  }

  /** A reply adds no steps; the results of a finished run add exactly the run's steps. */
  lemma ExchangeSteps(w: World, ms: Transcript, said: Message, done: nat)
    requires ms != [] && said.results == []
    ensures StepsOf(w, ms + [said]) == StepsOf(w, ms)
    ensures var ran := RunTools(w, said.calls, done);
            ran.finished ==>
              StepsOf(w, ms + [said] + [Message(User, "", [], ran.results)]) == StepsOf(w, ms) + ran.steps
  {
    StepsOfAppend(w, ms, said);
    assert PairSteps(w, ms[|ms| - 1].calls, said.results) == [];
    var ran := RunTools(w, said.calls, done);
    RunToolsRuns(w, said.calls, done);
    if ran.finished {
      StepsOfAppend(w, ms + [said], Message(User, "", [], ran.results));
      assert PairSteps(w, said.calls, ran.results) == ran.steps;
    }
  }

  lemma SuffixAppend(ms: Transcript, from: nat, m: Message)
    requires from <= |ms|
    ensures (ms + [m])[from..] == ms[from..] + [m]
  {
  }

  lemma {:induction false} LoopSteps(w: World, from: nat, st: LoopState)
    requires from < |st.messages| && st.messages[|st.messages| - 1].calls == []
    requires st.turn.steps == StepsOf(w, st.messages[from..])
    ensures from < |RunLoop(w, st).st.messages| && StepsMatch(w, from, RunLoop(w, st))
    decreases Measure(st)
  {
    if st.round < MAX_TOOL_ROUNDS {
      RoundMoves(w, st);
      RoundSteps(w, from, st, Round(w, st));
      OneRound(w, st);
      if Round(w, st).Again? {
        LoopSteps(w, from, Round(w, st).st);
      }
    }
  }

  /** On every exit but a cancellation, the turn's steps are all the results in what it added, in order. */
  lemma AskSteps(runner: Runner, history: Transcript, question: string)
    requires runner.provider.Some?
    ensures var a := Answered(runner, history, question);
            a.err != Some(Cancelled) ==> a.turn.value.steps == StepsOf(runner.provider.value, a.added)
  {
    var w := runner.provider.value;
    var kept := runner.Kept(history);
    var start := Start(w, kept, question);
    assert start.messages[|kept|..] == [Message(User, question, [], [])];
    LoopSteps(w, |kept|, start);
  }
}
