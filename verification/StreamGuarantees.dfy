/** What a listener can rely on while a turn streams. */
module StreamGuarantees {
  import opened Conversation
  import opened Text
  import opened Wrappers
  import opened AskLoop
  import opened AskStream
  import opened AskGuarantees

  // ---- The screen ----

  /** What the screen shows after the events: text is appended, a retraction clears it. */
  function Shown(screen: string, events: seq<Event>): string
    decreases |events|
  {
    if events == [] then screen else Shown(After(screen, events[0]), events[1..])
  }

  function After(screen: string, e: Event): string {
    if e.TextEvent? then screen + e.text else if e.RetractEvent? then "" else screen
  }

  /** All the assistant says in a transcript. */
  function Said(ms: Transcript): string {
    if ms == [] then ""
    else Said(ms[..|ms| - 1]) + SaidBy(ms[|ms| - 1])
  }

  function SaidBy(m: Message): string {
    if m.role.Assistant? then m.text else ""
  }

  lemma {:induction false} ShownAppend(screen: string, a: seq<Event>, b: seq<Event>)
    ensures Shown(screen, a + b) == Shown(Shown(screen, a), b)
    decreases |a|
  {
    if a == [] {
      assert a + b == b;
    } else {
      assert (a + b)[1..] == a[1..] + b;
      ShownAppend(After(screen, a[0]), a[1..], b);
    }
  }

  lemma {:induction false} ShownText(screen: string, deltas: seq<string>)
    ensures Shown(screen, TextEvents(deltas)) == screen + Concat(deltas)
    decreases |deltas|
  {
    if deltas == [] {
      assert screen + "" == screen;
    } else {
      var events := TextEvents(deltas);
      assert events[1..] == TextEvents(deltas[1..]);
      ShownText(screen + deltas[0], deltas[1..]);
      assert screen + deltas[0] + Concat(deltas[1..]) == screen + Concat(deltas);
    }
  }

  /** Events that carry no text leave the screen alone or clear it. */
  lemma {:induction false} ShownQuiet(screen: string, events: seq<Event>)
    requires forall e :: e in events ==> !e.TextEvent?
    ensures Shown(screen, events) == if RetractEvent in events then "" else screen
    decreases |events|
  {
    if events != [] {
      ShownQuiet(After(screen, events[0]), events[1..]);
      assert events == [events[0]] + events[1..];
    }
  }

  lemma ShownHeard(w: World, st: LoopState, screen: string)
    ensures Shown(screen, Heard(w, st)) == screen + Concat(w.deltas(|st.requests|, st.messages))
  {
    var text := TextEvents(w.deltas(|st.requests|, st.messages));
    assert Heard(w, st)[1..] == text;
    ShownText(screen, w.deltas(|st.requests|, st.messages));
  }

  lemma ShownOne(screen: string, e: Event)
    ensures Shown(screen, [e]) == After(screen, e)
  {
    assert [e][1..] == [];
  }

  lemma SaidAppend(ms: Transcript, from: nat, m: Message)
    requires from <= |ms|
    ensures Said((ms + [m])[from..]) == Said(ms[from..]) + SaidBy(m)
  {
    SuffixAppend(ms, from, m);
    assert (ms[from..] + [m])[..|ms| - from] == ms[from..];
  }

  // ---- The screen is what was heard since the last retraction, however the turn goes ----

  /** What a round reports once its reply is in. */
  function Judged(w: World, st: LoopState): seq<Event> {
    match w.chat(|st.requests|, st.messages)
    case ToolCallUnparsed => if st.unparsed < MAX_UNPARSED_RETRIES then [RetractEvent] else []
    case ProviderFailed(_) => []
    case Replied(response) => [UsageEvent(AddUsage(st.turn.usage, response.usage))] + Reported(w, st, response)
  }

  lemma {:induction false} ToolEventsOnly(steps: seq<Step>)
    ensures forall e :: e in ToolEvents(steps) ==> e.ToolEvent?
  {
    if steps != [] {
      ToolEventsOnly(steps[1..]);
    }
  }

  lemma {:induction false} TextEventsOnly(deltas: seq<string>)
    ensures forall e :: e in TextEvents(deltas) ==> e.TextEvent?
  {
    if deltas != [] {
      TextEventsOnly(deltas[1..]);
    }
  }

  lemma ReportedIsQuiet(w: World, st: LoopState, response: Response)
    ensures forall e :: e in Reported(w, st, response) ==> !e.TextEvent?
    ensures RetractEvent in Reported(w, st, response)
       <==> !response.truncated
            && var said := ReplyMessage(w, response);
               Recovered(w, response).Some? || (said.calls == [] && !w.blank(said.text) && w.jsonLike(said.text))
  {
    if !response.truncated {
      ToolEventsOnly(RunTools(w, ReplyMessage(w, response).calls, |st.turn.steps|).steps);
    }
  }

  lemma JudgedIsQuiet(w: World, st: LoopState)
    ensures forall e :: e in Judged(w, st) ==> !e.TextEvent?
    ensures RoundEvents(w, st) == Heard(w, st) + Judged(w, st)
    ensures RetractEvent in RoundEvents(w, st) <==> RetractEvent in Judged(w, st)
  {
    TextEventsOnly(w.deltas(|st.requests|, st.messages));
    match w.chat(|st.requests|, st.messages)
    case Replied(response) => ReportedIsQuiet(w, st, response);
    case _ =>
  }

  /** The fragments of the requests from number k on, whatever became of them. */
  function HeardOf(w: World, requests: seq<Transcript>, k: nat): string {
    if |requests| <= k then ""
    else
      var n := |requests| - 1;
      HeardOf(w, requests[..n], k) + Concat(w.deltas(n, requests[n]))
  }

  lemma HeardOfMore(w: World, requests: seq<Transcript>, next: Transcript, k: nat)
    ensures HeardOf(w, requests + [next], k)
         == if k <= |requests| then HeardOf(w, requests, k) + Concat(w.deltas(|requests|, next)) else ""
  {
    assert (requests + [next])[..|requests|] == requests;
  }

  lemma ShownRound(w: World, st: LoopState, screen: string)
    ensures Shown(screen, RoundEvents(w, st))
         == if RetractEvent in RoundEvents(w, st) then "" else screen + Concat(w.deltas(|st.requests|, st.messages))
  {
    JudgedIsQuiet(w, st);
    ShownAppend(screen, Heard(w, st), Judged(w, st));
    ShownHeard(w, st, screen);
    ShownQuiet(screen + Concat(w.deltas(|st.requests|, st.messages)), Judged(w, st));
  }

  /** The first request after the last one whose round retracted; k, if none did. */
  ghost function SinceRequest(w: World, st: LoopState, k: nat): nat
    decreases Measure(st)
  {
    if st.round >= MAX_TOOL_ROUNDS then k
    else
      match Round(w, st)
      case Again(next) => SinceRequest(w, next, FirstSince(w, st, k))
      case Stop(_, _) => FirstSince(w, st, k)
  }

  ghost function FirstSince(w: World, st: LoopState, k: nat): nat {
    if RetractEvent in RoundEvents(w, st) then |st.requests| + 1 else k
  }

  lemma {:induction false} HeardFrom(w: World, st: LoopState, k: nat)
    requires k <= |st.requests|
    ensures SinceRequest(w, st, k) <= |RunLoop(w, st).st.requests|
    ensures Shown(HeardOf(w, st.requests, k), Events(w, st))
         == HeardOf(w, RunLoop(w, st).st.requests, SinceRequest(w, st, k))
    decreases Measure(st)
  {
    if st.round < MAX_TOOL_ROUNDS {
      var p, screen := Round(w, st), HeardOf(w, st.requests, k);
      OneRound(w, st);
      RoundMoves(w, st);
      ShownRound(w, st, screen);
      HeardOfMore(w, st.requests, st.messages, k);
      HeardOfMore(w, st.requests, st.messages, |st.requests| + 1);
      if p.Again? {
        HeardFrom(w, p.st, FirstSince(w, st, k));
        ShownAppend(screen, RoundEvents(w, st), Events(w, p.st));
      }
    }
  }

  /**
    However the provider behaves and however the turn ends, the screen is exactly the fragments of the requests made
    since the last retraction.
   */
  lemma ScreenIsHeard(w: World, kept: Transcript, question: string)
    ensures var start := Start(w, kept, question);
            Shown("", Events(w, start)) == HeardOf(w, RunLoop(w, start).st.requests, SinceRequest(w, start, 0))
  {
    HeardFrom(w, Start(w, kept, question), 0);
  }

  // ---- On success the transcript says what was replied since then ----

  function TextAt(w: World, n: nat, request: Transcript): string {
    var reply := w.chat(n, request);
    if reply.Replied? then reply.response.text else ""
  }

  /** The texts of the replies to the requests from number k on. */
  function TextsOf(w: World, requests: seq<Transcript>, k: nat): string {
    if |requests| <= k then ""
    else
      var n := |requests| - 1;
      TextsOf(w, requests[..n], k) + TextAt(w, n, requests[n])
  }

  lemma TextsOfMore(w: World, requests: seq<Transcript>, next: Transcript, k: nat)
    ensures TextsOf(w, requests + [next], k)
         == if k <= |requests| then TextsOf(w, requests, k) + TextAt(w, |requests|, next) else ""
  {
    assert (requests + [next])[..|requests|] == requests;
  }

  ghost predicate AllReplied(w: World, requests: seq<Transcript>, k: nat) {
    forall i :: k <= i < |requests| ==> w.chat(i, requests[i]).Replied?
  }

  /** Of the replies to the requests from number k on, each is made up of its fragments. */
  ghost predicate Faithful(w: World, requests: seq<Transcript>, k: nat) {
    forall i :: k <= i < |requests| && w.chat(i, requests[i]).Replied? ==>
      Concat(w.deltas(i, requests[i])) == w.chat(i, requests[i]).response.text
  }

  lemma {:induction false} HeardIsReplied(w: World, requests: seq<Transcript>, k: nat)
    requires AllReplied(w, requests, k) && Faithful(w, requests, k)
    ensures HeardOf(w, requests, k) == TextsOf(w, requests, k)
  {
    if |requests| > k {
      HeardIsReplied(w, requests[..|requests| - 1], k);
    }
  }

  /** How long the transcript was when something was last retracted; `from`, if nothing was. */
  ghost function SinceRetraction(w: World, st: LoopState, from: nat): nat
    decreases Measure(st)
  {
    if st.round >= MAX_TOOL_ROUNDS then from
    else
      match Round(w, st)
      case Again(next) => SinceRetraction(w, next, SinceRound(w, st, from))
      case Stop(_, _) => SinceRound(w, st, from)
  }

  ghost function SinceRound(w: World, st: LoopState, from: nat): nat {
    if RetractEvent in RoundEvents(w, st) then |st.messages| else from
  }

  /** The transcript from one message on says what the replies from one request on said, and all of those came. */
  ghost predicate SaysReplies(w: World, st: LoopState, from: nat, k: nat) {
    && from <= |st.messages| && k <= |st.requests|
    && Said(st.messages[from..]) == TextsOf(w, st.requests, k) && AllReplied(w, st.requests, k)
  }

  lemma RoundSaysReplies(w: World, st: LoopState, p: Progress, from: nat, k: nat)
    requires Moved(w, st, p) && p == Round(w, st) && (p.Again? || p.err.None?) && SaysReplies(w, st, from, k)
    ensures |st.messages| <= |p.st.messages| && SaysReplies(w, p.st, SinceRound(w, st, from), FirstSince(w, st, k))
  {
    if RetractEvent in RoundEvents(w, st) {
      RetractedSays(w, st, p);
    } else {
      KeptSays(w, st, p, from, k);
    }
  }

  lemma RetractedSays(w: World, st: LoopState, p: Progress)
    requires Moved(w, st, p) && p == Round(w, st) && (p.Again? || p.err.None?) && RetractEvent in RoundEvents(w, st)
    ensures |st.messages| <= |p.st.messages| && SaysReplies(w, p.st, |st.messages|, |st.requests| + 1)
  {
    var reply := w.chat(|st.requests|, st.messages);
    JudgedIsQuiet(w, st);
    if reply.Replied? {
      ReportedIsQuiet(w, st, reply.response);
      MoreSaid(w, st, p, |st.messages|, reply.response);
    }
  }

  lemma KeptSays(w: World, st: LoopState, p: Progress, from: nat, k: nat)
    requires Moved(w, st, p) && p == Round(w, st) && (p.Again? || p.err.None?) && RetractEvent !in RoundEvents(w, st)
    requires SaysReplies(w, st, from, k)
    ensures |st.messages| <= |p.st.messages| && SaysReplies(w, p.st, from, k)
  {
    KeptIsReplied(w, st, p);
    TextsOfMore(w, st.requests, st.messages, k);
    MoreSaid(w, st, p, from, w.chat(|st.requests|, st.messages).response);
    AllRepliedMore(w, st.requests, st.messages, k);
  }

  /** A round that goes on or succeeds without retracting took its reply as it was. */
  lemma KeptIsReplied(w: World, st: LoopState, p: Progress)
    requires Moved(w, st, p) && p == Round(w, st) && (p.Again? || p.err.None?) && RetractEvent !in RoundEvents(w, st)
    ensures var reply := w.chat(|st.requests|, st.messages); reply.Replied? && Recovered(w, reply.response).None?
  {
    var reply := w.chat(|st.requests|, st.messages);
    JudgedIsQuiet(w, st);
    if reply.Replied? {
      ReportedIsQuiet(w, st, reply.response);
    }
  }

  lemma AllRepliedMore(w: World, requests: seq<Transcript>, next: Transcript, k: nat)
    requires AllReplied(w, requests, k) && w.chat(|requests|, next).Replied?
    ensures AllReplied(w, requests + [next], k)
  {
  }

  /** A reply that goes into the transcript says its text, unless it was a call written as prose. */
  lemma MoreSaid(w: World, st: LoopState, p: Progress, from: nat, response: Response)
    requires Moved(w, st, p) && (p.Again? || p.err.None?) && from <= |st.messages|
    requires w.chat(|st.requests|, st.messages) == Replied(response)
    ensures |st.messages| <= |p.st.messages|
    ensures Said(p.st.messages[from..])
         == Said(st.messages[from..]) + if Recovered(w, response).Some? then "" else response.text
  {
    var said := ReplyMessage(w, response);
    SaidAppend(st.messages, from, said);
    if said.calls != [] {
      SaidAppend(st.messages + [said], from, Message(User, "", [], RunTools(w, said.calls, |st.turn.steps|).results));
    }
  }

  lemma {:induction false} SaysRepliesFrom(w: World, st: LoopState, from: nat, k: nat)
    requires SaysReplies(w, st, from, k) && RunLoop(w, st).err.None?
    ensures SaysReplies(w, RunLoop(w, st).st, SinceRetraction(w, st, from), SinceRequest(w, st, k))
    ensures from <= SinceRetraction(w, st, from) < |RunLoop(w, st).st.messages|
    ensures RetractEvent !in Events(w, st) ==> SinceRetraction(w, st, from) == from
    decreases Measure(st)
  {
    var p := Round(w, st);
    OneRound(w, st);
    RoundMoves(w, st);
    RoundSaysReplies(w, st, p, from, k);
    if p.Again? {
      SaysRepliesFrom(w, p.st, SinceRound(w, st, from), FirstSince(w, st, k));
    }
  }

  /**
    From any point of a turn that ends in success: if the replies since the last retraction are made up of their
    fragments, the screen holds what the assistant said since then, whole messages that went into the transcript.
   */
  lemma ScreenFrom(w: World, st: LoopState, from: nat, k: nat)
    requires SaysReplies(w, st, from, k) && RunLoop(w, st).err.None?
    requires Faithful(w, RunLoop(w, st).st.requests, SinceRequest(w, st, k))
    ensures from <= SinceRetraction(w, st, from) < |RunLoop(w, st).st.messages|
    ensures Shown(HeardOf(w, st.requests, k), Events(w, st))
         == Said(RunLoop(w, st).st.messages[SinceRetraction(w, st, from)..])
    ensures RetractEvent !in Events(w, st) ==> SinceRetraction(w, st, from) == from
  {
    HeardFrom(w, st, k);
    SaysRepliesFrom(w, st, from, k);
    HeardIsReplied(w, RunLoop(w, st).st.requests, SinceRequest(w, st, k));
  }

  lemma {:induction false} SaidEnds(ms: Transcript, from: nat)
    requires from < |ms| && ms[|ms| - 1].role.Assistant?
    ensures |ms[|ms| - 1].text| <= |Said(ms[from..])|
    ensures ms[|ms| - 1].text == Said(ms[from..])[|Said(ms[from..])| - |ms[|ms| - 1].text|..]
  {
    var tail := ms[from..];
    assert tail[|tail| - 1] == ms[|ms| - 1];
  }

  /**
    The screen of a successful turn is exactly what the assistant said since the last retraction, or since the question
    if nothing was retracted, and so ends in the answer. Of the provider this asks only that the replies it made since
    then are made up of their fragments.
   */
  lemma ScreenShowsTheAnswer(w: World, kept: Transcript, question: string, end: Progress, screen: string, from: nat)
    requires end == RunLoop(w, Start(w, kept, question)) && screen == Shown("", Events(w, Start(w, kept, question)))
    requires from == SinceRetraction(w, Start(w, kept, question), |kept| + 1)
    requires end.err.None? && Faithful(w, end.st.requests, SinceRequest(w, Start(w, kept, question), 0))
    ensures |kept| < from < |end.st.messages|
    ensures screen == Said(end.st.messages[from..])
    ensures |end.st.turn.text| <= |screen| && screen[|screen| - |end.st.turn.text|..] == end.st.turn.text
    ensures RetractEvent !in Events(w, Start(w, kept, question)) ==> from == |kept| + 1
  {
    StartSaysNothing(w, kept, question);
    ScreenFrom(w, Start(w, kept, question), |kept| + 1, 0);
    LastIsTheAnswer(w, kept, question, end);
    SaidEnds(end.st.messages, from);
  }

  lemma StartSaysNothing(w: World, kept: Transcript, question: string)
    ensures SaysReplies(w, Start(w, kept, question), |kept| + 1, 0)
    ensures HeardOf(w, Start(w, kept, question).requests, 0) == ""
  {
    assert Start(w, kept, question).messages[|kept| + 1..] == [];
  }

  lemma LastIsTheAnswer(w: World, kept: Transcript, question: string, end: Progress)
    requires end == RunLoop(w, Start(w, kept, question)) && end.err.None? && end.st.messages != []
    ensures var last := end.st.messages[|end.st.messages| - 1]; last.role.Assistant? && last.text == end.st.turn.text
  {
    TurnAnswers(w, kept, question, end);
    var added := end.st.messages[|kept|..];
    assert added[|added| - 1] == end.st.messages[|end.st.messages| - 1];
  }

  // ---- Tools and totals ----

  function ToolsOf(events: seq<Event>): seq<(string, string)> {
    if events == [] then []
    else ToolOf(events[0]) + ToolsOf(events[1..])
  }

  function ToolOf(e: Event): seq<(string, string)> {
    if e.ToolEvent? then [(e.tool, e.input)] else []
  }

  function ToolsRun(steps: seq<Step>): seq<(string, string)> {
    if steps == [] then [] else [(steps[0].tool, steps[0].input)] + ToolsRun(steps[1..])
  }

  function TotalsOf(events: seq<Event>): seq<Usage> {
    if events == [] then []
    else TotalOf(events[0]) + TotalsOf(events[1..])
  }

  function TotalOf(e: Event): seq<Usage> {
    if e.UsageEvent? then [e.usage] else []
  }

  lemma EventsOfAppend(a: seq<Event>, b: seq<Event>)
    ensures ToolsOf(a + b) == ToolsOf(a) + ToolsOf(b)
    ensures TotalsOf(a + b) == TotalsOf(a) + TotalsOf(b)
  {
    ToolsOfAppend(a, b);
    TotalsOfAppend(a, b);
  }

  lemma {:induction false} ToolsOfAppend(a: seq<Event>, b: seq<Event>)
    ensures ToolsOf(a + b) == ToolsOf(a) + ToolsOf(b)
  {
    if a == [] {
      assert a + b == b;
    } else {
      assert (a + b)[1..] == a[1..] + b;
      ToolsOfAppend(a[1..], b);
      Assoc(ToolOf(a[0]), ToolsOf(a[1..]), ToolsOf(b));
    }
  }

  lemma {:induction false} TotalsOfAppend(a: seq<Event>, b: seq<Event>)
    ensures TotalsOf(a + b) == TotalsOf(a) + TotalsOf(b)
  {
    if a == [] {
      assert a + b == b;
    } else {
      assert (a + b)[1..] == a[1..] + b;
      TotalsOfAppend(a[1..], b);
      Assoc(TotalOf(a[0]), TotalsOf(a[1..]), TotalsOf(b));
    }
  }

  lemma {:induction false} ToolsRunAppend(a: seq<Step>, b: seq<Step>)
    ensures ToolsRun(a + b) == ToolsRun(a) + ToolsRun(b)
  {
    if a == [] {
      assert a + b == b;
    } else {
      assert (a + b)[1..] == a[1..] + b;
      ToolsRunAppend(a[1..], b);
    }
  }

  lemma {:induction false} HeardSaysNeither(deltas: seq<string>)
    ensures ToolsOf(TextEvents(deltas)) == [] && TotalsOf(TextEvents(deltas)) == []
  {
    if deltas != [] {
      assert TextEvents(deltas)[1..] == TextEvents(deltas[1..]);
      HeardSaysNeither(deltas[1..]);
    }
  }

  lemma {:induction false} ToolEventsTell(steps: seq<Step>)
    ensures ToolsOf(ToolEvents(steps)) == ToolsRun(steps) && TotalsOf(ToolEvents(steps)) == []
  {
    if steps != [] {
      assert ToolEvents(steps)[1..] == ToolEvents(steps[1..]);
      ToolEventsTell(steps[1..]);
    }
  }

  lemma OneEventTells(e: Event)
    ensures ToolsOf([e]) == ToolOf(e) && TotalsOf([e]) == TotalOf(e)
  {
    assert [e][1..] == [];
  }

  lemma HeardTells(w: World, st: LoopState, more: seq<Event>)
    ensures ToolsOf(Heard(w, st) + more) == ToolsOf(more) && TotalsOf(Heard(w, st) + more) == TotalsOf(more)
  {
    var text := TextEvents(w.deltas(|st.requests|, st.messages));
    HeardSaysNeither(w.deltas(|st.requests|, st.messages));
    OneEventTells(RoundEvent(st.round + 1));
    EventsOfAppend([RoundEvent(st.round + 1)], text);
    EventsOfAppend(Heard(w, st), more);
  }

  lemma AcceptedTells(w: World, st: LoopState, response: Response, usage: Usage)
    ensures var told := [UsageEvent(usage)] + Reported(w, st, response);
            ToolsOf(told) == ToolsOf(Reported(w, st, response)) && TotalsOf(told) == [usage]
  {
    OneEventTells(UsageEvent(usage));
    ReportedTells(w, st, response);
    EventsOfAppend([UsageEvent(usage)], Reported(w, st, response));
  }

  lemma RoundSays(w: World, st: LoopState)
    ensures var reply := w.chat(|st.requests|, st.messages);
            && ToolsOf(RoundEvents(w, st)) == (if reply.Replied? then ToolsOf(Reported(w, st, reply.response)) else [])
            && TotalsOf(RoundEvents(w, st))
               == (if reply.Replied? then [AddUsage(st.turn.usage, reply.response.usage)] else [])
  {
    match w.chat(|st.requests|, st.messages)
    case Replied(response) =>
      var usage := AddUsage(st.turn.usage, response.usage);
      HeardTells(w, st, [UsageEvent(usage)] + Reported(w, st, response));
      AcceptedTells(w, st, response, usage);
    case _ =>
      HeardTells(w, st, []);
      HeardTells(w, st, [RetractEvent]);
      OneEventTells(RetractEvent);
  }

  /** One round announces the tools it runs and, if its reply was accepted, the totals so far. */
  lemma RoundTells(w: World, st: LoopState, p: Progress)
    requires Moved(w, st, p) && Metered(w, st, p)
    ensures p.st.turn.steps[..|st.turn.steps|] == st.turn.steps <= p.st.turn.steps
    ensures ToolsOf(RoundEvents(w, st)) == ToolsRun(p.st.turn.steps[|st.turn.steps|..])
    ensures TotalsOf(RoundEvents(w, st))
         == if p.st.turn.rounds == st.turn.rounds then [] else [p.st.turn.usage]
  {
    var reply := w.chat(|st.requests|, st.messages);
    RoundSays(w, st);
    if reply.Replied? {
      ReportedTells(w, st, reply.response);
    }
  }

  lemma ReportedTells(w: World, st: LoopState, response: Response)
    ensures TotalsOf(Reported(w, st, response)) == []
    ensures ToolsOf(Reported(w, st, response))
         == if response.truncated then []
            else ToolsRun(RunTools(w, ReplyMessage(w, response).calls, |st.turn.steps|).steps)
  {
    if !response.truncated {
      var said := ReplyMessage(w, response);
      var recovery := if Recovered(w, response).Some? then [RetractEvent] else [];
      var rest := if said.calls != [] then ToolEvents(RunTools(w, said.calls, |st.turn.steps|).steps)
                  else if !w.blank(said.text) && w.jsonLike(said.text) then [RetractEvent] else [];
      OneEventTells(RetractEvent);
      EventsOfAppend(recovery, rest);
      ToolEventsTell(RunTools(w, said.calls, |st.turn.steps|).steps);
    }
  }

  /** However the turn ends, the tools announced are exactly the steps recorded, in order. */
  lemma {:induction false} ToolsAnnounced(w: World, st: LoopState)
    ensures st.turn.steps <= RunLoop(w, st).st.turn.steps
    ensures ToolsOf(Events(w, st)) == ToolsRun(RunLoop(w, st).st.turn.steps[|st.turn.steps|..])
    decreases Measure(st)
  {
    if st.round < MAX_TOOL_ROUNDS {
      var p := Round(w, st);
      OneRound(w, st);
      RoundMoves(w, st);
      RoundMeters(w, st);
      RoundTells(w, st, p);
      if p.Again? {
        ToolsAnnounced(w, p.st);
        var end := RunLoop(w, p.st).st.turn.steps;
        EventsOfAppend(RoundEvents(w, st), Events(w, p.st));
        ToolsRunAppend(p.st.turn.steps[|st.turn.steps|..], end[|p.st.turn.steps|..]);
        SlicesJoin(st.turn.steps, p.st.turn.steps, end);
      }
    }
  }

  lemma SlicesJoin(a: seq<Step>, b: seq<Step>, c: seq<Step>)
    requires a <= b <= c
    ensures c[|a|..] == b[|a|..] + c[|b|..] && a <= c
  {
  }

  /** The totals reported are the running bill: one for each accepted reply, none for a retried one. */
  ghost predicate RunningBill(model: string, replies: seq<Response>, from: nat, totals: seq<Usage>) {
    && |replies| == from + |totals|
    && forall i :: 0 <= i < |totals| ==> totals[i] == Bill(model, replies[..from + i + 1])
  }

  lemma RunningBillJoin(model: string, replies: seq<Response>, from: nat, to: nat, first: seq<Usage>, rest: seq<Usage>)
    requires from <= to <= |replies|
    requires RunningBill(model, replies[..to], from, first) && RunningBill(model, replies, to, rest)
    ensures RunningBill(model, replies, from, first + rest)
  {
    forall i | 0 <= i < |first + rest|
      ensures (first + rest)[i] == Bill(model, replies[..from + i + 1])
    {
      if i < |first| {
        assert replies[..to][..from + i + 1] == replies[..from + i + 1];
      }
    }
  }

  lemma {:induction false} TotalsRun(w: World, st: LoopState, replies: seq<Response>)
    requires Counted(w, st) && replies == Accepted(w, RunLoop(w, st).st.requests)
    ensures Accepted(w, st.requests) <= replies
    ensures RunningBill(w.model, replies, st.turn.rounds, TotalsOf(Events(w, st)))
    decreases Measure(st)
  {
    if st.round < MAX_TOOL_ROUNDS {
      var p := Round(w, st);
      OneRound(w, st);
      RoundTotals(w, st, p);
      if p.Again? {
        TotalsRun(w, p.st, replies);
        assert replies[..p.st.turn.rounds] == Accepted(w, p.st.requests);
        EventsOfAppend(RoundEvents(w, st), Events(w, p.st));
        RunningBillJoin(w.model, replies, st.turn.rounds, p.st.turn.rounds,
                        TotalsOf(RoundEvents(w, st)), TotalsOf(Events(w, p.st)));
      }
    }
  }

  lemma RoundTotals(w: World, st: LoopState, p: Progress)
    requires Counted(w, st) && st.round < MAX_TOOL_ROUNDS && p == Round(w, st)
    ensures Accounted(w, p.st.turn, p.st.requests) && (p.Again? ==> Counted(w, p.st))
    ensures Accepted(w, st.requests) <= Accepted(w, p.st.requests)
    ensures RunningBill(w.model, Accepted(w, p.st.requests), st.turn.rounds, TotalsOf(RoundEvents(w, st)))
  {
    RoundMeters(w, st);
    RoundCounts(w, st, p);
    OneMoreRequest(w, st.requests, st.messages);
    RoundSays(w, st);
    OneMoreTotal(w.model, Accepted(w, st.requests), Accepted(w, p.st.requests), TotalsOf(RoundEvents(w, st)));
  }

  lemma OneMoreTotal(model: string, before: seq<Response>, replies: seq<Response>, totals: seq<Usage>)
    requires before <= replies && |replies| <= |before| + 1
    requires totals == if replies == before then [] else [Bill(model, replies)]
    ensures RunningBill(model, replies, |before|, totals)
  {
    assert replies[..|replies|] == replies;
  }

  lemma TotalsAreTheBill(w: World, kept: Transcript, question: string)
    ensures var start := Start(w, kept, question);
            RunningBill(w.model, Accepted(w, RunLoop(w, start).st.requests), 0, TotalsOf(Events(w, start)))
  {
    var start := Start(w, kept, question);
    TotalsRun(w, start, Accepted(w, RunLoop(w, start).st.requests));
  }
}
