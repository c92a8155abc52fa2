/** The two-stage history trimmer (internal/assistant/history.go). */
module History {
  import opened Conversation
  import opened Text

  // ---- Size estimate ----

  function CallBytes(calls: seq<ToolCall>): nat {
    if calls == [] then 0 else Utf8Len(calls[0].name) + Utf8Len(calls[0].input) + CallBytes(calls[1..])
  }

  function ResultBytes(results: seq<ToolResult>): nat {
    if results == [] then 0 else Utf8Len(results[0].name) + Utf8Len(results[0].content) + ResultBytes(results[1..])
  }

  function Tokens(m: Message): nat {
    (Utf8Len(m.text) + CallBytes(m.calls) + ResultBytes(m.results)) / 4 + 4
  }

  method EstimateTokens(m: Message) returns (tokens: nat)
    ensures tokens == Tokens(m)
  {
    var n := Utf8Len(m.text);
    for i := 0 to |m.calls|
      invariant n + CallBytes(m.calls[i..]) == Utf8Len(m.text) + CallBytes(m.calls)
    {
      n := n + Utf8Len(m.calls[i].name) + Utf8Len(m.calls[i].input);
    }
    for i := 0 to |m.results|
      invariant n + ResultBytes(m.results[i..]) == Utf8Len(m.text) + CallBytes(m.calls) + ResultBytes(m.results)
    {
      n := n + Utf8Len(m.results[i].name) + Utf8Len(m.results[i].content);
    }
    tokens := n / 4 + 4;
  }

  /**
    What the trimmer knows of messages: a size for each, and the text that stands for an omitted result.
    Everything below holds for any positive sizes and any text.
   */
  datatype Estimator = Estimator(size: Message -> nat, stub: string) {

    ghost predicate Positive() {
      forall m :: size(m) > 0
    }

    function Total(ms: Transcript): nat {
      if ms == [] then 0 else size(ms[0]) + Total(ms[1..])
    }

    method EstimateTotal(ms: Transcript) returns (n: nat)
      ensures n == Total(ms)
    {
      n := 0;
      for i := 0 to |ms|
        invariant n + Total(ms[i..]) == Total(ms)
      {
        n := n + size(ms[i]);
      }
    }

    // ---- What trimming computes ----

    function StubMessage(m: Message): Message {
      m.(results := seq(|m.results|, j requires 0 <= j < |m.results| => m.results[j].(content := stub)))
    }

    /** Stage one: walking back from the newest message, stub whatever payload runs past the budget. */
    function Stubbed(ms: Transcript, budget: int): (r: Transcript)
      ensures |r| == |ms|
    {
      if ms == [] then []
      else
        var rest := Stubbed(ms[1..], budget);
        if size(ms[0]) + Total(rest) <= budget || ms[0].results == [] then [ms[0]] + rest
        else [StubMessage(ms[0])] + rest
    }

    /** Where the longest suffix that fits the budget starts. */
    function FitStart(ms: Transcript, budget: int): (k: nat)
      ensures k <= |ms|
      ensures budget >= 0 ==> Total(ms[k..]) <= budget
      ensures 0 < k ==> Total(ms[k - 1..]) > budget
    {
      if ms == [] || Total(ms) <= budget then 0
      else
        var k := FitStart(ms[1..], budget);
        assert ms[1..][k..] == ms[k + 1..];
        assert 0 < k ==> ms[1..][k - 1..] == ms[k..];
        k + 1
    }

    function DropStart(ms: Transcript, budget: int): (k: nat)
      requires ms != []
      ensures k < |ms|
    {
      var next := NextPlain(ms, FitStart(ms, budget));
      if next < |ms| then next else LastPlain(ms)
    }

    function Trim(ms: Transcript, budget: int): Transcript {
      if budget <= 0 || Total(ms) <= budget then ms
      else
        var stubbed := Stubbed(ms, budget);
        if Total(stubbed) <= budget then stubbed else stubbed[DropStart(stubbed, budget)..]
    }

    // ---- The loops of trimHistory compute exactly that ----

    method TrimHistory(history: Transcript, budget: int) returns (kept: Transcript)
      requires Positive()
      ensures kept == Trim(history, budget)
    {
      if budget <= 0 || |history| == 0 {
        return history;
      }
      var used := EstimateTotal(history);
      if used <= budget {
        return history;
      }
      var trimmed := new Message[|history|](i requires 0 <= i < |history| => history[i]);
      assert trimmed[..] == history;
      StubOld(trimmed, budget);
      used := EstimateTotal(trimmed[..]);
      if used <= budget {
        return trimmed[..];
      }
      var start := KeepFrom(trimmed[..], budget);
      kept := trimmed[..][start..];
    }

    /** Stage one, in place. */
    method StubOld(trimmed: array<Message>, budget: int)
      modifies trimmed
      ensures trimmed[..] == Stubbed(old(trimmed[..]), budget)
    {
      ghost var ms := trimmed[..];
      var used := 0;
      var i := trimmed.Length - 1;
      assert trimmed[trimmed.Length..] == ms[trimmed.Length..] == [];
      while i >= 0
        invariant -1 <= i < trimmed.Length
        invariant trimmed[..i + 1] == ms[..i + 1]
        invariant trimmed[i + 1..] == Stubbed(ms[i + 1..], budget)
        invariant used == Total(trimmed[i + 1..])
      {
        ghost var rest := trimmed[i + 1..];
        StubbedFrom(ms, budget, i, rest);
        assert trimmed[i] == trimmed[..i + 1][i] == ms[i];
        used := used + size(trimmed[i]);
        if !(used <= budget || |trimmed[i].results| == 0) {
          used := used - size(trimmed[i]);
          var results := StubResults(trimmed[i].results);
          trimmed[i] := trimmed[i].(results := results);
          assert trimmed[i] == StubMessage(ms[i]);
          used := used + size(trimmed[i]);
        }
        assert trimmed[i..] == [trimmed[i]] + rest;
        i := i - 1;
      }
      assert ms[0..] == ms && trimmed[..] == trimmed[0..];
    }

    method StubResults(from: seq<ToolResult>) returns (results: seq<ToolResult>)
      ensures |results| == |from| && forall j :: 0 <= j < |from| ==> results[j] == from[j].(content := stub)
    {
      results := [];
      for j := 0 to |from|
        invariant |results| == j && forall k :: 0 <= k < j ==> results[k] == from[k].(content := stub)
      {
        results := results + [from[j].(content := stub)];
      }
    }

    /** Stage two: how much of the oldest end to drop. */
    method KeepFrom(trimmed: Transcript, budget: int) returns (start: nat)
      requires Positive() && budget > 0 && Total(trimmed) > budget
      ensures start == DropStart(trimmed, budget)
    {
      var fit := FindFit(trimmed, budget);
      start := ToPlain(trimmed, fit);
      if start >= |trimmed| {
        start := BackToPlain(trimmed);
      }
    }

    method ToPlain(trimmed: Transcript, from: nat) returns (start: nat)
      requires from <= |trimmed|
      ensures start == NextPlain(trimmed, from)
    {
      start := from;
      while start < |trimmed| && |trimmed[start].results| > 0
        invariant start <= |trimmed|
        invariant NextPlain(trimmed, start) == NextPlain(trimmed, from)
      {
        start := start + 1;
      }
    }

    method BackToPlain(trimmed: Transcript) returns (start: nat)
      requires trimmed != []
      ensures start == LastPlain(trimmed)
    {
      start := |trimmed| - 1;
      while start > 0 && |trimmed[start].results| > 0
        invariant start < |trimmed|
        invariant PlainBefore(trimmed, start) == LastPlain(trimmed)
      {
        start := start - 1;
      }
    }

    method FindFit(trimmed: Transcript, budget: int) returns (start: nat)
      requires Positive() && budget > 0 && Total(trimmed) > budget
      ensures start == FitStart(trimmed, budget)
    {
      assert trimmed[0..] == trimmed;
      start := 0;
      var used := 0;
      var i := |trimmed| - 1;
      while i >= 0
        invariant -1 <= i < |trimmed|
        invariant used == Total(trimmed[i + 1..]) <= budget
        invariant start == 0
      {
        assert trimmed[i..][1..] == trimmed[i + 1..];
        used := used + size(trimmed[i]);
        if used > budget {
          start := i + 1;
          break;
        }
        i := i - 1;
      }
      FitStartUnique(trimmed, budget, start);
    }

    // ---- Sizes of suffixes ----

    lemma {:induction false} TotalShrinks(ms: Transcript, a: nat, b: nat)
      requires a <= b <= |ms|
      ensures Total(ms[b..]) <= Total(ms[a..])
      ensures Positive() && a < b ==> Total(ms[b..]) < Total(ms[a..])
      decreases b - a
    {
      if a < b {
        assert ms[a..][1..] == ms[a + 1..];
        TotalShrinks(ms, a + 1, b);
      }
    }

    lemma FitStartAtMost(ms: Transcript, budget: int, k: nat)
      requires k <= |ms| && Total(ms[k..]) <= budget
      ensures FitStart(ms, budget) <= k
    {
      var f := FitStart(ms, budget);
      if k < f {
        TotalShrinks(ms, k, f - 1);
      }
    }

    lemma FitStartUnique(ms: Transcript, budget: int, k: nat)
      requires k <= |ms| && Total(ms[k..]) <= budget
      requires 0 < k ==> Total(ms[k - 1..]) > budget
      ensures FitStart(ms, budget) == k
    {
      FitStartAtMost(ms, budget, k);
      var f := FitStart(ms, budget);
      if f < k {
        TotalShrinks(ms, f, k - 1);
      }
    }

    // ---- Stage one, looked at from outside ----

    /** Message for message the same, except that some result bodies are stubs. */
    ghost predicate SameButStubs(ms: Transcript, r: Transcript) {
      |r| == |ms| && forall i :: 0 <= i < |ms| ==> r[i] == ms[i] || (ms[i].results != [] && r[i] == StubMessage(ms[i]))
    }

    lemma {:induction false} StubbedSame(ms: Transcript, budget: int)
      ensures SameButStubs(ms, Stubbed(ms, budget))
    {
      if ms != [] {
        StubbedSame(ms[1..], budget);
        var r := Stubbed(ms, budget);
        forall i | 0 < i < |ms|
          ensures r[i] == ms[i] || (ms[i].results != [] && r[i] == StubMessage(ms[i]))
        {
          assert r[i] == Stubbed(ms[1..], budget)[i - 1] && ms[i] == ms[1..][i - 1];
        }
      }
    }

    lemma {:induction false} StubbedSuffix(ms: Transcript, budget: int, from: nat)
      requires from <= |ms|
      ensures Stubbed(ms, budget)[from..] == Stubbed(ms[from..], budget)
    {
      if from > 0 {
        StubbedSuffix(ms[1..], budget, from - 1);
        assert ms[1..][from - 1..] == ms[from..];
        assert Stubbed(ms, budget)[from..] == Stubbed(ms[1..], budget)[from - 1..];
      } else {
        assert ms[0..] == ms;
      }
    }

    /** Whether message i is stubbed depends on it and on what follows it, stubbed. */
    lemma StubbedFrom(ms: Transcript, budget: int, i: nat, rest: Transcript)
      requires i < |ms| && rest == Stubbed(ms[i + 1..], budget)
      ensures Stubbed(ms[i..], budget)
           == [if size(ms[i]) + Total(rest) <= budget || ms[i].results == [] then ms[i] else StubMessage(ms[i])] + rest
      ensures forall m :: Total([m] + rest) == size(m) + Total(rest)
    {
      assert ms[i..][1..] == ms[i + 1..] && ms[i..][0] == ms[i];
      forall m
        ensures Total([m] + rest) == size(m) + Total(rest)
      {
        assert ([m] + rest)[1..] == rest;
      }
    }

    lemma StubbedCons(ms: Transcript, budget: int)
      requires ms != []
      ensures var rest := Stubbed(ms[1..], budget);
              var stubs := ms[0].results != [] && size(ms[0]) + Total(rest) > budget;
              Total(Stubbed(ms, budget)) == (if stubs then size(StubMessage(ms[0])) else size(ms[0])) + Total(rest)
    {
      StubbedFrom(ms, budget, 0, Stubbed(ms[1..], budget));
      assert ms[0..] == ms;
    }

    /** A stubbed transcript has nothing left to stub. */
    lemma {:induction false} StubbedTwice(ms: Transcript, budget: int)
      ensures Stubbed(Stubbed(ms, budget), budget) == Stubbed(ms, budget)
    {
      if ms != [] {
        var once := Stubbed(ms, budget);
        assert once[1..] == Stubbed(ms[1..], budget);
        StubbedTwice(ms[1..], budget);
        assert StubMessage(StubMessage(ms[0])) == StubMessage(ms[0]);
      }
    }

    /** What fits the budget is not stubbed. */
    lemma {:induction false} StubbedWithinBudget(ms: Transcript, budget: int)
      requires Total(ms) <= budget
      ensures Stubbed(ms, budget) == ms
    {
      if ms != [] {
        StubbedWithinBudget(ms[1..], budget);
      }
    }

    lemma StubbedKeepsFit(ms: Transcript, budget: int, k: nat)
      requires budget > 0 && FitStart(ms, budget) <= k <= |ms|
      ensures Stubbed(ms, budget)[k..] == ms[k..]
      ensures Total(Stubbed(ms, budget)[FitStart(ms, budget)..]) <= budget
    {
      var fit := FitStart(ms, budget);
      var stubbed := Stubbed(ms, budget);
      StubbedSuffix(ms, budget, fit);
      StubbedWithinBudget(ms[fit..], budget);
      SuffixOfSuffix(stubbed, fit, k);
      SuffixOfSuffix(ms, fit, k);
    }

    lemma SameButStubsPairs(ms: Transcript, r: Transcript)
      requires SameButStubs(ms, r) && PairComplete(ms)
      ensures PairComplete(r)
    {
      forall i | 0 <= i < |r| - 1
        ensures PairedAt(r, i)
      {
        assert PairedAt(ms, i);
      }
    }

    lemma LastPlainSame(ms: Transcript, r: Transcript)
      requires SameButStubs(ms, r) && ms != []
      ensures LastPlain(r) == LastPlain(ms)
    {
      LastPlainUnique(r, LastPlain(ms));
    }

    // ---- Stage two ----

    /** It overshoots the budget only to keep the newest exchange. */
    lemma DropStartFits(ms: Transcript, budget: int)
      requires ms != [] && budget > 0 && Total(ms) > budget
      ensures Total(ms[DropStart(ms, budget)..]) <= budget <==> Total(ms[LastPlain(ms)..]) <= budget
      ensures Total(ms[DropStart(ms, budget)..]) > budget ==> DropStart(ms, budget) == LastPlain(ms)
    {
      var fit, last := FitStart(ms, budget), LastPlain(ms);
      var next := NextPlain(ms, fit);
      assert ms[0..] == ms;
      if next < |ms| {
        TotalShrinks(ms, fit, next);
        assert next <= last;
        TotalShrinks(ms, next, last);
      }
    }

    /** It drops no more than it has to: to start at any earlier plain message would overshoot. */
    lemma DropStartIsLeast(ms: Transcript, budget: int, d: nat)
      requires ms != [] && d < DropStart(ms, budget) && ms[d].results == []
      ensures Total(ms[d..]) > budget
    {
      if Total(ms[d..]) <= budget {
        DropStartBefore(ms, budget, d, d);
      }
    }

    lemma DropStartBefore(ms: Transcript, budget: int, fit: nat, k: nat)
      requires fit <= k < |ms| && ms[k].results == [] && Total(ms[fit..]) <= budget
      ensures DropStart(ms, budget) <= k
    {
      FitStartAtMost(ms, budget, fit);
      NextPlainAtMost(ms, FitStart(ms, budget), k);
    }

    lemma DropStopsAt(ms: Transcript, budget: int, k: nat)
      requires budget > 0 && FitStart(ms, budget) <= k < |ms| && ms[k].results == []
      ensures DropStart(Stubbed(ms, budget), budget) <= k
    {
      var stubbed := Stubbed(ms, budget);
      StubbedKeepsFit(ms, budget, k);
      assert stubbed[k] == stubbed[k..][0] == ms[k..][0];
      DropStartBefore(stubbed, budget, FitStart(ms, budget), k);
    }

    /** Dropping from the newest exchange drops nothing. */
    lemma NewestExchangeStays(ms: Transcript, budget: int)
      requires ms != [] && budget > 0 && Total(ms[LastPlain(ms)..]) > budget
      ensures DropStart(ms[LastPlain(ms)..], budget) == 0
    {
      var r := ms[LastPlain(ms)..];
      LastPlainOfSuffix(ms);
      assert r[0..] == r;
      assert FitStart(r, budget) > 0;
    }

    /** A call and results that are over the budget by themselves, before and after, are kept whole. */
    lemma TwoStay(call: Message, answer: Message, budget: int)
      requires budget > 0 && call.results == [] && answer.results != [] && size(answer) > budget
      requires size(StubMessage(answer)) > budget
      ensures Total([call, answer]) == size(call) + size(answer)
      ensures Trim([call, answer], budget) == [call, StubMessage(answer)]
      ensures Total([call, StubMessage(answer)]) == size(call) + size(StubMessage(answer))
    {
      var ms, stubbed := [call, answer], [call, StubMessage(answer)];
      assert ms[1..] == [answer] && [answer][1..] == [];
      assert stubbed[1..] == [StubMessage(answer)] && [StubMessage(answer)][1..] == [];
      assert Total([]) == 0 && Stubbed([], budget) == [];
      assert Stubbed([answer], budget) == [StubMessage(answer)];
      assert Stubbed(ms, budget) == stubbed;
      OverBudgetStays(call, StubMessage(answer), budget);
    }

    lemma OverBudgetStays(call: Message, answer: Message, budget: int)
      requires budget > 0 && call.results == [] && answer.results != [] && size(answer) > budget
      ensures DropStart([call, answer], budget) == 0 && [call, answer][0..] == [call, answer]
    {
      var ms := [call, answer];
      assert Total([answer]) == size(answer) by {
        assert [answer][1..] == [];
      }
      assert ms[1..] == [answer] && ms[2..] == [];
      FitStartUnique(ms, budget, 2);
      assert NextPlain(ms, 2) == 2;
      LastPlainUnique(ms, 0);
    }

    lemma {:induction false} TotalSplits(ms: Transcript, k: nat)
      requires k <= |ms|
      ensures Total(ms) == Total(ms[..k]) + Total(ms[k..])
    {
      if k > 0 {
        TotalSplits(ms[1..], k - 1);
        assert ms[..k][1..] == ms[1..][..k - 1] && ms[k..] == ms[1..][k - 1..];
      } else {
        assert ms[0..] == ms;
      }
    }

    /** A trimmed history is larger than the input exactly when it is the newest exchange alone and that outgrew it. */
    lemma TrimGrowsWithNewest(ms: Transcript, budget: int)
      requires ms != []
      ensures Total(Trim(ms, budget)) > Total(ms)
         <==> budget > 0 && Total(ms) > budget && Total(Stubbed(ms, budget)[LastPlain(ms)..]) > Total(ms)
    {
      if budget > 0 && Total(ms) > budget {
        var stubbed, last := Stubbed(ms, budget), LastPlain(ms);
        StubbedSame(ms, budget);
        LastPlainSame(ms, stubbed);
        if Total(stubbed) > budget {
          DropStartFits(stubbed, budget);
        } else {
          TotalSplits(stubbed, last);
        }
      }
    }

    // ---- What a trimmed history is ----

    /**
      The result, for a history a provider would accept: not empty, a suffix of the input but for stubbed
      result bodies, acceptable again, and within the budget unless it is the newest exchange alone.
     */
    lemma TrimIsSound(ms: Transcript, budget: int, r: Transcript)
      requires PairComplete(ms) && ms != [] && budget > 0 && r == Trim(ms, budget)
      ensures r != [] && |r| <= |ms|
      ensures SameButStubs(ms[|ms| - |r|..], r)
      ensures PairComplete(r)
      ensures Total(r) <= budget || |ms| - |r| == LastPlain(ms)
    {
      var start := TrimStubsOnly(ms, budget, r);
      TrimPairs(ms, budget, r);
    }

    lemma TrimStubsOnly(ms: Transcript, budget: int, r: Transcript) returns (start: nat)
      requires ms != [] && budget > 0 && r == Trim(ms, budget)
      ensures start < |ms| && start + |r| == |ms|
      ensures SameButStubs(ms[start..], r)
      ensures Total(r) <= budget || start == LastPlain(ms)
    {
      start := 0;
      assert ms[0..] == ms;
      if Total(ms) > budget {
        var stubbed := Stubbed(ms, budget);
        StubbedSame(ms, budget);
        if Total(stubbed) > budget {
          LastPlainSame(ms, stubbed);
          DropStartFits(stubbed, budget);
          start := DropStart(stubbed, budget);
          SameButStubsSuffix(ms, stubbed, start);
        }
      }
    }

    lemma StubbedPairs(ms: Transcript, budget: int)
      requires PairComplete(ms)
      ensures PairComplete(Stubbed(ms, budget)) && |Stubbed(ms, budget)| == |ms|
    {
      StubbedSame(ms, budget);
      SameButStubsPairs(ms, Stubbed(ms, budget));
    }

    lemma DropPairs(stubbed: Transcript, budget: int)
      requires PairComplete(stubbed) && stubbed != []
      ensures PairComplete(stubbed[DropStart(stubbed, budget)..])
    {
      PairCompleteSuffix(stubbed, DropStart(stubbed, budget));
    }

    lemma TrimPairs(ms: Transcript, budget: int, r: Transcript)
      requires PairComplete(ms) && ms != [] && r == Trim(ms, budget)
      ensures PairComplete(r)
    {
      StubbedPairs(ms, budget);
      DropPairs(Stubbed(ms, budget), budget);
    }

    lemma SameButStubsSuffix(ms: Transcript, r: Transcript, from: nat)
      requires SameButStubs(ms, r) && from <= |ms|
      ensures SameButStubs(ms[from..], r[from..])
    {
    }

    /** The budget is met exactly when the input meets it or the stubbed newest exchange does. */
    lemma TrimFitsExactly(ms: Transcript, budget: int)
      requires ms != [] && budget > 0
      ensures Total(Trim(ms, budget)) <= budget
         <==> Total(ms) <= budget || Total(Stubbed(ms, budget)[LastPlain(ms)..]) <= budget
    {
      var stubbed := Stubbed(ms, budget);
      StubbedSame(ms, budget);
      LastPlainSame(ms, stubbed);
      if Total(stubbed) > budget {
        DropStartFits(stubbed, budget);
      } else {
        assert stubbed[0..] == stubbed;
        TotalShrinks(stubbed, 0, LastPlain(stubbed));
      }
    }

    /** Trimming what has been trimmed changes nothing, whatever the history looks like. */
    lemma TrimIdempotent(ms: Transcript, budget: int)
      ensures Trim(Trim(ms, budget), budget) == Trim(ms, budget)
    {
      var r := Trim(ms, budget);
      if budget > 0 && Total(r) > budget {
        var stubbed := Stubbed(ms, budget);
        var last := LastPlain(stubbed);
        DropStartFits(stubbed, budget);
        assert r == stubbed[last..];
        StubbedTwice(ms, budget);
        StubbedSuffix(stubbed, budget, last);
        NewestExchangeStays(stubbed, budget);
        assert Trim(r, budget) == r[DropStart(r, budget)..] == r[0..];
      }
    }

    /** From the first plain message of the longest suffix that fits, everything comes through verbatim. */
    lemma TrimKeepsNewest(ms: Transcript, budget: int, k: nat, r: Transcript)
      requires budget > 0 && k == NextPlain(ms, FitStart(ms, budget)) && r == Trim(ms, budget)
      ensures EndsWith(r, ms[k..])
    {
      if k == |ms| {
        assert r[|r|..] == [];
      } else if Total(ms) <= budget {
        SuffixEnds(ms, 0, k);
      } else {
        var stubbed := Stubbed(ms, budget);
        StubbedKeepsFit(ms, budget, k);
        DropStopsAt(ms, budget, k);
        SuffixEnds(stubbed, 0, k);
        SuffixEnds(stubbed, DropStart(stubbed, budget), k);
      }
    }
  }

  /** The first message at or after `from` that carries no tool results. */
  function NextPlain(ms: Transcript, from: nat): (k: nat)
    requires from <= |ms|
    ensures from <= k <= |ms|
    ensures k < |ms| ==> ms[k].results == []
    ensures forall i :: from <= i < k ==> ms[i].results != []
    decreases |ms| - from
  {
    if from < |ms| && ms[from].results != [] then NextPlain(ms, from + 1) else from
  }

  /** The last message at or before `from` that carries no tool results, or the first message of all. */
  function PlainBefore(ms: Transcript, from: nat): (k: nat)
    requires from < |ms|
    ensures k <= from
    ensures k == 0 || ms[k].results == []
    ensures forall i :: k < i <= from ==> ms[i].results != []
  {
    if from > 0 && ms[from].results != [] then PlainBefore(ms, from - 1) else from
  }

  function LastPlain(ms: Transcript): nat
    requires ms != []
  {
    PlainBefore(ms, |ms| - 1)
  }

  lemma LastPlainUnique(ms: Transcript, k: nat)
    requires k < |ms|
    requires k == 0 || ms[k].results == []
    requires forall i :: k < i < |ms| ==> ms[i].results != []
    ensures LastPlain(ms) == k
  {
    assert ms[LastPlain(ms)].results == [] || LastPlain(ms) == 0;
  }

  lemma LastPlainOfSuffix(ms: Transcript)
    requires ms != []
    ensures LastPlain(ms[LastPlain(ms)..]) == 0
    ensures forall i :: 0 < i < |ms| - LastPlain(ms) ==> ms[LastPlain(ms)..][i].results != []
  {
    LastPlainUnique(ms[LastPlain(ms)..], 0);
  }

  lemma NextPlainAtMost(ms: Transcript, from: nat, k: nat)
    requires from <= k < |ms| && ms[k].results == []
    ensures NextPlain(ms, from) <= k
  {
  }

  predicate EndsWith(ms: Transcript, tail: Transcript) {
    |tail| <= |ms| && ms[|ms| - |tail|..] == tail
  }

  lemma SuffixEnds(ms: Transcript, a: nat, b: nat)
    requires a <= b <= |ms|
    ensures EndsWith(ms[a..], ms[b..]) && ms[0..] == ms
  {
    assert ms[a..][b - a..] == ms[b..];
  }

  lemma SuffixOfSuffix(ms: Transcript, a: nat, b: nat)
    requires a <= b <= |ms|
    ensures ms[a..][b - a..] == ms[b..]
  {
  }

  // ---- The trimmer as configured ----

  const STUBBED_RESULT: string :=
    "[earlier result omitted to keep this conversation within the model's context; call the tool again if you need it]"

  const LOCAL_HISTORY_BUDGET := 4000
  const HOSTED_HISTORY_BUDGET := 60000

  function BudgetFor(local: bool): int {
    if local then LOCAL_HISTORY_BUDGET else HOSTED_HISTORY_BUDGET
  }

  function Standard(): (e: Estimator)
    ensures e.Positive() && forall m :: e.size(m) == Tokens(m)
  {
    Estimator(m => Tokens(m), STUBBED_RESULT)
  }

  // ---- What a stub costs ----

  function BodyBytes(results: seq<ToolResult>): nat {
    if results == [] then 0 else Utf8Len(results[0].content) + BodyBytes(results[1..])
  }

  function StubAll(results: seq<ToolResult>, stub: string): seq<ToolResult> {
    seq(|results|, j requires 0 <= j < |results| => results[j].(content := stub))
  }

  /** All the bytes a message is measured by. */
  function Bytes(m: Message): nat {
    Utf8Len(m.text) + CallBytes(m.calls) + ResultBytes(m.results)
  }

  // ---- What the estimate weighs ----

  lemma {:induction false} CallBytesReplaced(calls: seq<ToolCall>, i: nat, c: ToolCall)
    requires i < |calls|
    ensures CallBytes(calls[i := c])
         == CallBytes(calls) + Utf8Len(c.name) + Utf8Len(c.input) - Utf8Len(calls[i].name) - Utf8Len(calls[i].input)
  {
    if i > 0 {
      CallBytesReplaced(calls[1..], i - 1, c);
      assert calls[i := c][1..] == calls[1..][i - 1 := c];
    } else {
      assert calls[i := c][1..] == calls[1..];
    }
  }

  lemma {:induction false} ResultBytesReplaced(rs: seq<ToolResult>, i: nat, r: ToolResult)
    requires i < |rs|
    ensures ResultBytes(rs[i := r])
         == ResultBytes(rs) + Utf8Len(r.name) + Utf8Len(r.content) - Utf8Len(rs[i].name) - Utf8Len(rs[i].content)
  {
    if i > 0 {
      ResultBytesReplaced(rs[1..], i - 1, r);
      assert rs[i := r][1..] == rs[1..][i - 1 := r];
    } else {
      assert rs[i := r][1..] == rs[1..];
    }
  }

  /** Every text of a message weighs its bytes, and ids weigh nothing: replacing one call changes just that much. */
  lemma CallWeighs(m: Message, i: nat, c: ToolCall)
    requires i < |m.calls|
    ensures Bytes(Message(m.role, m.text, m.calls[i := c], m.results))
         == Bytes(m) + Utf8Len(c.name) + Utf8Len(c.input) - Utf8Len(m.calls[i].name) - Utf8Len(m.calls[i].input)
  {
    CallBytesReplaced(m.calls, i, c);
  }

  lemma ResultWeighs(m: Message, i: nat, r: ToolResult)
    requires i < |m.results|
    ensures Bytes(Message(m.role, m.text, m.calls, m.results[i := r]))
         == Bytes(m) + Utf8Len(r.name) + Utf8Len(r.content) - Utf8Len(m.results[i].name) - Utf8Len(m.results[i].content)
  {
    ResultBytesReplaced(m.results, i, r);
  }

  lemma TextWeighs(m: Message, text: string)
    ensures Bytes(Message(m.role, text, m.calls, m.results)) == Bytes(m) + Utf8Len(text) - Utf8Len(m.text)
  {
  }

  lemma {:induction false} EmptyCallsWeighNothing(calls: seq<ToolCall>, results: seq<ToolResult>)
    requires forall i :: 0 <= i < |calls| ==> calls[i].name == "" && calls[i].input == ""
    requires forall i :: 0 <= i < |results| ==> results[i].name == "" && results[i].content == ""
    ensures CallBytes(calls) == 0 && ResultBytes(results) == 0
  {
    if calls != [] {
      EmptyCallsWeighNothing(calls[1..], []);
    }
    if results != [] {
      EmptyCallsWeighNothing([], results[1..]);
    }
  }

  /** A message without texts is estimated at 4 tokens, however many calls it has; n bytes at n / 4 + 4. */
  lemma EmptyMessageWeighs(m: Message)
    ensures Tokens(m) == Bytes(m) / 4 + 4
    ensures && m.text == "" && (forall i :: 0 <= i < |m.calls| ==> m.calls[i].name == "" && m.calls[i].input == "")
            && (forall i :: 0 <= i < |m.results| ==> m.results[i].name == "" && m.results[i].content == "")
            ==> Bytes(m) == 0 && Tokens(m) == 4
  {
    if (forall i :: 0 <= i < |m.calls| ==> m.calls[i].name == "" && m.calls[i].input == "")
      && (forall i :: 0 <= i < |m.results| ==> m.results[i].name == "" && m.results[i].content == "") {
      EmptyCallsWeighNothing(m.calls, m.results);
    }
  }

  /** A long call input alone takes a history over the budget: no text escapes the estimate. */
  lemma {:induction false} TotalHasEach(e: Estimator, ms: Transcript, i: nat)
    requires i < |ms|
    ensures e.Total(ms) >= e.size(ms[i])
  {
    if i > 0 {
      TotalHasEach(e, ms[1..], i - 1);
    }
  }

  lemma {:induction false} CallBytesHasEach(calls: seq<ToolCall>, i: nat)
    requires i < |calls|
    ensures CallBytes(calls) >= Utf8Len(calls[i].name) + Utf8Len(calls[i].input)
  {
    if i > 0 {
      CallBytesHasEach(calls[1..], i - 1);
    }
  }

  lemma LongInputIsOverBudget(ms: Transcript, i: nat, j: nat, budget: int)
    requires i < |ms| && j < |ms[i].calls| && |ms[i].calls[j].input| >= 4 * budget
    ensures Standard().Total(ms) > budget
  {
    TotalHasEach(Standard(), ms, i);
    StandardSizes(ms[i]);
    CallBytesHasEach(ms[i].calls, j);
    Utf8LenAtLeast(ms[i].calls[j].input);
  }

  // ---- What stubbing changes ----

  lemma StubSays()
    ensures STUBBED_RESULT ==
   "[earlier result omitted to keep this conversation within the model's context; call the tool again if you need it]"
  {
  }

  /** Stubbing replaces bodies and nothing else. */
  lemma StubsBodiesOnly(m: Message, j: nat)
    ensures var r := Standard().StubMessage(m);
            && r.role == m.role && r.text == m.text && r.calls == m.calls && |r.results| == |m.results|
            && (j < |m.results| ==>
                  && r.results[j].callID == m.results[j].callID && r.results[j].name == m.results[j].name
                  && r.results[j].isError == m.results[j].isError && r.results[j].content == STUBBED_RESULT)
  {
  }

  /** How much a message grows in the trimmer's measure when its results are stubbed; negative if it shrinks. */
  function Growth(m: Message): int {
    (Bytes(m) + |m.results| * Utf8Len(STUBBED_RESULT) - BodyBytes(m.results)) / 4 - Bytes(m) / 4
  }

  lemma StubbedMessageBytes(e: Estimator, m: Message)
    ensures Bytes(e.StubMessage(m)) == Bytes(m) + |m.results| * Utf8Len(e.stub) - BodyBytes(m.results)
  {
    StubbedBytes(m.results, e.stub);
    assert e.StubMessage(m).results == StubAll(m.results, e.stub);
  }

  lemma StandardSizes(m: Message)
    ensures Standard().stub == STUBBED_RESULT && Standard().size(m) == Tokens(m) == Bytes(m) / 4 + 4
  {
  }

  lemma StubbingGrows(m: Message)
    ensures Tokens(Standard().StubMessage(m)) == Tokens(m) + Growth(m)
  {
    var e := Standard();
    StubbedMessageBytes(e, m);
    StandardSizes(m);
    StandardSizes(e.StubMessage(m));
  }

  /**
    Stubbing makes no message larger, in the trimmer's measure, if and only if its bodies weigh one stub each, short
    by no more than what rounding to whole tokens leaves over.
   */
  lemma StubbingSavesExactly(m: Message)
    ensures Tokens(Standard().StubMessage(m)) <= Tokens(m)
       <==> |m.results| * Utf8Len(STUBBED_RESULT) <= BodyBytes(m.results) + (3 - Bytes(m) % 4)
  {
    StubbingGrows(m);
    QuotientsCompare(Bytes(m), |m.results| * Utf8Len(STUBBED_RESULT) - BodyBytes(m.results));
  }

  lemma QuotientsCompare(n: nat, more: int)
    ensures (n + more) / 4 <= n / 4 <==> more <= 3 - n % 4
  {
  }

  /** The growth of the messages stage one stubs: those with results that leave no room for what follows them. */
  function StubbedGrowth(ms: Transcript, budget: int): int {
    if ms == [] then 0
    else
      var rest := Standard().Stubbed(ms[1..], budget);
      var stubs := ms[0].results != [] && Tokens(ms[0]) + Standard().Total(rest) > budget;
      (if stubs then Growth(ms[0]) else 0) + StubbedGrowth(ms[1..], budget)
  }

  /** Stage one changes the size of a history by exactly the growth of what it stubs. */
  lemma {:induction false} StageOneGrowsExactly(ms: Transcript, budget: int)
    ensures Standard().Total(Standard().Stubbed(ms, budget)) == Standard().Total(ms) + StubbedGrowth(ms, budget)
  {
    if ms != [] {
      StageOneGrowsExactly(ms[1..], budget);
      StubbingGrows(ms[0]);
      StandardSizes(ms[0]);
      StandardSizes(Standard().StubMessage(ms[0]));
      Standard().StubbedCons(ms, budget);
    }
  }

  /**
    Trimming makes a history larger if and only if it is over the budget and stubbing the newest exchange adds more
    than all that comes before that exchange.
   */
  lemma TrimGrowsExactly(ms: Transcript, budget: int)
    requires ms != []
    ensures Standard().Total(Standard().Trim(ms, budget)) > Standard().Total(ms)
       <==> && budget > 0 && Standard().Total(ms) > budget
            && StubbedGrowth(ms[LastPlain(ms)..], budget) > Standard().Total(ms[..LastPlain(ms)])
  {
    var last := LastPlain(ms);
    Standard().TrimGrowsWithNewest(ms, budget);
    Standard().StubbedSuffix(ms, budget, last);
    StageOneGrowsExactly(ms[last..], budget);
    Standard().TotalSplits(ms, last);
  }

  /** So never one whose newest message carries no results. */
  lemma PlainEndNeverGrows(ms: Transcript, budget: int)
    requires ms != [] && ms[|ms| - 1].results == []
    ensures Standard().Total(Standard().Trim(ms, budget)) <= Standard().Total(ms)
  {
    NewestIsPlain(ms);
    PlainAddsNothing(ms[|ms| - 1], budget);
    TrimGrowsExactly(ms, budget);
  }

  lemma NewestIsPlain(ms: Transcript)
    requires ms != [] && ms[|ms| - 1].results == []
    ensures ms[LastPlain(ms)..] == [ms[|ms| - 1]]
  {
    LastPlainUnique(ms, |ms| - 1);
  }

  lemma PlainAddsNothing(m: Message, budget: int)
    requires m.results == []
    ensures StubbedGrowth([m], budget) == 0
  {
    assert [m][1..] == [];
  }

  /** A call, and a result with a long name and nothing in it. */
  function ShortResult(budget: nat): Transcript {
    var name := seq(4 * budget, i => 'a');
    [Message(Assistant, "", [ToolCall("", "", "")], []), Message(User, "", [], [ToolResult("", name, "", false)])]
  }

  lemma {:induction false} Utf8LenAtLeast(s: string)
    ensures Utf8Len(s) >= |s|
  {
    if s != "" {
      Utf8LenAtLeast(s[1..]);
    }
  }

  lemma StubWeighs()
    ensures Utf8Len(STUBBED_RESULT) >= 4
  {
    Utf8LenAtLeast(STUBBED_RESULT);
    assert |STUBBED_RESULT| >= 4;
  }

  lemma ShortResultGrows(budget: nat)
    ensures Tokens(ShortResult(budget)[1]) > budget && Growth(ShortResult(budget)[1]) > 0
  {
    EmptyBodyGrows(ShortResult(budget)[1], ShortResult(budget)[1].results[0]);
  }

  lemma EmptyBodyGrows(m: Message, r: ToolResult)
    requires m.results == [r] && r.content == ""
    ensures Tokens(m) >= |r.name| / 4 + 4 && Growth(m) > 0
  {
    Utf8LenAtLeast(r.name);
    StubWeighs();
    OneResultBytes(r);
  }

  lemma OneResultBytes(r: ToolResult)
    ensures ResultBytes([r]) == Utf8Len(r.name) + Utf8Len(r.content) && BodyBytes([r]) == Utf8Len(r.content)
  {
    assert [r][1..] == [];
  }

  /**
    At every budget some history a provider would accept comes out larger. It ends in results, as no stored
    conversation does.
   */
  lemma TrimCanGrow(budget: nat)
    requires budget > 0
    ensures PairComplete(ShortResult(budget))
    ensures var ms, trimmed := ShortResult(budget), Standard().Trim(ShortResult(budget), budget);
            Standard().Total(trimmed) > Standard().Total(ms) > budget
  {
    var ms := ShortResult(budget);
    assert ms == [ms[0], ms[1]];
    ShortResultGrows(budget);
    ShortResultPairs(budget);
    AnswerGrows(ms[0], ms[1], budget);
  }

  lemma ShortResultPairs(budget: nat)
    ensures PairComplete(ShortResult(budget))
  {
    assert PairedAt(ShortResult(budget), 0);
  }

  lemma AnswerGrows(call: Message, answer: Message, budget: int)
    requires budget > 0 && call.results == [] && answer.results != []
    requires Tokens(answer) > budget && Growth(answer) > 0
    ensures Standard().Total(Standard().Trim([call, answer], budget)) > Standard().Total([call, answer]) > budget
  {
    StubbingGrows(answer);
    StandardSizes(call);
    StandardSizes(answer);
    StandardSizes(Standard().StubMessage(answer));
    Standard().TwoStay(call, answer, budget);
  }

  lemma {:induction false} StubbedBytes(results: seq<ToolResult>, stub: string)
    ensures ResultBytes(StubAll(results, stub)) - |results| * Utf8Len(stub) == ResultBytes(results) - BodyBytes(results)
  {
    if results != [] {
      StubbedBytes(results[1..], stub);
      assert StubAll(results, stub)[1..] == StubAll(results[1..], stub);
      OneFewer(|results|, Utf8Len(stub));
    }
  }

  lemma OneFewer(n: nat, size: nat)
    requires n > 0
    ensures n * size == size + (n - 1) * size
  {
  }
}
