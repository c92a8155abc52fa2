/** Streamed and unstreamed replies over the /chat/completions wire format (internal/ai/openai.go). */
module ToolCallStream {
  import opened Conversation
  import opened Text
  import opened Thinking
  import opened Wrappers

  /** A tool call as a whole message carries it. */
  datatype WireCall = WireCall(id: string, name: string, args: string)

  /** One piece of a streamed tool call; the index ties the pieces together. */
  datatype Fragment = Fragment(index: int, id: string, name: string, args: string)

  datatype Tokens = Tokens(prompt: int, completion: int)

  datatype Choice = Choice(content: string, fragments: seq<Fragment>, finish: string)

  datatype Chunk = Chunk(choice: Option<Choice>, usage: Option<Tokens>)

  datatype Reply = Reply(text: string, thinking: string, truncated: bool, calls: seq<ToolCall>, usage: Tokens)

  // ---- Decoding one call ----

  /** A missing id is made up from the call's number. */
  function CallID(id: string, n: int): string {
    if id == "" then "call_" + Decimal(n) else id
  }

  function DecodeCall(c: WireCall, n: nat): ToolCall {
    ToolCall(CallID(c.id, n), c.name, if TrimSpace(c.args) == "" then "{}" else c.args)
  }

  // ---- The whole message ----

  function DecodeCalls(calls: seq<WireCall>): (r: seq<ToolCall>)
    ensures |r| == |calls|
  {
    seq(|calls|, i requires 0 <= i < |calls| => DecodeCall(calls[i], i))
  }

  function Whole(content: string, calls: seq<WireCall>, finish: string, usage: Tokens): Reply {
    Reply(SplitText(content), TrimSpace(Join(Thoughts(content))), finish == "length", DecodeCalls(calls), usage)
  }

  method Chat(content: string, calls: seq<WireCall>, finish: string, usage: Tokens) returns (r: Reply)
    ensures r == Whole(content, calls, finish, usage)
  {
    var text, thinking := SplitThinking(content);
    var out: seq<ToolCall> := [];
    for i := 0 to |calls|
      invariant |out| == i && forall j :: 0 <= j < i ==> out[j] == DecodeCall(calls[j], j)
    {
      var args := calls[i].args;
      if TrimSpace(args) == "" {
        args := "{}";
      }
      var id := calls[i].id;
      if id == "" {
        id := "call_" + Decimal(i);
      }
      out := out + [ToolCall(id, calls[i].name, args)];
    }
    r := Reply(text, thinking, finish == "length", out, usage);
  }

  // ---- The fragments of a stream ----

  /** The indexes in order of first appearance. */
  function Order(fs: seq<Fragment>): seq<int> {
    if fs == [] then []
    else
      var before, f := Order(fs[..|fs| - 1]), fs[|fs| - 1];
      if f.index in before then before else before + [f.index]
  }

  datatype Pending = Pending(id: string, name: string, args: string)

  function Add(p: Pending, f: Fragment): Pending {
    Pending(if f.id != "" then f.id else p.id, if f.name != "" then f.name else p.name, p.args + f.args)
  }

  /** What the fragments of index i amount to. */
  function Gathered(fs: seq<Fragment>, i: int): Pending {
    if fs == [] then Pending("", "", "")
    else
      var before, f := Gathered(fs[..|fs| - 1], i), fs[|fs| - 1];
      if f.index == i then Add(before, f) else before
  }

  function FinishCall(p: Pending, i: int): ToolCall {
    var args := TrimSpace(p.args);
    ToolCall(CallID(p.id, i), p.name, if args == "" then "{}" else args)
  }

  function FinishCalls(fs: seq<Fragment>, order: seq<int>): (r: seq<ToolCall>)
    ensures |r| == |order|
  {
    seq(|order|, j requires 0 <= j < |order| => FinishCall(Gathered(fs, order[j]), order[j]))
  }

  function Fragments(chunks: seq<Chunk>): seq<Fragment> {
    if chunks == [] then []
    else
      var c := chunks[|chunks| - 1];
      Fragments(chunks[..|chunks| - 1]) + if c.choice.Some? then c.choice.value.fragments else []
  }

  function Contents(chunks: seq<Chunk>): seq<string> {
    if chunks == [] then []
    else
      var c := chunks[|chunks| - 1];
      Contents(chunks[..|chunks| - 1])
      + if c.choice.Some? && c.choice.value.content != "" then [c.choice.value.content] else []
  }

  function Finish(chunks: seq<Chunk>): string {
    if chunks == [] then ""
    else
      var c := chunks[|chunks| - 1];
      if c.choice.Some? && c.choice.value.finish != "" then c.choice.value.finish else Finish(chunks[..|chunks| - 1])
  }

  function Usage(chunks: seq<Chunk>): Tokens {
    if chunks == [] then Tokens(0, 0)
    else
      var c := chunks[|chunks| - 1];
      if c.usage.Some? then c.usage.value else Usage(chunks[..|chunks| - 1])
  }

  function Streamed(chunks: seq<Chunk>): Reply {
    var content, fs := Concat(Contents(chunks)), Fragments(chunks);
    Reply(SplitText(content), TrimSpace(Join(Thoughts(content))), Finish(chunks) == "length",
          FinishCalls(fs, Order(fs)), Usage(chunks))
  }

  /** The builders under construction and the order their indexes came in. */
  ghost predicate Gathering(fs: seq<Fragment>, calls: map<int, Pending>, order: seq<int>) {
    && order == Order(fs)
    && (forall i :: i in calls <==> i in order)
    && (forall i :: i in calls ==> calls[i] == Gathered(fs, i))
    && (forall i :: i !in calls ==> Gathered(fs, i) == Pending("", "", ""))
  }

  method ChatStream(chunks: seq<Chunk>) returns (r: Reply, deltas: seq<string>)
    ensures r == Streamed(chunks) && deltas == Contents(chunks)
  {
    var calls: map<int, Pending> := map[];
    var order: seq<int> := [];
    var text, finish := "", "";
    var usage := Tokens(0, 0);
    deltas := [];
    for k := 0 to |chunks|
      invariant Gathering(Fragments(chunks[..k]), calls, order)
      invariant text == Concat(deltas) && deltas == Contents(chunks[..k])
      invariant finish == Finish(chunks[..k]) && usage == Usage(chunks[..k])
    {
      var chunk := chunks[k];
      assert chunks[..k + 1][..k] == chunks[..k];
      if chunk.usage.Some? {
        usage := chunk.usage.value;
      }
      if chunk.choice.None? {
        assert Fragments(chunks[..k + 1]) == Fragments(chunks[..k])
            && Contents(chunks[..k + 1]) == Contents(chunks[..k]);
        continue;
      }
      var ch := chunk.choice.value;
      if ch.finish != "" {
        finish := ch.finish;
      }
      if ch.content != "" {
        ConcatAppend(deltas, [ch.content]);
        ConcatOne(ch.content);
        text := text + ch.content;
        deltas := deltas + [ch.content];
      } else {
        assert Contents(chunks[..k + 1]) == Contents(chunks[..k]);
      }
      calls, order := Gather(Fragments(chunks[..k]), calls, order, ch.fragments);
    }
    assert chunks[..|chunks|] == chunks;
    var textOut, thinking := SplitThinking(text);
    var out := FinishAll(Fragments(chunks), calls, order);
    r := Reply(textOut, thinking, finish == "length", out, usage);
  }

  /** One chunk's fragments, each added to the builder of its index. */
  method Gather(ghost fs: seq<Fragment>, before: map<int, Pending>, orderBefore: seq<int>, fragments: seq<Fragment>)
    returns (calls: map<int, Pending>, order: seq<int>)
    requires Gathering(fs, before, orderBefore)
    ensures Gathering(fs + fragments, calls, order)
  {
    calls, order := before, orderBefore;
    assert fs + fragments[..0] == fs;
    for j := 0 to |fragments|
      invariant Gathering(fs + fragments[..j], calls, order)
    {
      var tc := fragments[j];
      ghost var seen, seenOrder := calls, order;
      if tc.index !in calls {
        calls := calls[tc.index := Pending("", "", "")];
        order := order + [tc.index];
      }
      var p := calls[tc.index];
      var id := if tc.id != "" then tc.id else p.id;
      var name := if tc.name != "" then tc.name else p.name;
      calls := calls[tc.index := Pending(id, name, p.args + tc.args)];
      GatherOne(fs + fragments[..j], seen, seenOrder, tc, calls, order);
      assert fs + fragments[..j] + [tc] == fs + fragments[..j + 1];
    }
    assert fragments[..|fragments|] == fragments;
  }

  lemma GatherOne(fs: seq<Fragment>, calls: map<int, Pending>, order: seq<int>, f: Fragment,
                  calls': map<int, Pending>, order': seq<int>)
    requires Gathering(fs, calls, order)
    requires order' == if f.index in calls then order else order + [f.index]
    requires calls' == calls[f.index := Add(if f.index in calls then calls[f.index] else Pending("", "", ""), f)]
    ensures Gathering(fs + [f], calls', order')
  {
    assert (fs + [f])[..|fs|] == fs;
  }

  method FinishAll(ghost fs: seq<Fragment>, calls: map<int, Pending>, order: seq<int>) returns (out: seq<ToolCall>)
    requires Gathering(fs, calls, order)
    ensures out == FinishCalls(fs, Order(fs))
  {
    out := [];
    for j := 0 to |order|
      invariant |out| == j && forall k :: 0 <= k < j ==> out[k] == FinishCall(Gathered(fs, order[k]), order[k])
    {
      var i := order[j];
      assert i in order;
      var call := FinishOne(calls[i], i);
      out := out + [call];
    }
  }

  method FinishOne(p: Pending, i: int) returns (call: ToolCall)
    ensures call == FinishCall(p, i)
  {
    var args := TrimSpace(p.args);
    if args == "" {
      args := "{}";
    }
    var id := p.id;
    if id == "" {
      id := "call_" + Decimal(i);
    }
    call := ToolCall(id, p.name, args);
  }

  // ---- Reassembly ----

  /** The arguments of one index, piece by piece. */
  function ArgsOf(fs: seq<Fragment>, i: int): seq<string> {
    if fs == [] then []
    else ArgsOf(fs[..|fs| - 1], i) + if fs[|fs| - 1].index == i then [fs[|fs| - 1].args] else []
  }

  /** Gathering concatenates an index's arguments, however other indexes are interleaved. */
  lemma {:induction false} ArgumentsAreConcatenated(fs: seq<Fragment>, i: int)
    ensures Gathered(fs, i).args == Concat(ArgsOf(fs, i))
  {
    if fs != [] {
      var n := |fs| - 1;
      ArgumentsAreConcatenated(fs[..n], i);
      if fs[n].index == i {
        ConcatAppend(ArgsOf(fs[..n], i), [fs[n].args]);
        ConcatOne(fs[n].args);
      } else {
        assert ArgsOf(fs, i) == ArgsOf(fs[..n], i);
      }
    }
  }

  /** One call for each index that appears, in order of first appearance. */
  lemma {:induction false} OneCallPerIndex(fs: seq<Fragment>)
    ensures forall j, k :: 0 <= j < k < |Order(fs)| ==> Order(fs)[j] != Order(fs)[k]
    ensures forall i :: i in Order(fs) <==> exists k :: 0 <= k < |fs| && fs[k].index == i
  {
    if fs != [] {
      var n := |fs| - 1;
      OneCallPerIndex(fs[..n]);
      forall i
        ensures i in Order(fs) <==> exists k :: 0 <= k < |fs| && fs[k].index == i
      {
        if i in Order(fs[..n]) {
          var k :| 0 <= k < n && fs[..n][k].index == i;
          assert fs[k].index == i;
        } else if i == fs[n].index {
          assert fs[n].index == i;
        }
      }
    }
  }

  /** The fragments make up the calls: arguments cut anywhere, ids and names given once or more, never two ways. */
  ghost predicate Splits(fs: seq<Fragment>, calls: seq<WireCall>) {
    && (forall k :: 0 <= k < |fs| ==> 0 <= fs[k].index < |calls| && Consistent(fs[k], calls[fs[k].index]))
    && (forall i :: 0 <= i < |calls| ==> Concat(ArgsOf(fs, i)) == calls[i].args)
    && (forall i :: 0 <= i < |calls| && calls[i].id != "" ==>
          exists k :: 0 <= k < |fs| && fs[k].index == i && fs[k].id != "")
    && (forall i :: 0 <= i < |calls| && calls[i].name != "" ==>
          exists k :: 0 <= k < |fs| && fs[k].index == i && fs[k].name != "")
  }

  predicate Consistent(f: Fragment, c: WireCall) {
    (f.id == "" || f.id == c.id) && (f.name == "" || f.name == c.name)
  }

  lemma {:induction false} GatheredIdentity(fs: seq<Fragment>, i: int, c: WireCall)
    requires forall k :: 0 <= k < |fs| && fs[k].index == i ==> Consistent(fs[k], c)
    ensures Gathered(fs, i).id == if exists k :: 0 <= k < |fs| && fs[k].index == i && fs[k].id != "" then c.id else ""
    ensures Gathered(fs, i).name
         == if exists k :: 0 <= k < |fs| && fs[k].index == i && fs[k].name != "" then c.name else ""
  {
    if fs != [] {
      var n := |fs| - 1;
      GatheredIdentity(fs[..n], i, c);
      if exists k :: 0 <= k < n && fs[..n][k].index == i && fs[..n][k].id != "" {
        var k :| 0 <= k < n && fs[..n][k].index == i && fs[..n][k].id != "";
        assert fs[k].index == i && fs[k].id != "";
      }
      if exists k :: 0 <= k < n && fs[..n][k].index == i && fs[..n][k].name != "" {
        var k :| 0 <= k < n && fs[..n][k].index == i && fs[..n][k].name != "";
        assert fs[k].index == i && fs[k].name != "";
      }
    }
  }

  lemma SplitsGather(fs: seq<Fragment>, calls: seq<WireCall>, i: nat)
    requires Splits(fs, calls) && i < |calls|
    ensures Gathered(fs, i) == Pending(calls[i].id, calls[i].name, calls[i].args)
  {
    ArgumentsAreConcatenated(fs, i);
    GatheredIdentity(fs, i, calls[i]);
  }

  lemma FinishIsDecode(c: WireCall, i: nat)
    ensures var d := DecodeCall(c, i);
            FinishCall(Pending(c.id, c.name, c.args), i) == ToolCall(d.id, d.name, TrimSpace(d.input))
  {
    TrimSpaceIsIdentity("{}");
  }

  predicate InOrder(order: seq<int>, n: nat) {
    |order| == n && forall j :: 0 <= j < n ==> order[j] == j
  }

  /** The calls but for white space around their arguments. */
  predicate SameCalls(streamed: seq<ToolCall>, whole: seq<ToolCall>) {
    |streamed| == |whole|
    && forall j :: 0 <= j < |whole| ==> streamed[j] == ToolCall(whole[j].id, whole[j].name, TrimSpace(whole[j].input))
  }

  /** However the fragments are cut and interleaved, the stream yields the calls of the whole message. */
  lemma ReassemblyIsExact(fs: seq<Fragment>, calls: seq<WireCall>)
    requires Splits(fs, calls) && InOrder(Order(fs), |calls|)
    ensures SameCalls(FinishCalls(fs, Order(fs)), DecodeCalls(calls))
  {
    forall j | 0 <= j < |calls|
      ensures var d := DecodeCall(calls[j], j);
              FinishCalls(fs, Order(fs))[j] == ToolCall(d.id, d.name, TrimSpace(d.input))
    {
      SplitsGather(fs, calls, j);
      FinishIsDecode(calls[j], j);
    }
  }

  /** The whole streamed reply is the unstreamed one. */
  lemma StreamedIsWhole(chunks: seq<Chunk>, content: string, calls: seq<WireCall>, finish: string, usage: Tokens)
    requires Concat(Contents(chunks)) == content && Finish(chunks) == finish && Usage(chunks) == usage
    requires Splits(Fragments(chunks), calls) && InOrder(Order(Fragments(chunks)), |calls|)
    ensures var s, w := Streamed(chunks), Whole(content, calls, finish, usage);
            && s.text == w.text && s.thinking == w.thinking && s.truncated == w.truncated && s.usage == w.usage
            && SameCalls(s.calls, w.calls)
  {
    ReassemblyIsExact(Fragments(chunks), calls);
  }

  /** The fragments make up the reply's text exactly when it has no reasoning or outer space to lose. */
  lemma DeltasAreTheText(chunks: seq<Chunk>)
    ensures Concat(Contents(chunks)) == Streamed(chunks).text
       <==> var raw := Concat(Contents(chunks)); Lacks(raw, "<think>") && TrimSpace(raw) == raw
  {
    var raw := Concat(Contents(chunks));
    if Lacks(raw, THINK.open) {
      PlainSplits(raw);
    } else if SplitText(raw) == raw {
      TextHasNoTag(raw);
      assert false;
    }
  }

  // ---- Replies told field by field ----

  predicate SaysCall(call: ToolCall, id: string, name: string, args: string, n: int) {
    && call.id == (if id == "" then "call_" + Decimal(n) else id)
    && call.name == name
    && call.input == (if TrimSpace(args) == "" then "{}" else args)
  }

  /** A whole reply: cut off if it finished for length; every call as given, ids and arguments made up where missing. */
  lemma WholeTells(content: string, calls: seq<WireCall>, finish: string, usage: Tokens)
    ensures var w := Whole(content, calls, finish, usage);
            && w.text == SplitText(content) && w.usage == usage && (w.truncated <==> finish == "length")
            && |w.calls| == |calls|
            && forall i :: 0 <= i < |calls| ==> SaysCall(w.calls[i], calls[i].id, calls[i].name, calls[i].args, i)
  {
  }

  /** The last reason to finish and the last usage that were given. */
  lemma {:induction false} LastGiven(chunks: seq<Chunk>, k: nat)
    requires k < |chunks|
    ensures && chunks[k].choice.Some? && chunks[k].choice.value.finish != ""
            && (forall j :: k < j < |chunks| ==> chunks[j].choice.None? || chunks[j].choice.value.finish == "")
            ==> Finish(chunks) == chunks[k].choice.value.finish
    ensures chunks[k].usage.Some? && (forall j :: k < j < |chunks| ==> chunks[j].usage.None?) ==>
              Usage(chunks) == chunks[k].usage.value
  {
    var n := |chunks| - 1;
    if k < n {
      LastGiven(chunks[..n], k);
    }
  }

  /** A streamed reply: the same, each call told from its index's own fragments, arguments trimmed. */
  lemma StreamedTells(chunks: seq<Chunk>, j: nat)
    ensures var s, fs := Streamed(chunks), Fragments(chunks);
            && s.text == SplitText(Concat(Contents(chunks))) && s.usage == Usage(chunks)
            && (s.truncated <==> Finish(chunks) == "length")
            && |s.calls| == |Order(fs)|
            && (j < |Order(fs)| ==>
                  var i := Order(fs)[j];
                  SaysCall(s.calls[j], Gathered(fs, i).id, Gathered(fs, i).name, TrimSpace(Concat(ArgsOf(fs, i))), i))
  {
    var fs := Fragments(chunks);
    if j < |Order(fs)| {
      ArgumentsAreConcatenated(fs, Order(fs)[j]);
      TrimTwice(Gathered(fs, Order(fs)[j]).args);
    }
  }

  lemma TrimTwice(s: string)
    ensures TrimSpace(TrimSpace(s)) == TrimSpace(s)
  {
    TrimSpaceEnds(s);
    TrimSpaceIsIdentity(TrimSpace(s));
  }

  /** An index's id and name are the last that its fragments gave. */
  lemma {:induction false} LastNamed(fs: seq<Fragment>, k: nat)
    requires k < |fs|
    ensures fs[k].id != "" && (forall j :: k < j < |fs| && fs[j].index == fs[k].index ==> fs[j].id == "") ==>
              Gathered(fs, fs[k].index).id == fs[k].id
    ensures fs[k].name != "" && (forall j :: k < j < |fs| && fs[j].index == fs[k].index ==> fs[j].name == "") ==>
              Gathered(fs, fs[k].index).name == fs[k].name
  {
    var n := |fs| - 1;
    if k < n {
      LastNamed(fs[..n], k);
    }
  }
}
