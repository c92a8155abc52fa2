/** Messages between the assistant, its provider and its tools (internal/ai/ai.go). */
module Conversation {

  datatype Role = User | Assistant

  datatype ToolCall = ToolCall(id: string, name: string, input: string)

  datatype ToolResult = ToolResult(callID: string, name: string, content: string, isError: bool)

  datatype Message = Message(role: Role, text: string, calls: seq<ToolCall>, results: seq<ToolResult>)

  type Transcript = seq<Message>

  /** Position by position, the results carry the ids of the calls; nothing is claimed of the names. */
  predicate Answers(calls: seq<ToolCall>, results: seq<ToolResult>) {
    |calls| == |results| && forall j :: 0 <= j < |calls| ==> results[j].callID == calls[j].id
  }

  /** What a provider demands between a message and the one after it. */
  predicate Paired(m: Message, next: Message) {
    && Answers(m.calls, next.results)
    && (m.calls != [] ==> m.role.Assistant?)
    && (next.results != [] ==> next.role.User?)
  }

  predicate PairedAt(ms: Transcript, i: nat)
    requires i + 1 < |ms|
  {
    Paired(ms[i], ms[i + 1])
  }

  /** No result without its call just before it, no call without its result just after it. */
  predicate PairComplete(ms: Transcript) {
    && (ms != [] ==> ms[0].results == [] && ms[|ms| - 1].calls == [])
    && forall i :: 0 <= i < |ms| - 1 ==> PairedAt(ms, i)
  }

  /** Complete but for the calls of the newest message, which are still to be answered. */
  predicate AwaitsResults(ms: Transcript) {
    && ms != []
    && ms[0].results == []
    && ms[|ms| - 1].role.Assistant?
    && ms[|ms| - 1].calls != []
    && forall i :: 0 <= i < |ms| - 1 ==> PairedAt(ms, i)
  }

  lemma PairCompleteAppend(a: Transcript, b: Transcript)
    requires PairComplete(a) && PairComplete(b)
    ensures PairComplete(a + b)
  {
    var ms := a + b;
    forall i | 0 <= i < |ms| - 1
      ensures PairedAt(ms, i)
    {
      if i < |a| - 1 {
        assert PairedAt(a, i);
      } else if i >= |a| {
        assert PairedAt(b, i - |a|);
      }
    }
  }

  lemma PairCompleteSuffix(ms: Transcript, from: nat)
    requires PairComplete(ms)
    requires from < |ms| ==> ms[from].results == []
    requires from <= |ms|
    ensures PairComplete(ms[from..])
  {
    var tail := ms[from..];
    forall i | 0 <= i < |tail| - 1
      ensures PairedAt(tail, i)
    {
      assert PairedAt(ms, from + i);
    }
  }
}
