/** Taking a model's inline reasoning out of its reply (splitThinking, internal/ai/http.go). */
module Thinking {
  import opened Text
  import opened Wrappers

  // ---- Searching ----

  /** `strings.Index`: the first occurrence, or none. */
  function Index(s: string, sub: string): Option<nat> {
    if sub <= s then Some(0)
    else if s == "" then None
    else
      match Index(s[1..], sub)
      case None => None
      case Some(i) => Some(i + 1)
  }

  /** sub stands at position i of s. */
  predicate At(s: string, i: nat, sub: string) {
    i <= |s| && sub <= s[i..]
  }

  predicate Lacks(s: string, sub: string) {
    Index(s, sub).None?
  }

  lemma {:induction false} IndexIsFirst(s: string, sub: string)
    ensures match Index(s, sub)
            case None => forall j :: !At(s, j, sub)
            case Some(i) => At(s, i, sub) && forall j :: 0 <= j < i ==> !At(s, j, sub)
  {
    if !(sub <= s) && s != "" {
      IndexIsFirst(s[1..], sub);
      forall j: nat | 0 < j <= |s|
        ensures At(s, j, sub) == At(s[1..], j - 1, sub)
      {
        assert s[1..][j - 1..] == s[j..];
      }
    }
  }

  lemma SliceLacks(s: string, lo: nat, hi: nat, sub: string)
    requires lo <= hi <= |s| && Lacks(s, sub)
    ensures Lacks(s[lo..hi], sub)
  {
    IndexIsFirst(s, sub);
    IndexIsFirst(s[lo..hi], sub);
    assert s[..lo] + s[lo..hi] + s[hi..] == s;
    if Index(s[lo..hi], sub).Some? {
      PartHas(s[..lo], s[lo..hi], s[hi..], sub, Index(s[lo..hi], sub).value);
    }
  }

  lemma PartHas(a: string, b: string, c: string, sub: string, i: nat)
    requires At(b, i, sub)
    ensures At(a + b + c, |a| + i, sub)
  {
    assert (a + b + c)[|a| + i..] == b[i..] + c;
  }

  /** What comes before the first occurrence holds none. */
  lemma BeforeLacks(s: string, sub: string)
    requires sub != "" && Index(s, sub).Some?
    ensures Index(s, sub).value <= |s| && Lacks(s[..Index(s, sub).value], sub)
  {
    var i := Index(s, sub).value;
    IndexIsFirst(s, sub);
    IndexIsFirst(s[..i], sub);
    assert [] + s[..i] + s[i..] == s && s[..i][i..] == [];
    if Index(s[..i], sub).Some? {
      PartHas([], s[..i], s[i..], sub, Index(s[..i], sub).value);
    }
  }

  // ---- Cutting the reasoning out ----

  datatype Cut =
    | Plain
    | Unclosed(before: string, thought: string)
    | Closed(before: string, thought: string, after: string)

  datatype Parts = Parts(kept: string, thoughts: seq<string>, tags: seq<string>)

  /** A pair of tags; everything but the last section holds for any two that satisfy Separate. */
  datatype Tags = Tags(open: string, close: string) {

    /** The closing tag is never found inside the opening one. */
    ghost predicate Separate() {
      && open != "" && close != ""
      && forall t: string :: open <= t && Index(t, close).Some? ==> Index(t, close).value >= |open|
    }

    function CutFirst(s: string): (c: Cut)
      requires Separate()
      ensures IsCut(s, c)
      ensures c.Closed? ==> |c.before + c.after| < |s|
    {
      var start := Index(s, open);
      if start.None? then Plain
      else
        IndexIsFirst(s, open);
        var tail := s[start.value..];
        var end := Index(tail, close);
        IndexIsFirst(tail, close);
        BeforeLacks(s, open);
        if end.None? then
          Opened(s, start.value);
          Unclosed(s[..start.value], tail[|open|..])
        else
          Enclosed(s, start.value, end.value);
          Closed(s[..start.value], tail[|open|..end.value], tail[end.value + |close|..])
    }

    /** A cut takes the text apart without losing any, at the first opening tag and the first closing one after it. */
    ghost predicate IsCut(s: string, c: Cut) {
      match c
      case Plain => Lacks(s, open)
      case Unclosed(before, thought) =>
        s == before + open + thought && Lacks(before, open) && Lacks(thought, close)
      case Closed(before, thought, after) =>
        s == before + open + thought + close + after && Lacks(before, open) && Lacks(thought, close)
    }

    lemma Opened(s: string, start: nat)
      requires At(s, start, open) && Lacks(s[start..], close)
      ensures s == s[..start] + open + s[start..][|open|..] && Lacks(s[start..][|open|..], close)
    {
      var tail := s[start..];
      assert s == s[..start] + tail && tail == open + tail[|open|..];
      SliceLacks(tail, |open|, |tail|, close);
      assert tail[|open|..|tail|] == tail[|open|..];
    }

    lemma Enclosed(s: string, start: nat, end: nat)
      requires Separate() && At(s, start, open) && Index(s[start..], close) == Some(end)
      ensures var tail := s[start..];
              && |open| <= end && end + |close| <= |tail|
              && s == s[..start] + open + tail[|open|..end] + close + tail[end + |close|..]
              && Lacks(tail[|open|..end], close)
    {
      var tail := s[start..];
      IndexIsFirst(tail, close);
      BeforeLacks(tail, close);
      SliceLacks(tail[..end], |open|, end, close);
      assert tail[..end][|open|..end] == tail[|open|..end];
      assert tail == open + tail[|open|..end] + tail[end..];
      assert tail[end..] == close + tail[end + |close|..];
      assert s == s[..start] + tail;
      Regroup(s[..start], open, tail[|open|..end], close, tail[end + |close|..]);
    }

    function Split(s: string): Parts
      requires Separate()
      decreases |s|
    {
      match CutFirst(s)
      case Plain => Parts(s, [], [])
      case Unclosed(before, thought) => Parts(before, [thought], [open])
      case Closed(before, thought, after) =>
        var rest := Split(before + after);
        Parts(rest.kept, [thought] + rest.thoughts, [open, close] + rest.tags)
    }

    /** The loop: every slice it takes is in bounds. */
    method CutAll(input: string) returns (s: string, thoughts: seq<string>)
      requires Separate()
      ensures s == Split(input).kept && thoughts == Split(input).thoughts
    {
      s, thoughts := input, [];
      ghost var all := Split(input);
      while true
        invariant Split(s).kept == all.kept && thoughts + Split(s).thoughts == all.thoughts
        decreases |s|
      {
        ghost var cut := CutFirst(s);
        var start := Index(s, open);
        if start.None? {
          break;
        }
        IndexIsFirst(s, open);
        var tail := s[start.value..];
        var end := Index(tail, close);
        if end.None? {
          assert cut == Unclosed(s[..start.value], tail[|open|..]);
          thoughts := thoughts + [tail[|open|..]];
          s := s[..start.value];
          break;
        }
        Enclosed(s, start.value, end.value);
        assert cut == Closed(s[..start.value], tail[|open|..end.value], tail[end.value + |close|..]);
        OneMoreThought(thoughts, tail[|open|..end.value], Split(cut.before + cut.after).thoughts);
        thoughts := thoughts + [tail[|open|..end.value]];
        s := s[..start.value] + tail[end.value + |close|..];
      }
    }

    // ---- What is left holds no reasoning ----

    /** Even where cutting a thought out joins its surroundings into a new tag, no opening tag survives. */
    lemma {:induction false} KeptHasNoTag(s: string)
      requires Separate()
      ensures Lacks(Split(s).kept, open)
      decreases |s|
    {
      var cut := CutFirst(s);
      if cut.Closed? {
        KeptHasNoTag(cut.before + cut.after);
      }
    }

    /** A thought ends at the first closing tag after it. */
    lemma {:induction false} ThoughtsHaveNoClose(s: string)
      requires Separate()
      ensures forall t :: t in Split(s).thoughts ==> Lacks(t, close)
      decreases |s|
    {
      var cut := CutFirst(s);
      if cut.Closed? {
        ThoughtsHaveNoClose(cut.before + cut.after);
      }
    }

    // ---- Nothing is lost ----

    /** Every character of the reply is kept, part of a thought, or part of a removed tag. */
    lemma {:induction false} NothingIsLost(s: string)
      requires Separate()
      ensures multiset(s) == multiset(Split(s).kept) + multiset(Concat(Split(s).thoughts))
          + multiset(Concat(Split(s).tags))
      decreases |s|
    {
      match CutFirst(s)
      case Plain =>
      case Unclosed(before, thought) =>
        ConcatOne(thought);
        ConcatOne(open);
      case Closed(before, thought, after) =>
        var rest := Split(before + after);
        NothingIsLost(before + after);
        Letters(before, open, thought, close, after);
        JoinedLetters(thought, rest.thoughts);
        TagLetters(rest.tags);
    }

    /** What was cut out, one section for each thought; an unfinished one has no closing tag. */
    function Sections(thoughts: seq<string>, tags: seq<string>): seq<string> {
      if thoughts == [] then []
      else if |tags| < 2 then [open + thoughts[0]] + Sections(thoughts[1..], [])
      else [open + thoughts[0] + close] + Sections(thoughts[1..], tags[2..])
    }

    /** Put the sections back where they were cut out, the last one first. */
    function Restored(kept: string, sections: seq<string>, at: seq<nat>): string
      requires |at| == |sections|
    {
      if sections == [] then kept
      else
        var s := Restored(kept, sections[1..], at[1..]);
        if at[0] <= |s| then s[..at[0]] + sections[0] + s[at[0]..] else s
    }

    /** The kept text is the reply with the sections taken out, each in one piece, and nothing moved or changed. */
    lemma {:induction false} SectionsGoBack(s: string) returns (at: seq<nat>)
      requires Separate()
      ensures |at| == |Sections(Split(s).thoughts, Split(s).tags)| == |Split(s).thoughts|
      ensures Restored(Split(s).kept, Sections(Split(s).thoughts, Split(s).tags), at) == s
      decreases |s|
    {
      var cut := CutFirst(s);
      at := [];
      if cut.Closed? {
        var more := SectionsGoBack(cut.before + cut.after);
        at := OneSectionMore(cut, Split(cut.before + cut.after), more);
      } else if cut.Unclosed? {
        at := OnlySection(cut.before, cut.thought);
      }
    }

    lemma OneSectionMore(cut: Cut, rest: Parts, more: seq<nat>) returns (at: seq<nat>)
      requires cut.Closed? && |more| == |Sections(rest.thoughts, rest.tags)| == |rest.thoughts|
      requires Restored(rest.kept, Sections(rest.thoughts, rest.tags), more) == cut.before + cut.after
      ensures var sections := Sections([cut.thought] + rest.thoughts, [open, close] + rest.tags);
              && |at| == |sections| == 1 + |rest.thoughts|
              && Restored(rest.kept, sections, at) == cut.before + open + cut.thought + close + cut.after
    {
      at := [|cut.before|] + more;
      FirstSection(cut.thought, rest.thoughts, rest.tags);
      PutBack(rest.kept, open + cut.thought + close, Sections(rest.thoughts, rest.tags), more, cut.before, cut.after);
      InOnePiece(cut.before, open, cut.thought, close, cut.after);
    }

    lemma OnlySection(before: string, thought: string) returns (at: seq<nat>)
      ensures var sections := Sections([thought], [open]);
              && |at| == |sections| == 1
              && Restored(before, sections, at) == before + open + thought
    {
      LastSection(thought);
      PutAtEnd(before, open + thought);
      assert before + (open + thought) == before + open + thought;
      at := [|before|];
    }

    lemma LastSection(thought: string)
      ensures Sections([thought], [open]) == [open + thought]
    {
      assert [thought][1..] == [];
      assert [open + thought] + Sections([], []) == [open + thought];
    }

    lemma PutAtEnd(before: string, section: string)
      ensures Restored(before, [section], [|before|]) == before + section
    {
      assert [section][1..] == [] && [|before|][1..] == [];
      assert Restored(before, [], []) == before;
      assert before[..|before|] == before && before[|before|..] == "";
    }

    lemma FirstSection(thought: string, thoughts: seq<string>, tags: seq<string>)
      ensures Sections([thought] + thoughts, [open, close] + tags)
          == [open + thought + close] + Sections(thoughts, tags)
    {
      assert ([thought] + thoughts)[1..] == thoughts && ([open, close] + tags)[2..] == tags;
    }

    lemma PutBack(kept: string, section: string, sections: seq<string>, at: seq<nat>, before: string, after: string)
      requires |at| == |sections| && Restored(kept, sections, at) == before + after
      ensures Restored(kept, [section] + sections, [|before|] + at) == before + section + after
    {
      assert ([section] + sections)[1..] == sections && ([|before|] + at)[1..] == at;
      assert (before + after)[..|before|] == before && (before + after)[|before|..] == after;
    }

    lemma TagLetters(tags: seq<string>)
      ensures multiset(Concat([open, close] + tags)) == multiset(open) + multiset(close) + multiset(Concat(tags))
    {
      JoinedLetters(open, [close] + tags);
      JoinedLetters(close, tags);
      assert [open] + ([close] + tags) == [open, close] + tags;
    }

    /** Tags in pairs, the closing one of the last pair perhaps missing. */
    ghost predicate Paired(tags: seq<string>, pairs: nat) {
      if tags == [] then pairs == 0
      else if |tags| == 1 then tags[0] == open && pairs == 1
      else pairs > 0 && tags[0] == open && tags[1] == close && Paired(tags[2..], pairs - 1)
    }

    lemma OnePairMore(tags: seq<string>, pairs: nat)
      requires Paired(tags, pairs)
      ensures Paired([open, close] + tags, pairs + 1)
    {
      assert ([open, close] + tags)[2..] == tags;
    }

    /**
      What is removed is an opening and a closing tag for each thought, but for the closing one of an unfinished
      thought.
     */
    lemma {:induction false} TagsPairUp(s: string)
      requires Separate()
      ensures Paired(Split(s).tags, |Split(s).thoughts|)
      decreases |s|
    {
      var cut := CutFirst(s);
      if cut.Closed? {
        TagsPairUp(cut.before + cut.after);
        OnePairMore(Split(cut.before + cut.after).tags, |Split(cut.before + cut.after).thoughts|);
      }
    }
  }

  lemma JoinedLetters(s: string, rest: seq<string>)
    ensures multiset(Concat([s] + rest)) == multiset(s) + multiset(Concat(rest))
  {
    assert ([s] + rest)[1..] == rest;
  }

  lemma Regroup(a: string, b: string, c: string, d: string, e: string)
    ensures a + (b + c + (d + e)) == a + b + c + d + e
  {
  }

  lemma OneMoreThought(a: seq<string>, t: string, b: seq<string>)
    ensures a + ([t] + b) == a + [t] + b
  {
  }

  lemma InOnePiece(a: string, b: string, c: string, d: string, e: string)
    ensures a + (b + c + d) + e == a + b + c + d + e
  {
  }

  lemma Letters(a: string, b: string, c: string, d: string, e: string)
    ensures multiset(a + b + c + d + e) == multiset(a + e) + multiset(b) + multiset(c) + multiset(d)
  {
  }

  lemma ConcatOne(s: string)
    ensures Concat([s]) == s
  {
    assert [s][1..] == [];
    assert s + "" == s;
  }

  // ---- splitThinking ----

  const THINK := Tags("<think>", "</think>")

  lemma ThinkTagsAreSeparate()
    ensures THINK.Separate()
  {
    forall t: string | THINK.open <= t && Index(t, THINK.close).Some?
      ensures Index(t, THINK.close).value >= |THINK.open|
    {
      var e := Index(t, THINK.close).value;
      IndexIsFirst(t, THINK.close);
      assert t[e] == t[e..][0] == '<' && t[e + 1] == t[e..][1] == '/';
      assert t[1] == 't';
    }
  }

  /** `strings.Join` with newlines. */
  function Join(parts: seq<string>): string {
    if parts == [] then "" else if |parts| == 1 then parts[0] else parts[0] + "\n" + Join(parts[1..])
  }

  function Kept(s: string): string {
    ThinkTagsAreSeparate();
    THINK.Split(s).kept
  }

  function Thoughts(s: string): seq<string> {
    ThinkTagsAreSeparate();
    THINK.Split(s).thoughts
  }

  function SplitText(s: string): string {
    TrimSpace(Kept(s))
  }

  method SplitThinking(input: string) returns (text: string, thinking: string)
    ensures text == SplitText(input) && thinking == TrimSpace(Join(Thoughts(input)))
  {
    ThinkTagsAreSeparate();
    var s, thoughts := THINK.CutAll(input);
    text, thinking := TrimSpace(s), TrimSpace(Join(thoughts));
  }

  /** The text never holds an opening tag. */
  lemma TextHasNoTag(s: string)
    ensures Lacks(SplitText(s), "<think>")
    ensures forall i, j :: 0 <= i <= j <= |SplitText(s)| ==> SplitText(s)[i..j] != "<think>"
  {
    ThinkTagsAreSeparate();
    THINK.KeptHasNoTag(s);
    TrimmedLacks(Kept(s), THINK.open);
    IndexIsFirst(SplitText(s), "<think>");
    forall i, j | 0 <= i <= j <= |SplitText(s)|
      ensures SplitText(s)[i..j] != "<think>"
    {
      assert !At(SplitText(s), i, "<think>");
      assert SplitText(s)[i..][..j - i] == SplitText(s)[i..j];
    }
  }

  lemma JoinTells(a: string, b: string, more: seq<string>)
    ensures Join([]) == "" && Join([a]) == a && Join([a, b] + more) == a + "\n" + Join([b] + more)
  {
    assert ([a, b] + more)[1..] == [b] + more;
  }

  /** Thoughts in their tags; the last one may lack the closing tag. */
  function Tagged(thoughts: seq<string>, closed: bool): seq<string> {
    if thoughts == [] then []
    else if |thoughts| == 1 && !closed then ["<think>" + thoughts[0]]
    else ["<think>" + thoughts[0] + "</think>"] + Tagged(thoughts[1..], closed)
  }

  lemma {:induction false} SectionsAreTagged(thoughts: seq<string>, tags: seq<string>) returns (closed: bool)
    requires THINK.Paired(tags, |thoughts|)
    ensures THINK.Sections(thoughts, tags) == Tagged(thoughts, closed)
  {
    if |thoughts| == 1 && |tags| == 1 {
      closed := false;
      assert thoughts[1..] == [];
    } else if thoughts == [] {
      closed := true;
    } else {
      closed := SectionsAreTagged(thoughts[1..], tags[2..]);
      if |thoughts| == 1 {
        closed := true;
        assert thoughts[1..] == [];
      }
    }
  }

  /** The reply is its kept text with every thought put back in its tags, whatever reply it is. */
  lemma ThoughtsGoBack(s: string) returns (at: seq<nat>, closed: bool)
    ensures |at| == |Tagged(Thoughts(s), closed)|
    ensures THINK.Restored(Kept(s), Tagged(Thoughts(s), closed), at) == s
  {
    ThinkTagsAreSeparate();
    at := THINK.SectionsGoBack(s);
    THINK.TagsPairUp(s);
    closed := SectionsAreTagged(Thoughts(s), THINK.Split(s).tags);
  }

  lemma TrimmedLacks(s: string, sub: string)
    requires Lacks(s, sub)
    ensures Lacks(TrimSpace(s), sub)
  {
    TrimSpaceSlices(s);
    var lo: nat, hi: nat :| lo <= hi <= |s| && TrimSpace(s) == s[lo..hi] && AllSpace(s[..lo]) && AllSpace(s[hi..]);
    SliceLacks(s, lo, hi, sub);
  }

  /** Splitting an answer again changes nothing and finds no reasoning. */
  lemma SplittingIsIdempotent(s: string)
    ensures SplitText(SplitText(s)) == SplitText(s) && Thoughts(SplitText(s)) == []
  {
    TextHasNoTag(s);
    PlainSplits(SplitText(s));
    TrimSpaceEnds(Kept(s));
    TrimSpaceIsIdentity(SplitText(s));
  }

  lemma PlainSplits(s: string)
    requires Lacks(s, THINK.open)
    ensures Kept(s) == s && Thoughts(s) == []
  {
  }
}
