/** Panel detection and de-panelisation (internal/kicad/panel.go, ParsePanelBoardBOM in bom.go). */
module Panel {
  import opened Components
  import opened Bom
  import opened BomGuarantees

  // ---- DetectPanelPCB ----

  predicate KiKit(ref: string) {
    "KiKit" <= ref
  }

  /** The references that count: panel frame parts are left out. */
  function BoardRefs(refs: seq<string>): seq<string> {
    if refs == [] then []
    else
      var n := |refs| - 1;
      BoardRefs(refs[..n]) + if KiKit(refs[n]) then [] else [refs[n]]
  }

  function Times(refs: seq<string>, r: string): nat {
    multiset(BoardRefs(refs))[r]
  }

  /** The references that occur n times. */
  ghost function OccurTimes(refs: seq<string>, n: nat): set<string> {
    set r | r in BoardRefs(refs) && Times(refs, r) == n
  }

  /** The count most references share; the larger of two such counts. */
  ghost predicate IsMode(refs: seq<string>, mode: nat) {
    && OccurTimes(refs, mode) != {}
    && forall n: nat :: n != mode ==>
         || |OccurTimes(refs, n)| < |OccurTimes(refs, mode)|
         || (|OccurTimes(refs, n)| == |OccurTimes(refs, mode)| && n < mode)
  }

  /** What the detector may answer: a mode of two or more and yes, or else one and no. */
  ghost predicate Detected(refs: seq<string>, copies: nat, isPanel: bool) {
    if BoardRefs(refs) == [] then copies == 1 && !isPanel
    else exists mode: nat :: IsMode(refs, mode) && isPanel == (mode >= 2) && copies == if isPanel then mode else 1
  }

  /** The answer is the mode's, in whatever order the maps are walked. */
  method DetectPanelPCB(refs: seq<string>) returns (copies: nat, isPanel: bool)
    ensures Detected(refs, copies, isPanel)
  {
    var counts := CountRefs(refs);
    assert BoardRefs(refs) != [] ==> BoardRefs(refs)[0] in counts;
    if |counts| == 0 {
      return 1, false;
    }
    var freq := CountCounts(counts);
    AllCounted(refs, counts);
    var mode := PickMode(refs, freq);
    if mode < 2 {
      return 1, false;
    }
    return mode, true;
  }

  /** The map holds the elements of a list, each with the times it occurs. */
  ghost predicate Counts(rs: seq<string>, counts: map<string, nat>) {
    && (forall r :: r in counts <==> r in rs)
    && (forall r :: r in counts ==> counts[r] == multiset(rs)[r])
  }

  method CountRefs(refs: seq<string>) returns (counts: map<string, nat>)
    ensures Counts(BoardRefs(refs), counts)
  {
    counts := map[];
    ghost var done: seq<string> := [];
    for i := 0 to |refs|
      invariant Prefix(refs, i, done) && Counts(BoardRefs(done), counts)
    {
      var ref := refs[i];
      BoardRefsMore(done, ref);
      OneMoreRef(BoardRefs(done), ref, counts);
      LongerPrefix(refs, i, done);
      done := done + [ref];
      if KiKit(ref) {
        continue;
      }
      counts := counts[ref := (if ref in counts then counts[ref] else 0) + 1];
    }
    assert done == refs;
  }

  ghost predicate Prefix(refs: seq<string>, i: nat, done: seq<string>) {
    i <= |refs| && done == refs[..i]
  }

  lemma LongerPrefix(refs: seq<string>, i: nat, done: seq<string>)
    requires i < |refs| && Prefix(refs, i, done)
    ensures Prefix(refs, i + 1, done + [refs[i]])
  {
  }

  lemma OneMoreRef(rs: seq<string>, ref: string, counts: map<string, nat>)
    requires Counts(rs, counts)
    ensures Counts(rs + [ref], counts[ref := (if ref in counts then counts[ref] else 0) + 1])
  {
    forall r
      ensures r in rs + [ref] <==> r in rs || r == ref
      ensures multiset(rs + [ref])[r] == multiset(rs)[r] + if r == ref then 1 else 0
    {
      OneMoreTime(rs, ref, r);
    }
    OneMoreTime(rs, ref, ref);
  }

  lemma BoardRefsMore(done: seq<string>, ref: string)
    ensures BoardRefs(done + [ref]) == if KiKit(ref) then BoardRefs(done) else BoardRefs(done) + [ref]
  {
    assert (done + [ref])[..|done|] == done;
    assert BoardRefs(done) + [] == BoardRefs(done);
  }

  lemma OneMoreTime(refs: seq<string>, ref: string, r: string)
    ensures r in refs + [ref] <==> r in refs || r == ref
    ensures multiset(refs + [ref])[r] == multiset(refs)[r] + if r == ref then 1 else 0
    ensures r !in refs ==> multiset(refs)[r] == 0
  {
  }

  ghost function CountedTimes(counts: map<string, nat>, done: set<string>, n: nat): set<string> {
    set r | r in done && r in counts && counts[r] == n
  }

  method CountCounts(counts: map<string, nat>) returns (freq: map<nat, nat>)
    ensures Frequencies(counts, counts.Keys, freq)
  {
    freq := map[];
    var todo := counts.Keys;
    ghost var done: set<string> := {};
    while todo != {}
      invariant todo + done == counts.Keys && todo !! done
      invariant Frequencies(counts, done, freq)
      decreases |todo|
    {
      var r :| r in todo;
      OneMoreCounted(counts, done, r, freq);
      var c := counts[r];
      freq := freq[c := (if c in freq then freq[c] else 0) + 1];
      todo, done := todo - {r}, done + {r};
    }
    assert done == counts.Keys;
  }

  ghost predicate Frequencies(counts: map<string, nat>, done: set<string>, freq: map<nat, nat>) {
    && (forall n: nat :: n in freq <==> CountedTimes(counts, done, n) != {})
    && (forall n: nat :: n in freq ==> freq[n] == |CountedTimes(counts, done, n)|)
  }

  lemma OneMoreCounted(counts: map<string, nat>, done: set<string>, r: string, freq: map<nat, nat>)
    requires r in counts && r !in done && Frequencies(counts, done, freq)
    ensures var c := counts[r]; Frequencies(counts, done + {r}, freq[c := (if c in freq then freq[c] else 0) + 1])
  {
    var c := counts[r];
    assert CountedTimes(counts, done + {r}, c) == CountedTimes(counts, done, c) + {r};
    forall n: nat | n != c
      ensures CountedTimes(counts, done + {r}, n) == CountedTimes(counts, done, n)
    {
    }
  }

  lemma AllCounted(refs: seq<string>, counts: map<string, nat>)
    requires Counts(BoardRefs(refs), counts)
    ensures forall n: nat :: CountedTimes(counts, counts.Keys, n) == OccurTimes(refs, n)
    ensures |counts| > 0 ==> exists n: nat :: OccurTimes(refs, n) != {}
  {
    forall n: nat
      ensures CountedTimes(counts, counts.Keys, n) == OccurTimes(refs, n)
    {
    }
    if |counts| > 0 {
      var r :| r in counts;
      assert r in OccurTimes(refs, counts[r]);
    }
  }

  method PickMode(ghost refs: seq<string>, freq: map<nat, nat>) returns (mode: nat)
    requires freq.Keys != {}
    requires forall n: nat :: n in freq <==> OccurTimes(refs, n) != {}
    requires forall n: nat :: n in freq ==> freq[n] == |OccurTimes(refs, n)|
    ensures IsMode(refs, mode)
  {
    mode := 1;
    var best := 0;
    var todo := freq.Keys;
    while todo != {}
      invariant todo <= freq.Keys
      invariant if best == 0 then mode == 1 && todo == freq.Keys else mode in freq.Keys - todo && best == freq[mode]
      invariant forall n: nat :: n in freq.Keys - todo && n != mode ==> freq[n] < best || (freq[n] == best && n < mode)
      decreases |todo|
    {
      var count :| count in todo;
      var n := freq[count];
      assert n > 0;
      if n > best || (n == best && count > mode) {
        mode, best := count, n;
      }
      todo := todo - {count};
    }
  }

  lemma ModeIsUnique(refs: seq<string>, a: nat, b: nat)
    requires IsMode(refs, a) && IsMode(refs, b)
    ensures a == b
  {
  }

  /** The references that count are all but those that start with KiKit, each as often as it is read. */
  lemma FramesAreLeftOut(refs: seq<string>, r: string)
    ensures Times(refs, r) == if |r| >= 5 && r[..5] == "KiKit" then 0 else multiset(refs)[r]
    ensures r in BoardRefs(refs) <==> r in refs && !(|r| >= 5 && r[..5] == "KiKit")
  {
    FrameName(r);
    FramesUncounted(refs, r);
    assert r in BoardRefs(refs) <==> multiset(BoardRefs(refs))[r] > 0;
    assert r in refs <==> multiset(refs)[r] > 0;
  }

  lemma {:induction false} FramesUncounted(refs: seq<string>, r: string)
    ensures multiset(BoardRefs(refs))[r] == if KiKit(r) then 0 else multiset(refs)[r]
  {
    if refs != [] {
      var n := |refs| - 1;
      FramesUncounted(refs[..n], r);
      BoardRefsMore(refs[..n], refs[n]);
      assert refs == refs[..n] + [refs[n]];
      OneMoreTime(refs[..n], refs[n], r);
      if !KiKit(refs[n]) {
        OneMoreTime(BoardRefs(refs[..n]), refs[n], r);
      }
    }
  }

  lemma FrameName(r: string)
    ensures KiKit(r) <==> |r| >= 5 && r[..5] == "KiKit"
  {
  }

  /** On a tie the larger count wins: one reference read once and one read twice make a panel of two. */
  lemma TieGoesToTheLarger(a: string, b: string, copies: nat, isPanel: bool)
    requires a != b && !KiKit(a) && !KiKit(b) && Detected([a, b, b], copies, isPanel)
    ensures copies == 2 && isPanel
  {
    var refs := [a, b, b];
    ThreeRefs(a, b);
    assert Times(refs, a) == 1 && Times(refs, b) == 2;
    assert OccurTimes(refs, 1) == {a} && OccurTimes(refs, 2) == {b};
    forall n: nat | n != 1 && n != 2
      ensures OccurTimes(refs, n) == {}
    {
    }
    var mode: nat :| IsMode(refs, mode) && isPanel == (mode >= 2) && copies == if isPanel then mode else 1;
    assert mode == 1 ==> |OccurTimes(refs, 2)| == |OccurTimes(refs, 1)|;
  }

  lemma ThreeRefs(a: string, b: string)
    requires !KiKit(a) && !KiKit(b)
    ensures BoardRefs([a, b, b]) == [a, b, b]
  {
    assert [a, b, b] == [a] + [b] + [b] && [a] == [] + [a];
    BoardRefsMore([], a);
    BoardRefsMore([a], b);
    BoardRefsMore([a] + [b], b);
  }

  // ---- A panel of k copies ----

  /** k copies of a board in any interleaving. */
  ghost predicate Copies(board: seq<Component>, k: nat, panel: seq<Component>) {
    forall c :: multiset(panel)[c] == k * multiset(board)[c]
  }

  ghost predicate ProperBoard(board: seq<Component>) {
    && board != []
    && (forall i :: 0 <= i < |board| ==> board[i].reference != "" && !KiKit(board[i].reference))
    && (forall i, j :: 0 <= i < j < |board| ==> board[i].reference != board[j].reference)
  }

  lemma {:induction false} OnceOnBoard(board: seq<Component>, c: Component)
    requires forall i, j :: 0 <= i < j < |board| ==> board[i].reference != board[j].reference
    ensures multiset(board)[c] == if c in board then 1 else 0
  {
    if board != [] {
      var rest := board[1..];
      assert forall i :: 0 <= i < |rest| ==> rest[i] == board[i + 1];
      OnceOnBoard(rest, c);
      assert board == [board[0]] + rest;
    }
  }

  /** How many components of a list have reference r. */
  function WithRef(cs: seq<Component>, r: string): nat {
    if cs == [] then 0 else WithRef(cs[..|cs| - 1], r) + if cs[|cs| - 1].reference == r then 1 else 0
  }

  lemma {:induction false} WithRefIsCount(cs: seq<Component>, c: Component)
    requires forall d :: d in cs && d.reference == c.reference ==> d == c
    ensures WithRef(cs, c.reference) == multiset(cs)[c]
  {
    if cs != [] {
      var n := |cs| - 1;
      assert cs == cs[..n] + [cs[n]];
      WithRefIsCount(cs[..n], c);
    }
  }

  /** The references the detector reads: those of the panel's parts, with frame parts anywhere among them. */
  ghost predicate ReadsRefs(panel: seq<Component>, refs: seq<string>) {
    forall r :: Times(refs, r) == WithRef(panel, r)
  }

  lemma {:induction false} WithRefPositive(cs: seq<Component>, r: string)
    ensures WithRef(cs, r) > 0 <==> exists i :: 0 <= i < |cs| && cs[i].reference == r
  {
    if cs != [] {
      var n := |cs| - 1;
      WithRefPositive(cs[..n], r);
      if WithRef(cs[..n], r) > 0 {
        var i :| 0 <= i < n && cs[..n][i].reference == r;
        assert cs[i].reference == r;
      }
    }
  }

  lemma PanelRefs(board: seq<Component>, k: nat, panel: seq<Component>, r: string)
    requires ProperBoard(board) && Copies(board, k, panel)
    ensures WithRef(panel, r) == if exists i :: 0 <= i < |board| && board[i].reference == r then k else 0
  {
    forall d
      ensures d in panel ==> d in board
      ensures k > 0 && d in board ==> d in panel
    {
      assert multiset(panel)[d] == k * multiset(board)[d];
      OnceOnBoard(board, d);
    }
    if exists i :: 0 <= i < |board| && board[i].reference == r {
      var i :| 0 <= i < |board| && board[i].reference == r;
      OnceOnBoard(board, board[i]);
      WithRefIsCount(panel, board[i]);
      assert multiset(panel)[board[i]] == k * multiset(board)[board[i]];
    } else {
      forall i | 0 <= i < |panel|
        ensures panel[i].reference != r
      {
        assert panel[i] in board;
        var j :| 0 <= j < |board| && board[j] == panel[i];
      }
      WithRefPositive(panel, r);
    }
  }

  /** On k copies of a board the mode is k: the detector finds the copy count exactly. */
  lemma PanelModeIsCopies(board: seq<Component>, k: nat, panel: seq<Component>, refs: seq<string>)
    requires ProperBoard(board) && k > 0 && Copies(board, k, panel) && ReadsRefs(panel, refs)
    ensures BoardRefs(refs) != [] && IsMode(refs, k)
  {
    forall r
      ensures Times(refs, r) == if exists i :: 0 <= i < |board| && board[i].reference == r then k else 0
    {
      PanelRefs(board, k, panel, r);
    }
    var r := board[0].reference;
    assert Times(refs, r) == k > 0;
    assert r in multiset(BoardRefs(refs));
    assert r in OccurTimes(refs, k);
    forall s | s in BoardRefs(refs)
      ensures Times(refs, s) == k
    {
      assert s in multiset(BoardRefs(refs));
    }
    forall n: nat | n != k
      ensures OccurTimes(refs, n) == {}
    {
    }
  }

  /** So on k copies of a proper board the detector answers k and yes, if and only if there are at least two. */
  lemma CopiesAreDetected(board: seq<Component>, k: nat, panel: seq<Component>, refs: seq<string>,
                          copies: nat, isPanel: bool)
    requires ProperBoard(board) && k > 0 && Copies(board, k, panel) && ReadsRefs(panel, refs)
    requires Detected(refs, copies, isPanel)
    ensures copies == k && (isPanel <==> k >= 2)
  {
    PanelModeIsCopies(board, k, panel, refs);
    var mode: nat :| IsMode(refs, mode) && isPanel == (mode >= 2) && copies == if isPanel then mode else 1;
    ModeIsUnique(refs, mode, k);
  }

  // ---- One board's bill of materials out of a panel ----

  /** The first component of each reference. */
  function Unique(comps: seq<Component>): seq<Component> {
    if comps == [] then []
    else
      var n := |comps| - 1;
      var c := comps[n];
      Unique(comps[..n]) + if c.reference == "" || c.reference in Refs(comps[..n]) then [] else [c]
  }

  method ParsePanelBoardBOM(comps: seq<Component>) returns (lines: seq<BOMLine>)
    ensures IsBOM(Unique(comps), lines)
  {
    var seen: set<string> := {};
    var uniq: seq<Component> := [];
    for i := 0 to |comps|
      invariant uniq == Unique(comps[..i])
      invariant seen == set r | r in Refs(comps[..i])
    {
      var c := comps[i];
      assert comps[..i + 1][..i] == comps[..i];
      if c.reference == "" || c.reference in seen {
        continue;
      }
      seen := seen + {c.reference};
      uniq := uniq + [c];
    }
    assert comps[..|comps|] == comps;
    lines := GroupComponents(uniq);
  }

  lemma {:induction false} UniqueKeepsOne(comps: seq<Component>, r: string)
    ensures WithRef(Unique(comps), r) == if r != "" && r in Refs(comps) then 1 else 0
  {
    if comps != [] {
      var n := |comps| - 1;
      var before, c := Unique(comps[..n]), comps[n];
      UniqueKeepsOne(comps[..n], r);
      WithRefMore(before, c, r);
      assert before + [] == before;
      assert r in Refs(comps) <==> r in Refs(comps[..n]) || (r != "" && r == c.reference);
    }
  }

  lemma {:induction false} UniqueAmong(comps: seq<Component>)
    ensures forall c :: c in Unique(comps) ==> c in comps
  {
    if comps != [] {
      UniqueAmong(comps[..|comps| - 1]);
    }
  }

  lemma WithRefMore(cs: seq<Component>, c: Component, r: string)
    ensures WithRef(cs + [c], r) == WithRef(cs, r) + if c.reference == r then 1 else 0
  {
    assert (cs + [c])[..|cs|] == cs;
  }

  lemma {:induction false} RefsHave(comps: seq<Component>, r: string)
    ensures r in Refs(comps) <==> r != "" && exists i :: 0 <= i < |comps| && comps[i].reference == r
  {
    if comps != [] {
      var n := |comps| - 1;
      RefsHave(comps[..n], r);
      if r in Refs(comps[..n]) {
        var i :| 0 <= i < n && comps[..n][i].reference == r;
        assert comps[i].reference == r;
      }
      forall i | 0 <= i < n && comps[i].reference == r
        ensures comps[..n][i].reference == r
      {
      }
    }
  }

  /** Of the components with one reference the first is kept. */
  lemma {:induction false} FirstIsKept(comps: seq<Component>, i: nat)
    requires i < |comps| && comps[i].reference != ""
    requires forall k :: 0 <= k < i ==> comps[k].reference != comps[i].reference
    ensures comps[i] in Unique(comps)
  {
    var n := |comps| - 1;
    if i < n {
      FirstIsKept(comps[..n], i);
    } else {
      RefsHave(comps[..n], comps[i].reference);
    }
  }

  /** Deduplicating k interleaved copies gives back the board, in some order. */
  lemma UniqueUndoesCopies(board: seq<Component>, k: nat, panel: seq<Component>)
    requires ProperBoard(board) && k > 0 && Copies(board, k, panel)
    ensures multiset(Unique(panel)) == multiset(board)
  {
    UniqueAmong(panel);
    forall c
      ensures multiset(Unique(panel))[c] == multiset(board)[c]
    {
      OnceOnBoard(board, c);
      UniqueKeepsOne(panel, c.reference);
      RefsHave(panel, c.reference);
      PanelRefs(board, k, panel, c.reference);
      WithRefPositive(panel, c.reference);
      forall d | d in Unique(panel)
        ensures d in board
      {
        assert multiset(panel)[d] == k * multiset(board)[d];
      }
      if c in board {
        WithRefIsCount(Unique(panel), c);
      }
    }
  }

  /** De-panelisation inverts panelisation: the panel's bill of materials is the board's own. */
  lemma PanelBOMIsTheBoards(board: seq<Component>, k: nat, panel: seq<Component>,
                            ofPanel: seq<BOMLine>, ofBoard: seq<BOMLine>)
    requires ProperBoard(board) && k > 0 && Copies(board, k, panel)
    requires IsBOM(Unique(panel), ofPanel) && IsBOM(board, ofBoard)
    ensures SameBOM(ofPanel, ofBoard)
  {
    UniqueUndoesCopies(board, k, panel);
    OrderOfInputIsIrrelevant(Unique(panel), ofPanel, board, ofBoard);
  }

  // ---- The estimate from footprint counts ----

  /** The footprints besides the frame's; a frame that counts more than there are is no frame. */
  function BoardFootprints(total: nat, kikitFrame: nat): nat {
    if total < kikitFrame then total else total - kikitFrame
  }

  /** The copy count `DetectPanels` puts on an extra PCB, from its footprints, the frame's and the main board's. */
  function CopiesEstimate(total: nat, kikitFrame: nat, mainCount: nat): nat
    requires mainCount > 0
  {
    (BoardFootprints(total, kikitFrame) + mainCount / 2) / mainCount
  }

  /**
    The estimate is k exactly when the footprints besides the frame's, or all of them if the frame's are more, are
    within half a board of k boards.
   */
  lemma EstimateExactly(total: nat, kikitFrame: nat, mainCount: nat, k: nat)
    requires mainCount > 0
    ensures CopiesEstimate(total, kikitFrame, mainCount) == k
       <==> var e := (if kikitFrame > total then total else total - kikitFrame) - k * mainCount;
            -(mainCount / 2) <= e < mainCount - mainCount / 2
  {
    QuotientExactly(BoardFootprints(total, kikitFrame) + mainCount / 2, mainCount, k);
  }

  lemma QuotientExactly(f: nat, m: nat, k: nat)
    requires m > 0
    ensures f / m == k <==> k * m <= f < k * m + m
  {
    var q, r := f / m, f % m;
    assert f == q * m + r;
    if k < q {
      MultiplesGrow(k + 1, q, m);
    } else if q < k {
      MultiplesGrow(q + 1, k, m);
    }
  }

  lemma MultiplesGrow(a: nat, b: nat, m: nat)
    requires a <= b
    ensures a * m <= b * m && (a > 0 ==> (a - 1) * m + m == a * m)
  {
  }
}
