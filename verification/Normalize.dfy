/** Collapsing the white space of extracted text (normalize, internal/datasheets/extract.go). */
module Normalize {
  import opened Text

  // ---- Text as its visible runes and the gaps around them ----

  /** gaps[i] is the white space before runes[i], the last gap what follows them all. */
  datatype Gapped = Gapped(gaps: seq<string>, runes: string)

  ghost predicate Proper(g: Gapped) {
    && |g.gaps| == |g.runes| + 1
    && (forall i :: 0 <= i < |g.gaps| ==> AllSpace(g.gaps[i]))
    && (forall i :: 0 <= i < |g.runes| ==> !IsSpace(g.runes[i]))
  }

  /** One more rune at the end of a text. */
  function Extend(g: Gapped, c: char): Gapped
    requires g.gaps != []
  {
    var n := |g.gaps| - 1;
    if IsSpace(c) then Gapped(g.gaps[..n] + [g.gaps[n] + [c]], g.runes) else Gapped(g.gaps + [""], g.runes + [c])
  }

  function Parse(s: string): (g: Gapped)
    ensures g.gaps != []
  {
    if s == "" then Gapped([""], "") else Extend(Parse(s[..|s| - 1]), s[|s| - 1])
  }

  function Weave(g: Gapped): string
    requires |g.gaps| == |g.runes| + 1
    decreases |g.runes|
  {
    var n := |g.runes|;
    if n == 0 then g.gaps[0] else Weave(Gapped(g.gaps[..n], g.runes[..n - 1])) + [g.runes[n - 1]] + g.gaps[n]
  }

  lemma {:induction false} ParseIsProper(s: string)
    ensures Proper(Parse(s))
  {
    if s != "" {
      ParseIsProper(s[..|s| - 1]);
    }
  }

  /** A longer last gap is the same text with that much white space after it. */
  lemma WeaveLast(g: Gapped, gap: string, more: string)
    requires |g.gaps| == |g.runes| + 1 && g.gaps[|g.runes|] == gap
    ensures Weave(Gapped(g.gaps[..|g.runes|] + [gap + more], g.runes)) == Weave(g) + more
  {
    var n := |g.runes|;
    var g' := Gapped(g.gaps[..n] + [gap + more], g.runes);
    if n > 0 {
      assert g'.gaps[..n] == g.gaps[..n];
      var head := Weave(Gapped(g.gaps[..n], g.runes[..n - 1])) + [g.runes[n - 1]];
      assert head + (gap + more) == head + gap + more;
    }
  }

  lemma WeaveExtend(g: Gapped, c: char)
    requires Proper(g)
    ensures |Extend(g, c).gaps| == |Extend(g, c).runes| + 1
    ensures Weave(Extend(g, c)) == Weave(g) + [c]
  {
    var n := |g.runes|;
    if IsSpace(c) {
      WeaveLast(g, g.gaps[n], [c]);
    } else {
      var g' := Extend(g, c);
      assert g'.gaps[..n + 1] == g.gaps && g'.runes[..n] == g.runes;
      assert Weave(g') == Weave(g) + [c] + "";
    }
  }

  /** Parsing loses nothing. */
  lemma {:induction false} WeaveParse(s: string)
    ensures Proper(Parse(s)) && Weave(Parse(s)) == s
  {
    ParseIsProper(s);
    if s != "" {
      var n := |s| - 1;
      WeaveParse(s[..n]);
      WeaveExtend(Parse(s[..n]), s[n]);
      assert s[..n] + [s[n]] == s;
    }
  }

  lemma ParseAppend(s: string, c: char)
    ensures Parse(s + [c]) == Extend(Parse(s), c)
  {
    assert (s + [c])[..|s|] == s;
  }

  /** More white space at the end. */
  function Grown(g: Gapped, ws: string): Gapped
    requires g.gaps != []
  {
    var n := |g.gaps| - 1;
    Gapped(g.gaps[..n] + [g.gaps[n] + ws], g.runes)
  }

  lemma GrownMore(g: Gapped, ws: string, c: char)
    requires g.gaps != [] && IsSpace(c)
    ensures Extend(Grown(g, ws), c) == Grown(g, ws + [c])
  {
    var n := |g.gaps| - 1;
    assert (g.gaps[..n] + [g.gaps[n] + ws])[..n] == g.gaps[..n];
    assert g.gaps[n] + ws + [c] == g.gaps[n] + (ws + [c]);
  }

  lemma GrownNone(g: Gapped)
    requires g.gaps != []
    ensures Grown(g, "") == g
  {
    var n := |g.gaps| - 1;
    assert g.gaps[n] + "" == g.gaps[n];
    assert g.gaps[..n] + [g.gaps[n]] == g.gaps;
  }

  lemma {:induction false} ParseSpaces(s: string, ws: string)
    requires AllSpace(ws)
    ensures Parse(s + ws) == Grown(Parse(s), ws)
    decreases |ws|
  {
    if ws == "" {
      assert s + ws == s;
      GrownNone(Parse(s));
    } else {
      var some, c := ws[..|ws| - 1], ws[|ws| - 1];
      LastRune(s, ws);
      ParseSpaces(s, some);
      ParseAppend(s + some, c);
      GrownMore(Parse(s), some, c);
    }
  }

  lemma LastRune(s: string, ws: string)
    requires ws != ""
    ensures ws == ws[..|ws| - 1] + [ws[|ws| - 1]] && s + ws == s + ws[..|ws| - 1] + [ws[|ws| - 1]]
  {
  }

  /** Visible runes with white space between them are one text only: gaps and runes can be read back. */
  lemma {:induction false} ParseWeave(g: Gapped)
    requires Proper(g)
    ensures Parse(Weave(g)) == g
    decreases |g.runes|
  {
    var n := |g.runes|;
    if n == 0 {
      ParseGap(g.gaps[0]);
      assert g.gaps == [g.gaps[0]];
    } else {
      var head := Gapped(g.gaps[..n], g.runes[..n - 1]);
      HeadIsProper(g);
      ParseWeave(head);
      ParseAppend(Weave(head), g.runes[n - 1]);
      ParseSpaces(Weave(head) + [g.runes[n - 1]], g.gaps[n]);
      GrownRune(g);
    }
  }

  lemma ParseGap(gap: string)
    requires AllSpace(gap)
    ensures Parse(gap) == Gapped([gap], "")
  {
    ParseSpaces("", gap);
    assert "" + gap == gap;
    assert [""][..0] + ["" + gap] == [gap];
  }

  lemma HeadIsProper(g: Gapped)
    requires Proper(g) && g.runes != ""
    ensures Proper(Gapped(g.gaps[..|g.runes|], g.runes[..|g.runes| - 1]))
  {
  }

  lemma GrownRune(g: Gapped)
    requires Proper(g) && g.runes != ""
    ensures var n := |g.runes|;
            Grown(Extend(Gapped(g.gaps[..n], g.runes[..n - 1]), g.runes[n - 1]), g.gaps[n]) == g
  {
    var n := |g.runes|;
    assert (g.gaps[..n] + [""])[..n] == g.gaps[..n] && "" + g.gaps[n] == g.gaps[n];
    assert g.gaps[..n] + [g.gaps[n]] == g.gaps;
    assert g.runes[..n - 1] + [g.runes[n - 1]] == g.runes;
  }

  // ---- The canonical form ----

  predicate Breaks(gap: string) {
    '\n' in gap || '\r' in gap
  }

  /** What stands for a gap between runes: nothing for none, a newline if it breaks the line, else a space. */
  function Squeeze(gap: string): string {
    if gap == "" then "" else if Breaks(gap) then "\n" else " "
  }

  /** The gaps as written so far: none before the first rune, the one after the last still open. */
  function Written(gaps: seq<string>): (r: seq<string>)
    ensures |r| == |gaps|
  {
    seq(|gaps|, i requires 0 <= i < |gaps| => if i == 0 then "" else Squeeze(gaps[i]))
  }

  function Clean(gaps: seq<string>): (r: seq<string>)
    ensures |r| == |gaps|
  {
    seq(|gaps|, i requires 0 <= i < |gaps| => if i == 0 || i == |gaps| - 1 then "" else Squeeze(gaps[i]))
  }

  function Normal(s: string): string {
    ParseIsProper(s);
    Weave(Gapped(Clean(Parse(s).gaps), Parse(s).runes))
  }

  // ---- The loop ----

  /** The buffer and the flags after a prefix of the text. */
  ghost predicate Loop(g: Gapped, b: string, lastSpace: bool, lastNewline: bool)
    requires |g.gaps| == |g.runes| + 1
  {
    var last := Written(g.gaps)[|g.runes|];
    && b == Weave(Gapped(Written(g.gaps), g.runes))
    && (lastSpace <==> last == " ")
    && (lastNewline <==> g.runes == "" || last == "\n")
  }

  method NormalizeText(s: string) returns (r: string)
    ensures r == Normal(s)
  {
    var b: string := "";
    var lastSpace, lastNewline := false, true;
    ghost var g := Parse("");
    for i := 0 to |s|
      invariant g == Parse(s[..i]) && Proper(g)
      invariant Loop(g, b, lastSpace, lastNewline)
    {
      var c := s[i];
      ghost var before := b;
      assert s[..i + 1] == s[..i] + [c];
      ParseAppend(s[..i], c);
      ParseIsProper(s[..i + 1]);
      if c == '\n' || c == '\r' {
        if lastSpace {
          Unwritten(g, b);
          assert b[|b| - 1] == ' ';
          b := b[..|b| - 1];
          lastSpace := false;
        }
        if !lastNewline {
          b := b + ['\n'];
          lastNewline := true;
        }
        BreakStep(g, before, c);
      } else if IsSpace(c) {
        if !lastSpace && !lastNewline {
          b := b + [' '];
          lastSpace := true;
        }
        SpaceStep(g, before, c);
      } else {
        b := b + [c];
        lastSpace, lastNewline := false, false;
        RuneStep(g, before, c);
      }
      g := Extend(g, c);
    }
    assert s[..|s|] == s;
    TrimWritten(g, b);
    r := TrimSpace(b);
  }

  /** The gap being written is the end of the buffer. */
  lemma WrittenEnds(g: Gapped) returns (head: string)
    requires Proper(g) && g.runes != ""
    ensures forall gap :: Weave(Gapped(Written(g.gaps)[..|g.runes|] + [gap], g.runes)) == head + gap
    ensures Written(g.gaps)[..|g.runes|] + [Written(g.gaps)[|g.runes|]] == Written(g.gaps)
    ensures head != "" && head[|head| - 1] == g.runes[|g.runes| - 1] && head[0] == g.runes[0]
  {
    var n := |g.runes|;
    var w := Written(g.gaps);
    head := Weave(Gapped(w[..n], g.runes[..n - 1])) + [g.runes[n - 1]];
    forall gap
      ensures Weave(Gapped(w[..n] + [gap], g.runes)) == head + gap
    {
      assert (w[..n] + [gap])[..n] == w[..n];
    }
    WeaveStarts(Gapped(w[..n], g.runes[..n - 1]), g.runes[n - 1]);
  }

  lemma {:induction false} WeaveStarts(g: Gapped, c: char)
    requires |g.gaps| == |g.runes| + 1 && g.gaps[0] == ""
    ensures (Weave(g) + [c])[0] == (g.runes + [c])[0]
    decreases |g.runes|
  {
    var n := |g.runes|;
    if n > 0 {
      WeaveStarts(Gapped(g.gaps[..n], g.runes[..n - 1]), g.runes[n - 1]);
      assert g.runes[..n - 1] + [g.runes[n - 1]] == g.runes;
    }
  }

  /** The byte the loop takes back is the space it wrote. */
  lemma Unwritten(g: Gapped, b: string)
    requires Proper(g) && b == Weave(Gapped(Written(g.gaps), g.runes)) && Written(g.gaps)[|g.runes|] == " "
    ensures b != "" && b[|b| - 1] == ' '
  {
    var head := WrittenEnds(g);
    assert b == head + " ";
  }

  /** The buffer with another last gap. */
  lemma Rewritten(g: Gapped, b: string, more: string, b': string)
    requires Proper(g) && g.runes != "" && b == Weave(Gapped(Written(g.gaps), g.runes))
    requires b' == b[..|b| - |Squeeze(g.gaps[|g.runes|])|] + Squeeze(g.gaps[|g.runes|] + more)
    requires |Squeeze(g.gaps[|g.runes|])| <= |b|
    ensures b' == Weave(Gapped(Written(g.gaps[..|g.runes|] + [g.gaps[|g.runes|] + more]), g.runes))
  {
    var n := |g.runes|;
    var head := WrittenEnds(g);
    var old', new' := Squeeze(g.gaps[n]), Squeeze(g.gaps[n] + more);
    assert b == head + old';
    assert b[..|b| - |old'|] == head;
    var gaps' := g.gaps[..n] + [g.gaps[n] + more];
    assert Written(gaps') == Written(g.gaps)[..n] + [new'];
  }

  lemma BreakStep(g: Gapped, b: string, c: char)
    requires Proper(g) && b == Weave(Gapped(Written(g.gaps), g.runes)) && (c == '\n' || c == '\r')
    ensures |Extend(g, c).gaps| == |Extend(g, c).runes| + 1
    ensures var last := Written(g.gaps)[|g.runes|];
            var lastNewline := g.runes == "" || last == "\n";
            var b1 := if last == " " then b[..|b| - 1] else b;
            (last == " " ==> b != "") && Loop(Extend(g, c), if lastNewline then b1 else b1 + ['\n'], false, true)
  {
    var n := |g.runes|;
    var last := Written(g.gaps)[n];
    assert c in g.gaps[n] + [c];
    if n == 0 {
      assert Written(Extend(g, c).gaps) == [""] && Written(g.gaps) == [""];
    } else {
      var head := WrittenEnds(g);
      assert b == head + last;
      assert Squeeze(g.gaps[n] + [c]) == "\n";
      Rewritten(g, b, [c], head + "\n");
      assert Written(Extend(g, c).gaps)[n] == "\n";
      assert last == " " ==> b[..|b| - 1] == head;
    }
  }

  lemma SpaceStep(g: Gapped, b: string, c: char)
    requires Proper(g) && b == Weave(Gapped(Written(g.gaps), g.runes)) && IsSpace(c) && c != '\n' && c != '\r'
    ensures |Extend(g, c).gaps| == |Extend(g, c).runes| + 1
    ensures var last := Written(g.gaps)[|g.runes|];
            var lastNewline := g.runes == "" || last == "\n";
            Loop(Extend(g, c), if last != " " && !lastNewline then b + [' '] else b, !lastNewline, lastNewline)
  {
    var n := |g.runes|;
    var last := Written(g.gaps)[n];
    if n == 0 {
      assert Written(Extend(g, c).gaps) == [""] && Written(g.gaps) == [""];
    } else {
      var head := WrittenEnds(g);
      assert b == head + last;
      assert Breaks(g.gaps[n] + [c]) == Breaks(g.gaps[n]);
      Rewritten(g, b, [c], head + Squeeze(g.gaps[n] + [c]));
    }
  }

  lemma RuneStep(g: Gapped, b: string, c: char)
    requires Proper(g) && b == Weave(Gapped(Written(g.gaps), g.runes)) && !IsSpace(c)
    ensures |Extend(g, c).gaps| == |Extend(g, c).runes| + 1
    ensures Loop(Extend(g, c), b + [c], false, false)
  {
    var w := Written(g.gaps);
    var g' := Extend(g, c);
    assert Written(g'.gaps) == w + [""];
    assert (w + [""])[..|w|] == w && g'.runes[..|g.runes|] == g.runes;
    assert b + [c] + "" == b + [c];
  }

  /** The final trim drops exactly the gap still open at the end. */
  lemma TrimWritten(g: Gapped, b: string)
    requires Proper(g) && b == Weave(Gapped(Written(g.gaps), g.runes))
    ensures TrimSpace(b) == Weave(Gapped(Clean(g.gaps), g.runes))
  {
    var n := |g.runes|;
    if n == 0 {
      assert Clean(g.gaps) == [""] && Written(g.gaps) == [""];
    } else {
      var head := WrittenEnds(g);
      assert Clean(g.gaps) == Written(g.gaps)[..n] + [""];
      assert b == head + Written(g.gaps)[n] && head + "" == head;
      TrimOne(head, Written(g.gaps)[n]);
    }
  }

  lemma TrimOne(head: string, gap: string)
    requires head != "" && !IsSpace(head[0]) && !IsSpace(head[|head| - 1])
    requires gap == "" || gap == " " || gap == "\n"
    ensures TrimSpace(head + gap) == head
  {
    assert TrimLeft(head + gap) == head + gap;
    if gap == "" {
      assert head + gap == head;
    } else {
      assert (head + gap)[..|head|] == head;
      assert TrimRight(head) == head;
    }
  }

  // ---- What the canonical form guarantees ----

  /** Runes are unchanged, outer gaps are gone and every inner gap is squeezed: nothing else happens. */
  lemma NormalPreservesRunes(s: string)
    ensures Parse(Normal(s)) == Gapped(Clean(Parse(s).gaps), Parse(s).runes)
  {
    ParseIsProper(s);
    ParseWeave(Gapped(Clean(Parse(s).gaps), Parse(s).runes));
  }

  /** A separator stands where there was a gap, and it is a newline exactly where the gap broke the line. */
  lemma SeparatorsAreExact(s: string, i: nat)
    requires 0 < i < |Parse(s).runes|
    ensures |Parse(s).gaps| == |Parse(s).runes| + 1 == |Parse(Normal(s)).gaps|
    ensures Parse(Normal(s)).gaps[i] == "" <==> Parse(s).gaps[i] == ""
    ensures Parse(Normal(s)).gaps[i] == "\n" <==> '\n' in Parse(s).gaps[i] || '\r' in Parse(s).gaps[i]
  {
    ParseIsProper(s);
    NormalPreservesRunes(s);
  }

  lemma NormalIsIdempotent(s: string)
    ensures Normal(Normal(s)) == Normal(s)
  {
    NormalPreservesRunes(s);
    ParseIsProper(s);
    var gaps := Parse(s).gaps;
    assert Clean(Clean(gaps)) == Clean(gaps);
  }

  /** No white space at either end, no two separators in a row, and no separators but space and newline. */
  ghost predicate Canonical(r: string) {
    && (r != "" ==> !IsSpace(r[0]) && !IsSpace(r[|r| - 1]))
    && (forall i :: 0 <= i < |r| && IsSpace(r[i]) ==> r[i] == ' ' || r[i] == '\n')
    && (forall i :: 0 <= i < |r| - 1 ==> !(IsSpace(r[i]) && IsSpace(r[i + 1])))
  }

  lemma {:induction false} WovenIsCanonical(g: Gapped, c: char)
    requires Proper(g) && g.gaps[0] == "" && !IsSpace(c)
    requires forall i :: 0 <= i < |g.gaps| ==> g.gaps[i] == "" || g.gaps[i] == " " || g.gaps[i] == "\n"
    ensures Canonical(Weave(g) + [c])
    decreases |g.runes|
  {
    var n := |g.runes|;
    WeaveStarts(g, c);
    if n > 0 {
      var head := Gapped(g.gaps[..n], g.runes[..n - 1]);
      WovenIsCanonical(head, g.runes[n - 1]);
      var x := Weave(head) + [g.runes[n - 1]];
      assert Weave(g) + [c] == x + g.gaps[n] + [c];
    }
  }

  lemma NormalIsCanonical(s: string)
    ensures Canonical(Normal(s))
  {
    ParseIsProper(s);
    var g := Gapped(Clean(Parse(s).gaps), Parse(s).runes);
    var n := |g.runes|;
    if n > 0 {
      WovenIsCanonical(Gapped(g.gaps[..n], g.runes[..n - 1]), g.runes[n - 1]);
      assert Normal(s) == Weave(Gapped(g.gaps[..n], g.runes[..n - 1])) + [g.runes[n - 1]];
    }
  }

  /** A text without its white space. */
  function Visible(s: string): string {
    if s == "" then "" else Visible(s[..|s| - 1]) + if IsSpace(s[|s| - 1]) then "" else [s[|s| - 1]]
  }

  lemma {:induction false} RunesAreVisible(s: string)
    ensures Parse(s).runes == Visible(s)
  {
    if s != "" {
      RunesAreVisible(s[..|s| - 1]);
    }
  }

  /** Normalising neither adds, drops nor moves a visible character. */
  lemma VisibleIsKept(s: string)
    ensures Visible(Normal(s)) == Visible(s)
  {
    NormalPreservesRunes(s);
    RunesAreVisible(s);
    RunesAreVisible(Normal(s));
  }
}
