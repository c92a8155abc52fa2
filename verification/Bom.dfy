/** Grouping components into a bill of materials (internal/kicad/bom.go). */
module Bom {
  import opened Components
  import opened Ordering
  import opened Text

  // ---- Reference designators ----

  const MAX_INT := 0x7FFF_FFFF_FFFF_FFFF
  const MAX_UINT := 0xFFFF_FFFF_FFFF_FFFF

  predicate Digit(c: char) {
    '0' <= c <= '9'
  }

  /** `strconv.Atoi` with its error dropped, on text that starts with a digit or is empty. */
  function Atoi(s: string): int {
    if s == "" then 0 else AtoiFrom(s, 0)
  }

  /** A stray character makes the number 0, unless it overflows 64 bits first; overflow makes it the largest. */
  function AtoiFrom(s: string, n: nat): int {
    if s == "" then if n > MAX_INT then MAX_INT else n
    else if !Digit(s[0]) then 0
    else
      var next := n * 10 + (s[0] as int - '0' as int);
      if next > MAX_UINT then MAX_INT else AtoiFrom(s[1..], next)
  }

  function SplitAt(r: string): nat {
    if r == "" || Digit(r[0]) then 0 else 1 + SplitAt(r[1..])
  }

  lemma {:induction false} SplitAtWithin(r: string)
    ensures SplitAt(r) <= |r|
  {
    if r != "" {
      SplitAtWithin(r[1..]);
    }
  }

  datatype Ref = Ref(prefix: string, number: int)

  function SplitRef(r: string): Ref {
    SplitAtWithin(r);
    Ref(r[..SplitAt(r)], Atoi(r[SplitAt(r)..]))
  }

  predicate SplitLess(a: Ref, b: Ref) {
    if a.prefix != b.prefix then StringLess(a.prefix, b.prefix) else a.number < b.number
  }

  predicate RefLess(a: string, b: string) {
    SplitLess(SplitRef(a), SplitRef(b))
  }

  const REF_ORDER: (string, string) -> bool := (a, b) => RefLess(a, b)

  method SplitRefLoop(r: string) returns (prefix: string, number: int)
    ensures Ref(prefix, number) == SplitRef(r)
  {
    var i := 0;
    while i < |r| && !Digit(r[i])
      invariant 0 <= i <= |r|
      invariant SplitAt(r) == i + SplitAt(r[i..])
    {
      assert r[i..][1..] == r[i + 1..];
      i := i + 1;
    }
    return r[..i], Atoi(r[i..]);
  }

  lemma SplitLessHolds(a: Ref, b: Ref, c: Ref)
    ensures !SplitLess(a, a)
    ensures SplitLess(a, b) && SplitLess(b, c) ==> SplitLess(a, c)
    ensures SplitLess(a, c) ==> SplitLess(a, b) || SplitLess(b, c)
  {
    StringLessTotal(a.prefix, b.prefix);
    StringLessTotal(b.prefix, c.prefix);
    StringLessTotal(a.prefix, c.prefix);
    if StringLess(a.prefix, b.prefix) && StringLess(b.prefix, c.prefix) {
      StringLessTransitive(a.prefix, b.prefix, c.prefix);
    }
    if StringLess(a.prefix, c.prefix) && StringLess(b.prefix, a.prefix) {
      StringLessTransitive(b.prefix, a.prefix, c.prefix);
    }
  }

  /** Natural reference order is a strict weak order: R1 and R01 tie, everything else is told apart. */
  lemma RefOrderIsWeak()
    ensures StrictWeakOrder(REF_ORDER)
  {
    forall a, b, c
      ensures !REF_ORDER(a, a)
      ensures REF_ORDER(a, b) && REF_ORDER(b, c) ==> REF_ORDER(a, c)
      ensures REF_ORDER(a, c) ==> REF_ORDER(a, b) || REF_ORDER(b, c)
    {
      SplitLessHolds(SplitRef(a), SplitRef(b), SplitRef(c));
    }
  }

  // ---- Natural order, told from prefixes and numbers ----

  predicate NoDigit(p: string) {
    forall i :: 0 <= i < |p| ==> p[i] < '0' || '9' < p[i]
  }

  predicate AllDigits(s: string) {
    forall i :: 0 <= i < |s| ==> '0' <= s[i] <= '9'
  }

  /** The number a row of digits stands for, after n. */
  function Value(s: string, n: nat): nat
    requires AllDigits(s)
  {
    if s == "" then n else Value(s[..|s| - 1], n) * 10 + (s[|s| - 1] as int - '0' as int)
  }

  lemma {:induction false} ValueFront(s: string, n: nat)
    requires AllDigits(s) && s != ""
    ensures Value(s, n) == Value(s[1..], n * 10 + (s[0] as int - '0' as int))
  {
    var last := |s| - 1;
    if last > 0 {
      ValueFront(s[..last], n);
      assert s[..last][1..] == s[1..][..last - 1];
    }
  }

  lemma {:induction false} ValueAtLeast(s: string, n: nat)
    requires AllDigits(s)
    ensures Value(s, n) >= n
  {
    if s != "" {
      ValueAtLeast(s[..|s| - 1], n);
    }
  }

  /** The largest 64-bit integer stands for every number beyond it. */
  function Capped(n: nat): nat {
    if n > 0x7FFF_FFFF_FFFF_FFFF then 0x7FFF_FFFF_FFFF_FFFF else n
  }

  lemma {:induction false} AtoiFromReads(s: string, n: nat)
    requires AllDigits(s)
    ensures AtoiFrom(s, n) == Capped(Value(s, n))
  {
    if s != "" {
      ValueFront(s, n);
      ValueAtLeast(s[1..], n * 10 + (s[0] as int - '0' as int));
      AtoiFromReads(s[1..], n * 10 + (s[0] as int - '0' as int));
    }
  }

  /** A number that something else follows reads as 0, unless it has passed 64 bits by then. */
  lemma {:induction false} AtoiFromStray(s: string, n: nat, c: char, more: string)
    requires AllDigits(s) && (c < '0' || '9' < c) && n <= 0xFFFF_FFFF_FFFF_FFFF
    ensures AtoiFrom(s + [c] + more, n)
         == if Value(s, n) > 0xFFFF_FFFF_FFFF_FFFF then 0x7FFF_FFFF_FFFF_FFFF else 0
  {
    var t := s + [c] + more;
    if s == "" {
      assert t[0] == c;
    } else {
      var next := n * 10 + (s[0] as int - '0' as int);
      ValueFront(s, n);
      ValueAtLeast(s[1..], next);
      assert t[0] == s[0] && t[1..] == s[1..] + [c] + more;
      if next <= 0xFFFF_FFFF_FFFF_FFFF {
        AtoiFromStray(s[1..], next, c, more);
      }
    }
  }

  lemma {:induction false} DigitsRead(n: nat)
    ensures Digits(n) != "" && AllDigits(Digits(n)) && Value(Digits(n), 0) == n
  {
    if n < 10 {
      assert Digits(n)[..0] == "";
    } else {
      DigitsRead(n / 10);
      assert Digits(n)[..|Digits(n)| - 1] == Digits(n / 10);
    }
  }

  lemma {:induction false} SplitsAfter(p: string, s: string)
    requires NoDigit(p) && AllDigits(s) && s != ""
    ensures SplitAt(p + s) == |p|
  {
    if p == "" {
      assert p + s == s;
    } else {
      assert (p + s)[1..] == p[1..] + s;
      SplitsAfter(p[1..], s);
    }
  }

  /** References go by their letters first and then by their numbers, read as numbers. */
  lemma NaturalOrder(p: string, q: string, a: nat, b: nat)
    requires NoDigit(p) && NoDigit(q)
    ensures RefLess(p + Digits(a), q + Digits(b)) <==> if p != q then StringLess(p, q) else Capped(a) < Capped(b)
  {
    RefReads(p, a);
    RefReads(q, b);
  }

  lemma RefReads(p: string, n: nat)
    requires NoDigit(p)
    ensures SplitRef(p + Digits(n)) == Ref(p, Capped(n))
  {
    DigitsRead(n);
    SplitsAfter(p, Digits(n));
    AtoiFromReads(Digits(n), 0);
    assert (p + Digits(n))[..|p|] == p && (p + Digits(n))[|p|..] == Digits(n);
  }

  lemma ReferencesInOrder()
    ensures RefLess("R1", "R2") && RefLess("R2", "R10") && RefLess("C10", "R1")
  {
    DecimalExamples();
    DigitsOf(1);
    DigitsOf(2);
    NaturalOrder("R", "R", 1, 2);
    NaturalOrder("R", "R", 2, 10);
    NaturalOrder("C", "R", 10, 1);
    assert "R" + Digits(1) == "R1" && "R" + Digits(2) == "R2" && "R" + Digits(10) == "R10" && "C" + Digits(10) == "C10";
  }

  // ---- One line ----

  datatype Key = Key(value: string, footprint: string, mpn: string)

  function KeyOf(c: Component): Key {
    Key(c.value, c.footprint, c.mpn)
  }

  function LineKey(l: BOMLine): Key {
    Key(l.value, l.footprint, l.mpn)
  }

  /** The components with key k, in input order. */
  function Of(comps: seq<Component>, k: Key): seq<Component> {
    if comps == [] then []
    else
      var n := |comps| - 1;
      Of(comps[..n], k) + if KeyOf(comps[n]) == k then [comps[n]] else []
  }

  /** Their references, those that have one. */
  function Refs(cs: seq<Component>): seq<string> {
    if cs == [] then []
    else
      var n := |cs| - 1;
      Refs(cs[..n]) + if cs[n].reference != "" then [cs[n].reference] else []
  }

  function First(a: string, b: string): string {
    if a == "" then b else a
  }

  /** The line some components of one key make, refs in input order. */
  function LineFor(k: Key, cs: seq<Component>): BOMLine {
    if cs == [] then BOMLine([], 0, k.value, k.footprint, "", k.mpn, "", "", "", "")
    else
      var n := |cs| - 1;
      Tally(LineFor(k, cs[..n]), cs[n])
  }

  /** Count one more component into a line; blank details are filled in by the first component that has them. */
  function Tally(l: BOMLine, c: Component): BOMLine {
    BOMLine(
      if c.reference != "" then l.refs + [c.reference] else l.refs, l.quantity + 1,
      l.value, l.footprint, First(l.libID, c.libID), l.mpn,
      First(l.manufacturer, c.manufacturer), First(l.supplierSKU, c.supplierSKU),
      First(l.ipn, c.ipn), First(l.description, c.description))
  }

  lemma {:induction false} LineForCounts(k: Key, cs: seq<Component>)
    ensures LineKey(LineFor(k, cs)) == k
    ensures LineFor(k, cs).quantity == |cs|
    ensures LineFor(k, cs).refs == Refs(cs)
  {
    if cs != [] {
      LineForCounts(k, cs[..|cs| - 1]);
    }
  }

  /** The first detail that is not blank. */
  function FirstOf(cs: seq<Component>, pick: Component -> string): string {
    if cs == [] then "" else First(pick(cs[0]), FirstOf(cs[1..], pick))
  }

  lemma {:induction false} FirstOfAppend(cs: seq<Component>, c: Component, pick: Component -> string)
    ensures FirstOf(cs + [c], pick) == First(FirstOf(cs, pick), pick(c))
  {
    if cs == [] {
      assert ([] + [c])[1..] == [];
    } else {
      assert (cs + [c])[1..] == cs[1..] + [c];
      FirstOfAppend(cs[1..], c, pick);
    }
  }

  lemma {:induction false} LineForDetail(k: Key, cs: seq<Component>, pick: Component -> string, read: BOMLine -> string)
    requires read(LineFor(k, [])) == ""
    requires forall l, c {:trigger Tally(l, c)} :: read(Tally(l, c)) == First(read(l), pick(c))
    ensures read(LineFor(k, cs)) == FirstOf(cs, pick)
  {
    if cs != [] {
      var n := |cs| - 1;
      var before := LineFor(k, cs[..n]);
      LineForDetail(k, cs[..n], pick, read);
      FirstOfAppend(cs[..n], cs[n], pick);
      assert cs[..n] + [cs[n]] == cs;
      assert LineFor(k, cs) == Tally(before, cs[n]);
      assert read(Tally(before, cs[n])) == First(read(before), pick(cs[n]));
    }
  }

  const LIB_ID: Component -> string := (c: Component) => c.libID
  const MANUFACTURER: Component -> string := (c: Component) => c.manufacturer
  const SUPPLIER_SKU: Component -> string := (c: Component) => c.supplierSKU
  const IPN: Component -> string := (c: Component) => c.ipn
  const DESCRIPTION: Component -> string := (c: Component) => c.description

  /** A detail of a line is that of the first of its components that has one. */
  lemma LineForDetails(k: Key, cs: seq<Component>)
    ensures LineFor(k, cs).libID == FirstOf(cs, LIB_ID)
    ensures LineFor(k, cs).manufacturer == FirstOf(cs, MANUFACTURER)
    ensures LineFor(k, cs).supplierSKU == FirstOf(cs, SUPPLIER_SKU)
    ensures LineFor(k, cs).ipn == FirstOf(cs, IPN)
    ensures LineFor(k, cs).description == FirstOf(cs, DESCRIPTION)
  {
    LineForDetail(k, cs, LIB_ID, (l: BOMLine) => l.libID);
    LineForDetail(k, cs, MANUFACTURER, (l: BOMLine) => l.manufacturer);
    LineForDetail(k, cs, SUPPLIER_SKU, (l: BOMLine) => l.supplierSKU);
    LineForDetail(k, cs, IPN, (l: BOMLine) => l.ipn);
    LineForDetail(k, cs, DESCRIPTION, (l: BOMLine) => l.description);
  }

  // ---- The bill of materials ----

  /** The keys in use, each once, in order of first appearance. */
  function Keys(comps: seq<Component>): seq<Key> {
    if comps == [] then []
    else
      var n := |comps| - 1;
      var before := Keys(comps[..n]);
      if KeyOf(comps[n]) in before then before else before + [KeyOf(comps[n])]
  }

  /** A line as grouped, but for the order of its references, which is natural. */
  ghost predicate Groups(comps: seq<Component>, l: BOMLine) {
    var cs := Of(comps, LineKey(l));
    && cs != []
    && l == LineFor(LineKey(l), cs).(refs := l.refs)
    && multiset(l.refs) == multiset(Refs(cs))
    && Sorted(l.refs, REF_ORDER)
  }

  ghost predicate DistinctKeys(ls: seq<BOMLine>) {
    forall i, j :: 0 <= i < j < |ls| ==> LineKey(ls[i]) != LineKey(ls[j])
  }

  ghost predicate IsBOM(comps: seq<Component>, ls: seq<BOMLine>) {
    && DistinctKeys(ls)
    && (forall i :: 0 <= i < |ls| ==> Groups(comps, ls[i]))
    && (forall c :: c in comps ==> exists i :: 0 <= i < |ls| && LineKey(ls[i]) == KeyOf(c))
  }

  /** The source's mixed comparison: by first reference when both lines have one, by value otherwise. */
  predicate LineLess(a: BOMLine, b: BOMLine) {
    if a.refs == [] || b.refs == [] then StringLess(a.value, b.value) else RefLess(a.refs[0], b.refs[0])
  }

  const LINE_ORDER: (BOMLine, BOMLine) -> bool := (a, b) => LineLess(a, b)

  /** The lines before they are sorted: one for each key, in order of its first appearance. */
  ghost predicate Gathered(comps: seq<Component>, lines: seq<BOMLine>) {
    && |lines| == |Keys(comps)|
    && forall j :: 0 <= j < |lines| ==> LineKey(lines[j]) == Keys(comps)[j] && Groups(comps, lines[j])
  }

  /** The lines sorted as far as the comparison allows: lines it does not tell apart keep their order. */
  ghost predicate Arranged(lines: seq<BOMLine>, out: seq<BOMLine>) {
    && multiset(out) == multiset(lines)
    && (RefsFollowValues(lines) ==>
          && Sorted(out, LINE_ORDER)
          && forall l :: l in lines ==> Ties(l, out, LINE_ORDER) == Ties(l, lines, LINE_ORDER))
  }

  method GroupComponents(comps: seq<Component>) returns (out: seq<BOMLine>)
    ensures IsBOM(comps, out)
    ensures exists lines :: Gathered(comps, lines) && Arranged(lines, out)
  {
    var order, groups := GroupAll(comps);
    var lines := SortEachLine(comps, order, groups);
    LinesAreBOM(comps, lines);
    out := SortLines(lines);
    IsBOMPermutes(comps, lines, out);
    assert Gathered(comps, lines) && Arranged(lines, out);
  }

  method SortEachLine(ghost comps: seq<Component>, order: seq<Key>, groups: map<Key, BOMLine>)
      returns (lines: seq<BOMLine>)
    requires forall k :: k in order ==> k in groups && groups[k] == LineFor(k, Of(comps, k)) && Of(comps, k) != []
    ensures |lines| == |order|
    ensures forall j :: 0 <= j < |lines| ==> LineKey(lines[j]) == order[j] && Groups(comps, lines[j])
  {
    lines := [];
    for i := 0 to |order|
      invariant |lines| == i
      invariant forall j :: 0 <= j < i ==> LineKey(lines[j]) == order[j] && Groups(comps, lines[j])
    {
      assert order[i] in order;
      var line := SortedLine(comps, order[i], groups[order[i]]);
      lines := lines + [line];
    }
  }

  method SortedLine(ghost comps: seq<Component>, ghost k: Key, g: BOMLine) returns (line: BOMLine)
    requires g == LineFor(k, Of(comps, k)) && Of(comps, k) != []
    ensures LineKey(line) == k && Groups(comps, line)
  {
    LineForCounts(k, Of(comps, k));
    var refs := SortRefs(g.refs);
    line := g.(refs := refs);
  }

  lemma LinesAreBOM(comps: seq<Component>, lines: seq<BOMLine>)
    requires Gathered(comps, lines)
    ensures IsBOM(comps, lines)
  {
    KeysDistinct(comps);
    forall c | c in comps
      ensures exists i :: 0 <= i < |lines| && LineKey(lines[i]) == KeyOf(c)
    {
      KeysCover(comps, c);
      var i :| 0 <= i < |lines| && Keys(comps)[i] == KeyOf(c);
      assert LineKey(lines[i]) == KeyOf(c);
    }
  }

  /** The tallying loop: the map holds the line of each key seen so far. */
  method GroupAll(comps: seq<Component>) returns (order: seq<Key>, groups: map<Key, BOMLine>)
    ensures order == Keys(comps)
    ensures forall k :: k in order ==> k in groups && groups[k] == LineFor(k, Of(comps, k)) && Of(comps, k) != []
  {
    order, groups := [], map[];
    for i := 0 to |comps|
      invariant order == Keys(comps[..i]) && forall k :: k in groups <==> k in order
      invariant Tallied(comps[..i], groups)
    {
      var c := comps[i];
      var k := KeyOf(c);
      var g := if k in groups then groups[k] else BOMLine([], 0, c.value, c.footprint, c.libID, c.mpn,
                                                          c.manufacturer, c.supplierSKU, c.ipn, c.description);
      if k !in groups {
        order := order + [k];
      }
      g := Count(g, c);
      TalliedMore(comps[..i], c, groups, g);
      KeysMore(comps[..i], c);
      assert comps[..i + 1] == comps[..i] + [c];
      groups := groups[k := g];
    }
    assert comps[..|comps|] == comps;
  }

  method Count(g: BOMLine, c: Component) returns (r: BOMLine)
    ensures r == Tally(g, c)
  {
    var refs := if c.reference != "" then g.refs + [c.reference] else g.refs;
    r := BOMLine(refs, g.quantity + 1, g.value, g.footprint, First(g.libID, c.libID), g.mpn,
                 First(g.manufacturer, c.manufacturer), First(g.supplierSKU, c.supplierSKU),
                 First(g.ipn, c.ipn), First(g.description, c.description));
  }

  ghost predicate Tallied(comps: seq<Component>, groups: map<Key, BOMLine>) {
    && (forall k :: k in groups ==> groups[k] == LineFor(k, Of(comps, k)) && Of(comps, k) != [])
    && (forall k :: k !in groups ==> Of(comps, k) == [])
  }

  lemma TalliedMore(comps: seq<Component>, c: Component, groups: map<Key, BOMLine>, g: BOMLine)
    requires Tallied(comps, groups)
    requires g == Tally(if KeyOf(c) in groups then groups[KeyOf(c)] else LineFor(KeyOf(c), []), c)
    ensures Tallied(comps + [c], groups[KeyOf(c) := g])
  {
    var more, groups' := comps + [c], groups[KeyOf(c) := g];
    LineForMore(KeyOf(c), Of(comps, KeyOf(c)), c);
    forall k
      ensures k in groups' ==> groups'[k] == LineFor(k, Of(more, k)) && Of(more, k) != []
      ensures k !in groups' ==> Of(more, k) == []
    {
      OfMore(comps, c, k);
    }
  }

  lemma KeysMore(comps: seq<Component>, c: Component)
    ensures Keys(comps + [c]) == if KeyOf(c) in Keys(comps) then Keys(comps) else Keys(comps) + [KeyOf(c)]
  {
    assert (comps + [c])[..|comps|] == comps;
  }

  lemma OfMore(comps: seq<Component>, c: Component, k: Key)
    ensures Of(comps + [c], k) == if KeyOf(c) == k then Of(comps, k) + [c] else Of(comps, k)
  {
    assert (comps + [c])[..|comps|] == comps;
  }

  lemma LineForMore(k: Key, cs: seq<Component>, c: Component)
    ensures LineFor(k, cs + [c]) == Tally(LineFor(k, cs), c)
  {
    assert (cs + [c])[..|cs|] == cs;
  }

  /** `sort.Slice`: some sorted arrangement. */
  method SortRefs(refs: seq<string>) returns (r: seq<string>)
    ensures multiset(r) == multiset(refs) && Sorted(r, REF_ORDER)
  {
    r := StableSort(refs, REF_ORDER);
    StableSortPermutes(refs, REF_ORDER);
    RefOrderIsWeak();
    StableSortSorts(refs, REF_ORDER);
  }

  /** `sort.SliceStable`, whose result is known only where the comparison is an order on the lines. */
  method SortLines(lines: seq<BOMLine>) returns (r: seq<BOMLine>)
    ensures Arranged(lines, r)
  {
    r := StableSort(lines, LINE_ORDER);
    StableSortPermutes(lines, LINE_ORDER);
    if RefsFollowValues(lines) {
      LineOrderExactly(lines);
      StableSortOn(lines, LINE_ORDER);
    }
  }

  // ---- When the comparison of lines is an order ----

  predicate ValueAtMost(a: BOMLine, b: BOMLine) {
    !StringLess(b.value, a.value)
  }

  /** Two lines with references whose values lie on either side of the value of a line without any. */
  ghost predicate Follows(n: BOMLine, a: BOMLine, b: BOMLine) {
    n.refs == [] && a.refs != [] && b.refs != [] ==>
      && (StringLess(a.value, n.value) && ValueAtMost(n, b) ==> LineLess(a, b))
      && (ValueAtMost(a, n) && StringLess(n.value, b.value) ==> LineLess(a, b))
      && (a.value == n.value == b.value ==> !LineLess(a, b))
  }

  /** Across the value of every line without references, the order of first references follows the values. */
  ghost predicate RefsFollowValues(lines: seq<BOMLine>) {
    forall n, a, b :: n in lines && a in lines && b in lines ==> Follows(n, a, b)
  }

  lemma ValuesHold(a: string, b: string, c: string)
    ensures !StringLess(a, a)
    ensures StringLess(a, b) ==> !StringLess(b, a) && a != b
    ensures StringLess(a, b) || a == b || StringLess(b, a)
    ensures StringLess(a, b) && StringLess(b, c) ==> StringLess(a, c)
    ensures StringLess(a, c) ==> StringLess(a, b) || StringLess(b, c)
  {
    StringLessTotal(a, a);
    StringLessTotal(a, b);
    StringLessTotal(b, c);
    if StringLess(a, b) && StringLess(b, c) {
      StringLessTransitive(a, b, c);
    }
    if StringLess(a, c) && StringLess(b, a) {
      StringLessTransitive(b, a, c);
    }
  }

  /** What the comparison does on three lines, two of them with references, one without. */
  lemma ThreeLines(n: BOMLine, a: BOMLine, b: BOMLine)
    requires n.refs == [] && a.refs != [] && b.refs != []
    requires Follows(n, a, b) && Follows(n, b, a)
    ensures LineLess(a, n) && LineLess(n, b) ==> LineLess(a, b)
    ensures LineLess(n, a) && LineLess(a, b) ==> LineLess(n, b)
    ensures LineLess(a, b) && LineLess(b, n) ==> LineLess(a, n)
    ensures LineLess(a, b) ==> LineLess(a, n) || LineLess(n, b)
    ensures LineLess(n, b) ==> LineLess(n, a) || LineLess(a, b)
    ensures LineLess(a, n) ==> LineLess(a, b) || LineLess(b, n)
  {
    ValuesHold(a.value, n.value, b.value);
    ValuesHold(b.value, n.value, a.value);
    SplitLessHolds(SplitRef(a.refs[0]), SplitRef(b.refs[0]), SplitRef(a.refs[0]));
  }

  lemma LineLessHolds(a: BOMLine, b: BOMLine, c: BOMLine, lines: seq<BOMLine>)
    requires RefsFollowValues(lines) && a in lines && b in lines && c in lines
    ensures !LineLess(a, a)
    ensures LineLess(a, b) && LineLess(b, c) ==> LineLess(a, c)
    ensures LineLess(a, c) ==> LineLess(a, b) || LineLess(b, c)
  {
    ValuesHold(a.value, b.value, c.value);
    if a.refs != [] && b.refs != [] && c.refs != [] {
      SplitLessHolds(SplitRef(a.refs[0]), SplitRef(b.refs[0]), SplitRef(c.refs[0]));
    } else if a.refs != [] && b.refs != [] {
      SplitLessHolds(SplitRef(a.refs[0]), SplitRef(a.refs[0]), SplitRef(a.refs[0]));
      assert Follows(c, a, b) && Follows(c, b, a);
      ThreeLines(c, a, b);
    } else if a.refs != [] && c.refs != [] {
      SplitLessHolds(SplitRef(a.refs[0]), SplitRef(a.refs[0]), SplitRef(a.refs[0]));
      assert Follows(b, a, c) && Follows(b, c, a);
      ThreeLines(b, a, c);
    } else if b.refs != [] && c.refs != [] {
      assert Follows(a, b, c) && Follows(a, c, b);
      ThreeLines(a, b, c);
    } else if a.refs != [] {
      SplitLessHolds(SplitRef(a.refs[0]), SplitRef(a.refs[0]), SplitRef(a.refs[0]));
    }
  }

  lemma FollowsWhenOrdered(n: BOMLine, a: BOMLine, b: BOMLine, lines: seq<BOMLine>)
    requires StrictWeakOrderOn(lines, LINE_ORDER) && n in lines && a in lines && b in lines
    ensures Follows(n, a, b)
  {
    if n.refs == [] && a.refs != [] && b.refs != [] {
      ValuesHold(a.value, n.value, b.value);
      assert LINE_ORDER(a, n) ==> LINE_ORDER(a, b) || LINE_ORDER(b, n);
      assert LINE_ORDER(n, b) ==> LINE_ORDER(n, a) || LINE_ORDER(a, b);
      assert LINE_ORDER(a, b) ==> LINE_ORDER(a, n) || LINE_ORDER(n, b);
    }
  }

  /**
    The comparison the lines are sorted with is a strict weak order on them if and only if references follow
    values.
   */
  lemma LineOrderExactly(lines: seq<BOMLine>)
    ensures StrictWeakOrderOn(lines, LINE_ORDER) <==> RefsFollowValues(lines)
  {
    if RefsFollowValues(lines) {
      forall a, b, c | a in lines && b in lines && c in lines
        ensures !LINE_ORDER(a, a)
        ensures LINE_ORDER(a, b) && LINE_ORDER(b, c) ==> LINE_ORDER(a, c)
        ensures LINE_ORDER(a, c) ==> LINE_ORDER(a, b) || LINE_ORDER(b, c)
      {
        LineLessHolds(a, b, c, lines);
      }
    }
    if StrictWeakOrderOn(lines, LINE_ORDER) {
      forall n, a, b | n in lines && a in lines && b in lines
        ensures Follows(n, a, b)
      {
        FollowsWhenOrdered(n, a, b, lines);
      }
    }
  }

  /** A circle cannot be sorted. */
  lemma CircleIsNotSorted(r: seq<BOMLine>, a: BOMLine, b: BOMLine, c: BOMLine)
    requires a in r && b in r && c in r
    requires LineLess(a, b) && LineLess(b, c) && LineLess(c, a)
    ensures !Sorted(r, LINE_ORDER)
  {
    var i :| 0 <= i < |r| && r[i] == a;
    var j :| 0 <= j < |r| && r[j] == b;
    var k :| 0 <= k < |r| && r[k] == c;
    assert LINE_ORDER(a, b) && LINE_ORDER(b, c) && LINE_ORDER(c, a);
    if Sorted(r, LINE_ORDER) {
      ValuesHold(a.value, a.value, a.value);
      if a.refs != [] {
        SplitLessHolds(SplitRef(a.refs[0]), SplitRef(a.refs[0]), SplitRef(a.refs[0]));
      }
      assert false;
    }
  }

  /** Two parts in the order of their references, and one without a reference whose value lies between theirs. */
  ghost predicate Circle(x: Component, y: Component, z: Component) {
    && x.reference != "" && y.reference != "" && z.reference == ""
    && RefLess(x.reference, y.reference) && StringLess(y.value, z.value) && StringLess(z.value, x.value)
  }

  lemma PartsGathered(x: Component, y: Component, z: Component, k: Key)
    requires KeyOf(x) != KeyOf(y) && KeyOf(y) != KeyOf(z) && KeyOf(x) != KeyOf(z)
    ensures Keys([x, y, z]) == [KeyOf(x), KeyOf(y), KeyOf(z)]
    ensures Of([x, y, z], k)
         == if k == KeyOf(x) then [x] else if k == KeyOf(y) then [y] else if k == KeyOf(z) then [z] else []
  {
    TwoGathered(x, y, k);
    KeysMore([x, y], z);
    OfMore([x, y], z, k);
    assert [x, y] + [z] == [x, y, z];
  }

  lemma TwoGathered(x: Component, y: Component, k: Key)
    requires KeyOf(x) != KeyOf(y)
    ensures Keys([x, y]) == [KeyOf(x), KeyOf(y)]
    ensures Of([x, y], k) == if k == KeyOf(x) then [x] else if k == KeyOf(y) then [y] else []
  {
    assert Keys([]) == [] && Of([], k) == [];
    assert [] + [x] == [x] && [x] + [y] == [x, y];
    KeysMore([], x);
    KeysMore([x], y);
    OfMore([], x, k);
    OfMore([x], y, k);
  }

  lemma LineOfOne(comps: seq<Component>, l: BOMLine, c: Component)
    requires Groups(comps, l) && LineKey(l) == KeyOf(c) && Of(comps, KeyOf(c)) == [c]
    ensures l.refs == if c.reference == "" then [] else [c.reference]
  {
    assert [c][..0] == [];
    assert Refs([c]) == if c.reference == "" then [] else [c.reference];
    assert |l.refs| == |multiset(l.refs)| == |Refs([c])|;
    if c.reference != "" {
      assert l.refs[0] in multiset(Refs([c]));
    }
  }

  /** Such parts make lines that stand in a circle, so that no arrangement of them is sorted. */
  lemma LineOrderIsNotWeak(x: Component, y: Component, z: Component, lines: seq<BOMLine>, out: seq<BOMLine>)
    requires Circle(x, y, z) && Gathered([x, y, z], lines) && multiset(out) == multiset(lines)
    ensures !RefsFollowValues(lines) && !Sorted(out, LINE_ORDER)
  {
    ValuesHold(y.value, z.value, x.value);
    ValuesHold(x.value, y.value, z.value);
    PartsGathered(x, y, z, KeyOf(x));
    PartsGathered(x, y, z, KeyOf(y));
    PartsGathered(x, y, z, KeyOf(z));
    LineOfOne([x, y, z], lines[0], x);
    LineOfOne([x, y, z], lines[1], y);
    LineOfOne([x, y, z], lines[2], z);
    LinesInCircle(lines, out);
  }

  lemma LinesInCircle(lines: seq<BOMLine>, out: seq<BOMLine>)
    requires |lines| == 3 && multiset(out) == multiset(lines)
    requires LineLess(lines[0], lines[1]) && LineLess(lines[1], lines[2]) && LineLess(lines[2], lines[0])
    ensures !StrictWeakOrderOn(lines, LINE_ORDER) && !RefsFollowValues(lines) && !Sorted(out, LINE_ORDER)
  {
    forall l | l in lines
      ensures l in out
    {
      assert l in multiset(lines);
    }
    CircleIsNotSorted(out, lines[0], lines[1], lines[2]);
    LineOrderExactly(lines);
    assert LINE_ORDER(lines[0], lines[1]) && LINE_ORDER(lines[1], lines[2]) && LINE_ORDER(lines[2], lines[0]);
  }

  /** R1 with value b, R2 with value a, and a part without a reference and value aa. */
  lemma PartsInACircle()
    ensures Circle(Component("R1", "b", "", "", "", "", "", "", ""), Component("R2", "a", "", "", "", "", "", "", ""),
                   Component("", "aa", "", "", "", "", "", "", ""))
  {
    assert "R1"[1..] == "1" && "R2"[1..] == "2" && "1"[1..] == "" && "2"[1..] == "";
    assert SplitAt("R1") == 1 && SplitAt("R2") == 1;
    assert "R1"[..1] == "R2"[..1];
    assert "a"[1..] == "" && "aa"[1..] == "a";
  }

  lemma {:induction false} KeysDistinct(comps: seq<Component>)
    ensures forall i, j :: 0 <= i < j < |Keys(comps)| ==> Keys(comps)[i] != Keys(comps)[j]
  {
    if comps != [] {
      KeysDistinct(comps[..|comps| - 1]);
    }
  }

  lemma {:induction false} KeysCover(comps: seq<Component>, c: Component)
    requires c in comps
    ensures KeyOf(c) in Keys(comps)
  {
    var n := |comps| - 1;
    if c in comps[..n] {
      KeysCover(comps[..n], c);
    } else {
      assert c == comps[n];
    }
  }

  /** Rearranging the lines leaves a bill of materials one. */
  lemma IsBOMPermutes(comps: seq<Component>, ls: seq<BOMLine>, out: seq<BOMLine>)
    requires IsBOM(comps, ls) && multiset(out) == multiset(ls)
    ensures IsBOM(comps, out)
  {
    forall l
      ensures l in out <==> l in ls
    {
      assert l in multiset(out) <==> l in multiset(ls);
    }
    forall i, j | 0 <= i < j < |out|
      ensures LineKey(out[i]) != LineKey(out[j])
    {
      if out[i] == out[j] {
        TwiceInMultiset(out, i, j);
        OnceInMultiset(ls, out[i]);
      }
      assert out[i] in ls && out[j] in ls;
    }
    forall c | c in comps
      ensures exists i :: 0 <= i < |out| && LineKey(out[i]) == KeyOf(c)
    {
      var i :| 0 <= i < |ls| && LineKey(ls[i]) == KeyOf(c);
      assert ls[i] in out;
    }
    forall i | 0 <= i < |out|
      ensures Groups(comps, out[i])
    {
      assert out[i] in ls;
    }
  }

  lemma TwiceInMultiset<T>(s: seq<T>, i: nat, j: nat)
    requires i < j < |s| && s[i] == s[j]
    ensures multiset(s)[s[i]] >= 2
  {
    assert s == s[..j] + [s[j]] + s[j + 1..];
    assert s[i] in s[..j];
    assert multiset(s) == multiset(s[..j]) + multiset([s[j]]) + multiset(s[j + 1..]);
  }

  lemma OnceInMultiset(ls: seq<BOMLine>, l: BOMLine)
    requires DistinctKeys(ls)
    ensures multiset(ls)[l] <= 1
  {
    if l in ls {
      var i :| 0 <= i < |ls| && ls[i] == l;
      OnceAt(ls, i);
    }
  }

  lemma OnceAt<T>(s: seq<T>, i: nat)
    requires i < |s| && forall k :: 0 <= k < |s| && k != i ==> s[k] != s[i]
    ensures multiset(s)[s[i]] == 1
  {
    assert s == s[..i] + [s[i]] + s[i + 1..];
    assert s[i] !in s[..i] && s[i] !in s[i + 1..];
    assert multiset(s) == multiset(s[..i]) + multiset{s[i]} + multiset(s[i + 1..]);
  }
}
