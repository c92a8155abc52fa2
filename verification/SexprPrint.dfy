/** Printing s-expressions, in any layout, and reading them back. */
module SexprPrint {
  import opened Sexpr

  /** One character of a quoted atom, as it is or after a backslash. */
  datatype Piece = Raw(c: Byte) | Slashed(c: Byte)

  /** A laid-out tree: atoms bare or quoted, white space before each item and before a closing bracket. */
  datatype Doc =
    | Plain(lead: Bytes, value: Bytes)
    | Quote(lead: Bytes, pieces: seq<Piece>)
    | Paren(lead: Bytes, items: seq<Doc>, trail: Bytes)

  // Layouts name every byte themselves and share nothing with the parser.

  /** Spaces, tabs, carriage returns and line feeds. */
  predicate AllSkips(ws: Bytes) {
    forall i :: 0 <= i < |ws| ==> ws[i] == ' ' || ws[i] == '\t' || ws[i] == '\r' || ws[i] == '\n'
  }

  /** No bracket, no white space, and none of the four bytes that only bare atoms take for white space. */
  predicate Visible(c: Byte) {
    var u := c as int;
    c != '(' && c != ')' && u != 0x20 && (u < 0x09 || u > 0x0D) && u != 0x85 && u != 0xA0
  }

  /** A bare atom is not empty, holds nothing that would end it and does not look quoted. */
  predicate Barable(value: Bytes) {
    value != [] && value[0] != '"' && forall i :: 0 <= i < |value| ==> Visible(value[i])
  }

  /** Only quotes and backslashes have to be escaped; anything may be. */
  predicate ProperPieces(ps: seq<Piece>) {
    forall i :: 0 <= i < |ps| && ps[i].Raw? ==> ps[i].c != '"' && ps[i].c != '\\'
  }

  predicate Proper(d: Doc) {
    && AllSkips(d.lead)
    && match d
       case Plain(_, value) => Barable(value)
       case Quote(_, pieces) => ProperPieces(pieces)
       case Paren(_, items, trail) => AllSkips(trail) && ProperAll(items)
  }

  /** After a bare atom comes white space or a bracket: nothing else would end it. */
  predicate ProperAll(ds: seq<Doc>) {
    ds != [] ==>
      && Proper(ds[0]) && ProperAll(ds[1..])
      && (ds[0].Plain? && |ds| > 1 ==> ds[1].lead != [] || ds[1].Paren?)
  }

  function Strip(d: Doc): Node {
    match d
    case Plain(_, value) => Atom(value)
    case Quote(_, pieces) => Atom(Meant(pieces))
    case Paren(_, items, _) => List(StripAll(items))
  }

  function StripAll(ds: seq<Doc>): seq<Node> {
    if ds == [] then [] else [Strip(ds[0])] + StripAll(ds[1..])
  }

  /** What the pieces of a quoted atom stand for. */
  function Meant(ps: seq<Piece>): Bytes {
    if ps == [] then []
    else [if ps[0].Raw? then ps[0].c else Control(ps[0].c)] + Meant(ps[1..])
  }

  /** After a backslash n, t and r stand for bytes 10, 9 and 13, anything else for itself. */
  function Control(c: Byte): Byte {
    match c
    case 'n' => 10 as char
    case 't' => 9 as char
    case 'r' => 13 as char
    case _ => c
  }

  function ShowPiece(p: Piece): Bytes {
    match p
    case Raw(c) => [c]
    case Slashed(c) => ['\\', c]
  }

  function ShowPieces(ps: seq<Piece>): Bytes {
    if ps == [] then [] else ShowPiece(ps[0]) + ShowPieces(ps[1..])
  }

  function Show(d: Doc): Bytes {
    match d
    case Plain(lead, value) => lead + value
    case Quote(lead, pieces) => lead + ['"'] + ShowPieces(pieces) + ['"']
    case Paren(lead, items, trail) => lead + ['('] + ShowAll(items) + trail + [')']
  }

  function ShowAll(ds: seq<Doc>): Bytes {
    if ds == [] then [] else Show(ds[0]) + ShowAll(ds[1..])
  }

  lemma {:induction false} SkipsLead(ws: Bytes, t: Bytes)
    requires AllSkips(ws) && (t != [] ==> !Skips(t[0]))
    ensures SkipSpaces(ws + t) == t
  {
    if ws == [] {
      assert ws + t == t;
    } else {
      assert (ws + t)[1..] == ws[1..] + t;
      SkipsLead(ws[1..], t);
    }
  }

  lemma {:induction false} BareReads(value: Bytes, t: Bytes)
    requires forall i :: 0 <= i < |value| ==> !Stops(value[i])
    requires t != [] ==> Stops(t[0])
    ensures Bare(value + t) == Token(value, t)
  {
    if value == [] {
      assert value + t == t;
    } else {
      assert (value + t)[1..] == value[1..] + t;
      BareReads(value[1..], t);
    }
  }

  lemma {:induction false} QuotedReads(ps: seq<Piece>, t: Bytes)
    requires ProperPieces(ps)
    ensures Quoted(ShowPieces(ps) + ['"'] + t) == Token(Meant(ps), t)
  {
    if ps == [] {
      assert ([] + ['"'] + t)[1..] == t;
    } else {
      QuotedReads(ps[1..], t);
      QuotedStep(ps[0], ShowPieces(ps[1..]) + ['"'] + t);
      QuoteAside(ShowPiece(ps[0]), ShowPieces(ps[1..]), ['"'], t);
    }
  }

  lemma QuotedStep(p: Piece, more: Bytes)
    requires p.Raw? ==> p.c != '"' && p.c != '\\'
    ensures Quoted(ShowPiece(p) + more)
         == Token([if p.Raw? then p.c else Control(p.c)] + Quoted(more).value, Quoted(more).rest)
  {
    assert (ShowPiece(p) + more)[|ShowPiece(p)|..] == more;
  }

  lemma QuoteAside(a: Bytes, b: Bytes, c: Bytes, d: Bytes)
    ensures a + b + c + d == a + (b + c + d)
  {
  }

  /** The rest of a list after one item: never the middle of a bare atom. */
  predicate EndsAtom(t: Bytes) {
    t != [] && Stops(t[0])
  }

  lemma TailEndsAtom(ds: seq<Doc>, trail: Bytes, t: Bytes)
    requires ProperAll(ds) && AllSkips(trail)
    requires ds != [] ==> ds[0].lead != [] || ds[0].Paren?
    ensures EndsAtom(ShowAll(ds) + trail + [')'] + t)
  {
    var tail := ShowAll(ds) + trail + [')'] + t;
    if ds != [] {
      assert Show(ds[0]) != [] && tail[0] == Show(ds[0])[0];
    } else {
      assert tail[0] == (trail + [')'])[0];
    }
  }

  lemma PlainRead(lead: Bytes, value: Bytes, tail: Bytes)
    requires AllSkips(lead) && Barable(value) && EndsAtom(tail)
    ensures Items(lead + value + tail) == Prepend(Atom(value), Items(tail))
  {
    assert lead + value + tail == lead + (value + tail);
    SkipsLead(lead, value + tail);
    BareReads(value, tail);
  }

  lemma QuoteRead(lead: Bytes, pieces: seq<Piece>, tail: Bytes)
    requires AllSkips(lead) && ProperPieces(pieces)
    ensures Items(Show(Quote(lead, pieces)) + tail) == Prepend(Atom(Meant(pieces)), Items(tail))
  {
    var quoted := ShowPieces(pieces) + ['"'] + tail;
    assert Show(Quote(lead, pieces)) + tail == lead + (['"'] + quoted);
    SkipsLead(lead, ['"'] + quoted);
    assert (['"'] + quoted)[1..] == quoted;
    QuotedReads(pieces, tail);
  }

  lemma ParenRead(lead: Bytes, inner: Bytes, children: seq<Node>, tail: Bytes)
    requires AllSkips(lead) && Items(inner) == Closed(children, tail)
    ensures Items(lead + (['('] + inner)) == Prepend(List(children), Items(tail))
  {
    SkipsLead(lead, ['('] + inner);
    assert (['('] + inner)[1..] == inner;
  }

  lemma CloseRead(trail: Bytes, t: Bytes)
    requires AllSkips(trail)
    ensures Items(trail + [')'] + t) == Closed([], t)
  {
    assert trail + [')'] + t == trail + ([')'] + t);
    SkipsLead(trail, [')'] + t);
    assert ([')'] + t)[1..] == t;
  }

  lemma Regroup(a: Bytes, b: Bytes, c: Bytes, d: Bytes, e: Bytes)
    ensures a + b + c + d + e == a + (b + c + d + e)
  {
  }

  lemma RegroupParen(lead: Bytes, items: Bytes, trail: Bytes, tail: Bytes)
    ensures lead + ['('] + items + trail + [')'] + tail == lead + (['('] + (items + trail + [')'] + tail))
  {
  }

  /** Reading back the items of a list, its closing bracket and nothing after it. */
  lemma {:induction false} ItemsRead(ds: seq<Doc>, trail: Bytes, t: Bytes)
    requires ProperAll(ds) && AllSkips(trail)
    ensures Items(ShowAll(ds) + trail + [')'] + t) == Closed(StripAll(ds), t)
    decreases ds
  {
    if ds == [] {
      CloseRead(trail, t);
      assert ShowAll(ds) + trail == trail;
    } else {
      var d, tail := ds[0], ShowAll(ds[1..]) + trail + [')'] + t;
      ItemsRead(ds[1..], trail, t);
      Regroup(Show(d), ShowAll(ds[1..]), trail, [')'], t);
      match d
      case Plain(lead, value) =>
        TailEndsAtom(ds[1..], trail, t);
        PlainRead(lead, value, tail);
      case Quote(lead, pieces) =>
        QuoteRead(lead, pieces, tail);
      case Paren(lead, items, trail') =>
        var inner := ShowAll(items) + trail' + [')'] + tail;
        RegroupParen(lead, ShowAll(items), trail', tail);
        ItemsRead(items, trail', tail);
        ParenRead(lead, inner, StripAll(items), tail);
    }
  }

  /** Every layout of a tree reads back as that tree, and the cursor stops just past its closing bracket. */
  lemma LayoutRoundTrip(d: Doc, t: Bytes)
    requires Proper(d) && d.Paren?
    ensures Parse(Show(d) + t) == Done(Strip(d))
    ensures Items(SkipSpaces(Show(d) + t)[1..]) == Closed(StripAll(d.items), t)
  {
    var inner := ShowAll(d.items) + d.trail + [')'] + t;
    RegroupParen(d.lead, ShowAll(d.items), d.trail, t);
    SkipsLead(d.lead, ['('] + inner);
    assert (['('] + inner)[1..] == inner;
    ItemsRead(d.items, d.trail, t);
  }

  // ---- Nothing else is read ----

  lemma OneMoreByte(c: Byte, a: Bytes, b: Bytes)
    ensures [c] + (a + b) == [c] + a + b
  {
  }

  lemma {:induction false} LeadOf(t: Bytes) returns (lead: Bytes)
    ensures AllSkips(lead) && t == lead + SkipSpaces(t)
  {
    if t != [] && Skips(t[0]) {
      var more := LeadOf(t[1..]);
      lead := [t[0]] + more;
      assert t == [t[0]] + t[1..];
      OneMoreByte(t[0], more, SkipSpaces(t[1..]));
    } else {
      lead := [];
    }
  }

  /** A quoted token that the end of input did not cut off is made of pieces. */
  lemma {:induction false} PiecesOf(t: Bytes) returns (ps: seq<Piece>)
    requires Quoted(t).rest != []
    ensures ProperPieces(ps) && Meant(ps) == Quoted(t).value
    ensures t == ShowPieces(ps) + ['"'] + Quoted(t).rest
    decreases |t|
  {
    if t[0] == '"' {
      ps := [];
      assert t == ['"'] + t[1..];
    } else {
      var p := if t[0] == '\\' then Slashed(t[1]) else Raw(t[0]);
      var more := PiecesOf(t[|ShowPiece(p)|..]);
      ps := [p] + more;
      assert ps[1..] == more;
      assert t == ShowPiece(p) + t[|ShowPiece(p)|..];
      QuoteAside(ShowPiece(p), ShowPieces(more), ['"'], Quoted(t).rest);
    }
  }

  lemma {:induction false} BareOf(t: Bytes)
    ensures t == Bare(t).value + Bare(t).rest
  {
    if t != [] && !Stops(t[0]) {
      BareOf(t[1..]);
      assert t == [t[0]] + t[1..];
      OneMoreByte(t[0], Bare(t[1..]).value, Bare(t[1..]).rest);
    }
  }

  lemma {:induction false} BareHasNoStop(t: Bytes)
    ensures forall i :: 0 <= i < |Bare(t).value| ==> !Stops(Bare(t).value[i])
  {
    if t != [] && !Stops(t[0]) {
      BareHasNoStop(t[1..]);
      assert Bare(t).value[1..] == Bare(t[1..]).value;
    }
  }

  /** What a list's items and closing bracket look like when they are read. */
  ghost predicate ListLaidOut(t: Bytes, children: seq<Node>, rest: Bytes, ds: seq<Doc>, trail: Bytes) {
    && ProperAll(ds) && AllSkips(trail) && StripAll(ds) == children
    && t == ShowAll(ds) + trail + [')'] + rest
  }

  lemma OneMoreLaidOut(t: Bytes, d: Doc, tail: Bytes, children: seq<Node>, rest: Bytes, ds: seq<Doc>, trail: Bytes)
    requires Proper(d) && t == Show(d) + tail && ListLaidOut(tail, children, rest, ds, trail)
    requires d.Plain? && ds != [] ==> ds[0].lead != [] || ds[0].Paren?
    ensures ListLaidOut(t, [Strip(d)] + children, rest, [d] + ds, trail)
  {
    assert ([d] + ds)[1..] == ds;
    Regroup(Show(d), ShowAll(ds), trail, [')'], rest);
  }

  lemma FirstShown(d: Doc)
    requires Proper(d) && d.lead == [] && !d.Paren?
    ensures Show(d) != [] && !Stops(Show(d)[0])
  {
    match d
    case Plain(lead, value) =>
      assert (lead + value)[0] == value[0];
    case Quote(lead, pieces) =>
      assert (lead + ['"'] + ShowPieces(pieces) + ['"'])[0] == '"';
  }

  /** What follows a bare atom, when it is laid out, starts with white space or a bracket. */
  lemma AfterBare(tail: Bytes, children: seq<Node>, rest: Bytes, ds: seq<Doc>, trail: Bytes)
    requires ListLaidOut(tail, children, rest, ds, trail) && ds != [] && tail != [] && Stops(tail[0])
    ensures ds[0].lead != [] || ds[0].Paren?
  {
    if ds[0].lead == [] && !ds[0].Paren? {
      FirstShown(ds[0]);
    }
  }

  lemma {:induction false} ItemsLaidOut(t: Bytes) returns (ds: seq<Doc>, trail: Bytes)
    requires Items(t).Closed?
    ensures ListLaidOut(t, Items(t).children, Items(t).rest, ds, trail)
    decreases |t|, 1
  {
    var u := SkipSpaces(t);
    var lead := LeadOf(t);
    if u[0] == ')' {
      ds, trail := [], lead;
      assert t == ShowAll([]) + lead + [')'] + u[1..];
    } else {
      var d, tail := ItemLaidOut(t, lead, u);
      var more;
      more, trail := ItemsLaidOut(tail);
      if d.Plain? && more != [] {
        AfterBare(tail, Items(tail).children, Items(tail).rest, more, trail);
      }
      OneMoreLaidOut(t, d, tail, Items(tail).children, Items(tail).rest, more, trail);
      ds := [d] + more;
    }
  }

  /** One item, laid out in front of the rest of its list. */
  ghost predicate FirstLaidOut(t: Bytes, d: Doc, tail: Bytes) {
    && Proper(d) && t == Show(d) + tail && |tail| < |t|
    && Items(t) == Prepend(Strip(d), Items(tail))
    && (d.Plain? && tail != [] ==> Stops(tail[0]))
  }

  lemma {:induction false} ItemLaidOut(t: Bytes, lead: Bytes, u: Bytes) returns (d: Doc, tail: Bytes)
    requires u == SkipSpaces(t) && u != [] && u[0] != ')' && AllSkips(lead) && t == lead + u && Items(t).Closed?
    ensures FirstLaidOut(t, d, tail)
    decreases |t|, 0
  {
    if u[0] == '(' {
      var ds, trail := ItemsLaidOut(u[1..]);
      d, tail := Paren(lead, ds, trail), Items(u[1..]).rest;
      ParenLaidOut(t, lead, u, ds, trail, tail);
    } else if u[0] == '"' {
      d, tail := QuoteLaidOut(t, lead, u);
    } else {
      d, tail := BareLaidOut(t, lead, u);
    }
  }

  lemma ParenLaidOut(t: Bytes, lead: Bytes, u: Bytes, ds: seq<Doc>, trail: Bytes, tail: Bytes)
    requires u == SkipSpaces(t) && u != [] && u[0] == '(' && AllSkips(lead) && t == lead + u
    requires Items(u[1..]).Closed? && ListLaidOut(u[1..], Items(u[1..]).children, tail, ds, trail)
    requires tail == Items(u[1..]).rest
    ensures FirstLaidOut(t, Paren(lead, ds, trail), tail)
  {
    RegroupParen(lead, ShowAll(ds), trail, tail);
    assert u == ['('] + u[1..];
  }

  lemma QuoteLaidOut(t: Bytes, lead: Bytes, u: Bytes) returns (d: Doc, tail: Bytes)
    requires u == SkipSpaces(t) && u != [] && u[0] == '"' && AllSkips(lead) && t == lead + u && Items(t).Closed?
    ensures FirstLaidOut(t, d, tail)
  {
    var pieces := PiecesOf(u[1..]);
    d, tail := Quote(lead, pieces), Quoted(u[1..]).rest;
    assert u == ['"'] + u[1..];
    RegroupQuote(lead, ShowPieces(pieces), tail);
  }

  lemma RegroupQuote(lead: Bytes, shown: Bytes, tail: Bytes)
    ensures lead + (['"'] + (shown + ['"'] + tail)) == lead + ['"'] + shown + ['"'] + tail
  {
  }

  lemma BareLaidOut(t: Bytes, lead: Bytes, u: Bytes) returns (d: Doc, tail: Bytes)
    requires u == SkipSpaces(t) && u != [] && u[0] != '(' && u[0] != ')' && u[0] != '"'
    requires AllSkips(lead) && t == lead + u && Items(t).Closed?
    ensures FirstLaidOut(t, d, tail)
  {
    BareOf(u);
    BareHasNoStop(u);
    d, tail := Plain(lead, Bare(u).value), Bare(u).rest;
    assert lead + (Bare(u).value + tail) == Show(d) + tail;
  }

  ghost predicate Lays(d: Doc, n: Node, data: Bytes, rest: Bytes) {
    Proper(d) && d.Paren? && Strip(d) == n && data == Show(d) + rest
  }

  /** A document parses to a tree if and only if it is some layout of that tree, followed by anything. */
  lemma LayoutExactly(data: Bytes, n: Node)
    ensures Parse(data) == Done(n) <==> exists d, rest :: Lays(d, n, data, rest)
  {
    if exists d, rest :: Lays(d, n, data, rest) {
      var d, rest :| Lays(d, n, data, rest);
      LayoutRoundTrip(d, rest);
    }
    if Parse(data) == Done(n) {
      var t := SkipSpaces(data);
      var lead := LeadOf(data);
      var ds, trail := ItemsLaidOut(t[1..]);
      var rest := Items(t[1..]).rest;
      RegroupParen(lead, ShowAll(ds), trail, rest);
      assert t == ['('] + t[1..];
      assert Lays(Paren(lead, ds, trail), n, data, rest);
    }
  }

  /** What the three control escapes and any others read as. */
  lemma EscapesRead(c: Byte, t: Bytes)
    ensures Parse(['(', '"', '\\', c, '"', ')'] + t)
         == Done(List([Atom([if c == 'n' then 10 as char else if c == 't' then 9 as char
                             else if c == 'r' then 13 as char else c])]))
  {
    var q := Quote([], [Slashed(c)]);
    var d := Paren([], [q], []);
    ShowSlashed(c);
    assert [q][1..] == [];
    assert ShowAll([q]) == Show(q);
    assert Show(d) == ['(', '"', '\\', c, '"', ')'];
    assert StripAll([q]) == [Strip(q)];
    assert Proper(q) && ProperAll([q]);
    LayoutRoundTrip(d, t);
  }

  lemma ShowSlashed(c: Byte)
    ensures Show(Quote([], [Slashed(c)])) == ['"', '\\', c, '"']
    ensures Meant([Slashed(c)]) == [Control(c)]
  {
    assert [Slashed(c)][1..] == [];
    assert ShowPieces([Slashed(c)]) == ['\\', c];
  }

  // ---- The canonical layout: every atom quoted, nothing escaped needlessly, no white space ----

  function Canon(n: Node): Doc {
    match n
    case Atom(value) => Quote([], CanonPieces(value))
    case List(children) => Paren([], CanonAll(children), [])
  }

  /** Quotes and backslashes escaped, and nothing else. */
  function CanonPieces(value: Bytes): seq<Piece> {
    if value == [] then []
    else
      var p := if value[0] == '"' || value[0] == '\\' then Slashed(value[0]) else Raw(value[0]);
      [p] + CanonPieces(value[1..])
  }

  lemma {:induction false} CanonPiecesMean(value: Bytes)
    ensures ProperPieces(CanonPieces(value)) && Meant(CanonPieces(value)) == value
  {
    if value != [] {
      CanonPiecesMean(value[1..]);
      assert CanonPieces(value)[1..] == CanonPieces(value[1..]);
    }
  }

  function CanonAll(ns: seq<Node>): seq<Doc> {
    if ns == [] then [] else [Canon(ns[0])] + CanonAll(ns[1..])
  }

  function Print(n: Node): Bytes {
    Show(Canon(n))
  }

  lemma {:induction false} CanonIsProper(n: Node)
    ensures Proper(Canon(n)) && Strip(Canon(n)) == n
    decreases n, 1
  {
    match n
    case Atom(value) => CanonPiecesMean(value);
    case List(children) => CanonAllIsProper(children);
  }

  lemma {:induction false} CanonAllIsProper(ns: seq<Node>)
    ensures ProperAll(CanonAll(ns)) && StripAll(CanonAll(ns)) == ns
    decreases ns, 0
  {
    if ns != [] {
      CanonIsProper(ns[0]);
      CanonAllIsProper(ns[1..]);
      assert CanonAll(ns)[1..] == CanonAll(ns[1..]);
    }
  }

  /** Printing and parsing give back any tree with a list at its root, whatever bytes its atoms hold. */
  lemma PrintRoundTrip(n: Node, t: Bytes)
    requires n.List?
    ensures Parse(Print(n) + t) == Done(n)
  {
    CanonIsProper(n);
    LayoutRoundTrip(Canon(n), t);
  }
}
