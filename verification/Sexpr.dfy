/** The KiCad s-expression parser (internal/kicad/sexpr.go). It reads bytes: here a char stands for one. */
module Sexpr {

  type Byte = char

  type Bytes = seq<Byte>

  datatype Node = Atom(value: Bytes) | List(children: seq<Node>)

  /** What `skipSpace` skips. */
  predicate Skips(c: Byte) {
    c == ' ' || c == '\t' || c == '\r' || c == '\n'
  }

  /** What `parseAtom` stops at: Latin-1 white space as `unicode.IsSpace` has it, and brackets. */
  predicate Stops(c: Byte) {
    var u := c as int;
    9 <= u <= 13 || u == 0x20 || u == 0x85 || u == 0xA0 || c == '(' || c == ')'
  }

  /** Space to `parseAtom` but not to `skipSpace`: vertical tab, form feed, 0x85 and 0xA0. */
  predicate Stray(c: Byte) {
    Stops(c) && !Skips(c) && c != '(' && c != ')'
  }

  // ---- What the parser computes, on the input that is left ----

  function SkipSpaces(t: Bytes): (rest: Bytes)
    ensures |rest| <= |t|
    ensures rest != [] ==> !Skips(rest[0])
  {
    if t != [] && Skips(t[0]) then SkipSpaces(t[1..]) else t
  }

  datatype Token = Token(value: Bytes, rest: Bytes)

  function Unescape(c: Byte): Byte {
    if c == 'n' then '\n' else if c == 't' then '\t' else if c == 'r' then '\r' else c
  }

  /** A quoted token, from just after its opening quote; the end of input closes it too. */
  function Quoted(t: Bytes): (token: Token)
    ensures |token.rest| <= |t|
  {
    if t == [] then Token([], [])
    else if t[0] == '\\' && |t| > 1 then
      var more := Quoted(t[2..]);
      Token([Unescape(t[1])] + more.value, more.rest)
    else if t[0] == '"' then Token([], t[1..])
    else
      var more := Quoted(t[1..]);
      Token([t[0]] + more.value, more.rest)
  }

  function Bare(t: Bytes): (token: Token)
    ensures |token.value| + |token.rest| == |t|
    ensures token.rest != [] ==> Stops(token.rest[0])
  {
    if t == [] || Stops(t[0]) then Token([], t)
    else
      var more := Bare(t[1..]);
      Token([t[0]] + more.value, more.rest)
  }

  /** The children of a list, from just after its opening bracket to just past its closing one. */
  datatype Listed = Closed(children: seq<Node>, rest: Bytes) | Eof | Spins

  function Prepend(n: Node, more: Listed): Listed {
    if more.Closed? then Closed([n] + more.children, more.rest) else more
  }

  function Items(t: Bytes): (r: Listed)
    ensures r.Closed? ==> |r.rest| < |t|
    decreases |t|
  {
    var u := SkipSpaces(t);
    if u == [] then Eof
    else if u[0] == ')' then Closed([], u[1..])
    else if u[0] == '(' then
      match Items(u[1..])
      case Closed(children, rest) => Prepend(List(children), Items(rest))
      case failed => failed
    else if u[0] == '"' then
      var token := Quoted(u[1..]);
      Prepend(Atom(token.value), Items(token.rest))
    else
      var token := Bare(u);
      if token.value == [] then Spins else Prepend(Atom(token.value), Items(token.rest))
  }

  /** The source loops forever where this says Spins: each pass adds an empty atom and leaves the cursor put. */
  lemma SpinningPassChangesNothing(u: Bytes)
    requires u != [] && u[0] as int in {0x0B, 0x0C, 0x85, 0xA0}
    ensures SkipSpaces(u) == u && Bare(u) == Token([], u) && Items(u) == Spins
  {
  }

  datatype Outcome = Done(root: Node) | UnexpectedEof | Spinning | NotAList

  function Parse(data: Bytes): Outcome {
    var t := SkipSpaces(data);
    if t == [] || t[0] != '(' then NotAList
    else
      match Items(t[1..])
      case Closed(children, _) => Done(List(children))
      case Eof => UnexpectedEof
      case Spins => Spinning
  }

  // ---- The parser itself: a cursor every method advances ----

  class SexprParser {
    const s: Bytes
    var pos: nat

    ghost predicate Valid()
      reads this
    {
      pos <= |s|
    }

    ghost function Rest(): Bytes
      requires Valid()
      reads this
    {
      s[pos..]
    }

    constructor (data: Bytes)
      ensures Valid() && s == data && pos == 0
    {
      s, pos := data, 0;
    }

    method SkipSpace()
      requires Valid()
      modifies this
      ensures Valid() && Rest() == SkipSpaces(old(Rest()))
    {
      while pos < |s| && Skips(s[pos])
        invariant Valid() && SkipSpaces(Rest()) == SkipSpaces(old(Rest()))
      {
        assert Rest()[1..] == s[pos + 1..];
        pos := pos + 1;
      }
    }

    method ParseQuoted() returns (value: Bytes)
      requires Valid() && pos < |s|
      modifies this
      ensures Valid() && Token(value, Rest()) == Quoted(old(s[pos + 1..]))
    {
      pos := pos + 1;
      value := [];
      ghost var t := Rest();
      ghost var all := Quoted(t);
      while pos < |s|
        invariant Valid() && t == Rest() && all == After(value, Quoted(t))
      {
        var c := s[pos];
        if c == '\\' && pos + 1 < |s| {
          AfterAppend(value, Unescape(s[pos + 1]), Quoted(t[2..]));
          value := value + [Unescape(s[pos + 1])];
          pos := pos + 2;
          t := t[2..];
          continue;
        }
        if c == '"' {
          pos := pos + 1;
          break;
        }
        AfterAppend(value, c, Quoted(t[1..]));
        value := value + [c];
        pos := pos + 1;
        t := t[1..];
      }
    }

    method ParseAtom() returns (value: Bytes)
      requires Valid()
      modifies this
      ensures Valid() && Token(value, Rest()) == Bare(old(Rest()))
    {
      var start := pos;
      ghost var all := Bare(Rest());
      while pos < |s| && !Stops(s[pos])
        invariant start <= pos <= |s|
        invariant all == After(s[start..pos], Bare(s[pos..]))
      {
        BareStep(s, start, pos);
        pos := pos + 1;
      }
      value := s[start..pos];
      BareEnds(value, s[pos..]);
    }

    /** The list whose bracket the cursor is on. Where the source would spin, the cursor is on a stray space. */
    method ParseList() returns (r: Outcome)
      requires Valid() && pos < |s|
      modifies this
      ensures Valid() && !r.NotAList?
      ensures match Items(old(s[pos + 1..]))
              case Closed(children, rest) => r == Done(List(children)) && Rest() == rest
              case Eof => r == UnexpectedEof
              case Spins => r == Spinning && pos < |s| && Stray(s[pos])
      decreases |s| - pos
    {
      pos := pos + 1;
      var children: seq<Node> := [];
      ghost var all := Items(Rest());
      while true
        invariant Valid() && old(pos) < pos
        invariant all == PrependAll(children, Items(Rest()))
        decreases |s| - pos
      {
        ghost var left := Rest();
        SkipSpace();
        ghost var u := Rest();
        assert pos == |s| - |u| && |u| <= |left|;
        if pos >= |s| {
          return UnexpectedEof;
        }
        assert u[1..] == s[pos + 1..];
        if s[pos] == ')' {
          pos := pos + 1;
          assert all == Closed(children, Rest());
          return Done(List(children));
        }
        if s[pos] == '(' {
          var child := ParseList();
          if !child.Done? {
            return child;
          }
          PrependAllAppend(children, child.root, Items(Rest()));
          children := children + [child.root];
        } else if s[pos] == '"' {
          var value := ParseQuoted();
          PrependAllAppend(children, Atom(value), Items(Rest()));
          children := children + [Atom(value)];
        } else {
          var value := ParseAtom();
          if value == [] {
            return Spinning;
          }
          PrependAllAppend(children, Atom(value), Items(Rest()));
          children := children + [Atom(value)];
        }
      }
    }
  }

  /** `parseSexpr`. */
  method ParseSexpr(data: Bytes) returns (r: Outcome)
    ensures r == Parse(data)
  {
    var p := new SexprParser(data);
    assert p.Rest() == data;
    p.SkipSpace();
    if p.pos >= |p.s| || p.s[p.pos] != '(' {
      return NotAList;
    }
    assert p.Rest()[1..] == p.s[p.pos + 1..];
    r := p.ParseList();
  }

  ghost function After(value: Bytes, token: Token): Token {
    Token(value + token.value, token.rest)
  }

  lemma BareEnds(value: Bytes, t: Bytes)
    requires t == [] || Stops(t[0])
    ensures After(value, Bare(t)) == Token(value, t)
  {
    assert value + [] == value;
  }

  lemma BareStep(s: Bytes, start: nat, pos: nat)
    requires start <= pos < |s| && !Stops(s[pos])
    ensures After(s[start..pos], Bare(s[pos..])) == After(s[start..pos + 1], Bare(s[pos + 1..]))
  {
    assert s[pos..][1..] == s[pos + 1..];
    AfterAppend(s[start..pos], s[pos], Bare(s[pos + 1..]));
    assert s[start..pos + 1] == s[start..pos] + [s[pos]];
  }

  lemma AfterAppend(value: Bytes, c: Byte, token: Token)
    ensures After(value, Token([c] + token.value, token.rest)) == After(value + [c], token)
  {
    assert value + ([c] + token.value) == value + [c] + token.value;
  }

  ghost function PrependAll(ns: seq<Node>, more: Listed): Listed {
    if more.Closed? then Closed(ns + more.children, more.rest) else more
  }

  lemma PrependAllAppend(ns: seq<Node>, n: Node, more: Listed)
    ensures PrependAll(ns, Prepend(n, more)) == PrependAll(ns + [n], more)
  {
    if more.Closed? {
      assert ns + ([n] + more.children) == ns + [n] + more.children;
    }
  }

  // ---- Which inputs parse, which end early and which spin: one left-to-right scan tells ----

  // The scan names every byte itself and shares nothing with the parser: 0x09, 0x0A, 0x0D and 0x20 separate items,
  // 0x0B, 0x0C, 0x85 and 0xA0 end a bare atom but separate nothing.

  datatype Mode = Between | InAtom | InQuote | Escaped

  datatype Verdict = Closes(rest: Bytes) | NeverCloses | StrayFirst

  /** Track bracket depth and quoting until the list at depth 1 closes, or a stray space stands outside quotes. */
  function Scan(t: Bytes, depth: nat, mode: Mode): Verdict
    decreases |t|, if mode.InAtom? then 1 else 0
  {
    if t == [] then NeverCloses
    else
      var c, u := t[0], t[0] as int;
      match mode
      case Escaped => Scan(t[1..], depth, InQuote)
      case InQuote => Scan(t[1..], depth, if c == '\\' then Escaped else if c == '"' then Between else InQuote)
      case InAtom =>
        if 0x09 <= u <= 0x0D || u == 0x20 || u == 0x85 || u == 0xA0 || c == '(' || c == ')' then Scan(t, depth, Between)
        else Scan(t[1..], depth, InAtom)
      case Between =>
        if u == 0x0B || u == 0x0C || u == 0x85 || u == 0xA0 then StrayFirst
        else if c == ')' then if depth <= 1 then Closes(t[1..]) else Scan(t[1..], depth - 1, Between)
        else Scan(t[1..], if c == '(' then depth + 1 else depth,
                  if c == '"' then InQuote
                  else if u == 0x09 || u == 0x0A || u == 0x0D || u == 0x20 || c == '(' then Between
                  else InAtom)
  }

  /** What is left from the first byte that is not 0x09, 0x0A, 0x0D or 0x20. */
  function FromFirst(data: Bytes): Bytes {
    if data != [] && data[0] as int in {0x09, 0x0A, 0x0D, 0x20} then FromFirst(data[1..]) else data
  }

  lemma {:induction false} SkipsToFirst(data: Bytes)
    ensures SkipSpaces(data) == FromFirst(data)
  {
    if data != [] && Skips(data[0]) {
      SkipsToFirst(data[1..]);
    }
  }

  lemma {:induction false} ScanSpaces(t: Bytes, depth: nat)
    ensures Scan(t, depth, Between) == Scan(SkipSpaces(t), depth, Between)
  {
    if t != [] && Skips(t[0]) {
      ScanSpaces(t[1..], depth);
    }
  }

  lemma {:induction false} ScanQuoted(t: Bytes, depth: nat)
    ensures Scan(t, depth, InQuote) == Scan(Quoted(t).rest, depth, Between)
    decreases |t|
  {
    if t != [] {
      if t[0] == '\\' && |t| > 1 {
        assert t[1..][1..] == t[2..];
        ScanQuoted(t[2..], depth);
      } else if t[0] != '"' {
        ScanQuoted(t[1..], depth);
      }
    }
  }

  lemma {:induction false} ScanBare(t: Bytes, depth: nat)
    ensures Scan(t, depth, InAtom) == Scan(Bare(t).rest, depth, Between)
  {
    if t != [] && !Stops(t[0]) {
      ScanBare(t[1..], depth);
    }
  }

  /** The recursive descent decides as the scan does, one level of brackets at a time. */
  lemma {:induction false} ItemsAsScanned(t: Bytes, depth: nat)
    requires depth > 0
    ensures Scan(t, depth, Between)
         == match Items(t)
            case Closed(_, rest) => if depth == 1 then Closes(rest) else Scan(rest, depth - 1, Between)
            case Eof => NeverCloses
            case Spins => StrayFirst
    decreases |t|
  {
    var u := SkipSpaces(t);
    ScanSpaces(t, depth);
    if u == [] || u[0] == ')' {
    } else if u[0] == '(' {
      ItemsAsScanned(u[1..], depth + 1);
      if Items(u[1..]).Closed? {
        ItemsAsScanned(Items(u[1..]).rest, depth);
      }
    } else if u[0] == '"' {
      ScanQuoted(u[1..], depth);
      ItemsAsScanned(Quoted(u[1..]).rest, depth);
    } else if !Stray(u[0]) {
      var token := Bare(u);
      ScanBare(u[1..], depth);
      assert Bare(u).rest == Bare(u[1..]).rest;
      ItemsAsScanned(token.rest, depth);
    }
  }

  /** Exactly when a document parses, ends early, or makes the source loop forever. */
  lemma ParseExactly(data: Bytes)
    ensures var t := FromFirst(data);
            if t == [] || t[0] != '(' then Parse(data) == NotAList
            else
              && (Parse(data).Done? <==> Scan(t[1..], 1, Between).Closes?)
              && (Parse(data).UnexpectedEof? <==> Scan(t[1..], 1, Between).NeverCloses?)
              && (Parse(data).Spinning? <==> Scan(t[1..], 1, Between).StrayFirst?)
  {
    var t := SkipSpaces(data);
    SkipsToFirst(data);
    if t != [] && t[0] == '(' {
      ItemsAsScanned(t[1..], 1);
    }
  }

  /** The bytes outside quotes. A quote opens only where an item can begin, and a backslash hides the byte after it. */
  function Outside(t: Bytes, mode: Mode): Bytes
    decreases |t|
  {
    if t == [] then []
    else
      var c, u := t[0], t[0] as int;
      match mode
      case Escaped => Outside(t[1..], InQuote)
      case InQuote => Outside(t[1..], if c == '\\' then Escaped else if c == '"' then Between else InQuote)
      case _ =>
        [c] + Outside(t[1..],
                      if 0x09 <= u <= 0x0D || u == 0x20 || u == 0x85 || u == 0xA0 || c == '(' || c == ')' then Between
                      else if c == '"' && mode.Between? then InQuote
                      else InAtom)
  }

  lemma {:induction false} StrayIsOutside(t: Bytes, depth: nat, mode: Mode) returns (x: Byte)
    requires Scan(t, depth, mode) == StrayFirst
    ensures x in Outside(t, mode) && x as int in {0x0B, 0x0C, 0x85, 0xA0}
    decreases |t|, if mode.InAtom? then 1 else 0
  {
    var c, u := t[0], t[0] as int;
    match mode
    case Escaped => x := StrayIsOutside(t[1..], depth, InQuote);
    case InQuote =>
      x := StrayIsOutside(t[1..], depth, if c == '\\' then Escaped else if c == '"' then Between else InQuote);
    case InAtom =>
      if 0x09 <= u <= 0x0D || u == 0x20 || u == 0x85 || u == 0xA0 || c == '(' || c == ')' {
        x := StrayIsOutside(t, depth, Between);
        assert Outside(t, InAtom) == Outside(t, Between);
      } else {
        x := StrayIsOutside(t[1..], depth, InAtom);
      }
    case Between =>
      if u == 0x0B || u == 0x0C || u == 0x85 || u == 0xA0 {
        x := c;
      } else if c == ')' {
        x := StrayIsOutside(t[1..], depth - 1, Between);
      } else {
        x := StrayIsOutside(t[1..], if c == '(' then depth + 1 else depth,
                       if c == '"' then InQuote
                       else if u == 0x09 || u == 0x0A || u == 0x0D || u == 0x20 || c == '(' then Between
                       else InAtom);
      }
  }

  lemma {:induction false} OutsideFromFirst(data: Bytes, c: Byte)
    requires c in Outside(FromFirst(data), Between)
    ensures c in Outside(data, Between)
  {
    if data != [] && data[0] as int in {0x09, 0x0A, 0x0D, 0x20} {
      OutsideFromFirst(data[1..], c);
    }
  }

  /** The parser returns on every document that has no 0x0B, 0x0C, 0x85 or 0xA0 outside quotes. */
  lemma CleanNeverSpins(data: Bytes)
    requires forall c :: c in Outside(data, Between) ==> c as int !in {0x0B, 0x0C, 0x85, 0xA0}
    ensures Parse(data) != Spinning
  {
    ParseExactly(data);
    var t := FromFirst(data);
    if Parse(data) == Spinning {
      var c := StrayIsOutside(t[1..], 1, Between);
      OutsideFromFirst(data, c);
      assert false;
    }
  }

  /** The shortest document the source never returns from: an open bracket and a vertical tab. */
  lemma VerticalTabSpins()
    ensures Parse(['(', '\U{B}']) == Spinning
  {
    var data: Bytes := ['(', '\U{B}'];
    assert SkipSpaces(data) == data;
    SpinningPassChangesNothing(data[1..]);
  }
}
