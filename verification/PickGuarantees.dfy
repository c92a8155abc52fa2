/** What a pick list promises: optimal, conserving, in walking order, and right about what can be built. */
module PickGuarantees {
  import opened Ordering
  import opened Wrappers
  import opened PickList

  ghost predicate InStock(lots: seq<Lot>) {
    forall i :: 0 <= i < |lots| ==> lots[i].quantity >= 0.0
  }

  // ---- One part ----

  function Stock(lots: seq<Lot>): real {
    if lots == [] then 0.0 else lots[0].quantity + Stock(lots[1..])
  }

  lemma {:induction false} StockAppend(a: seq<Lot>, b: seq<Lot>)
    ensures Stock(a + b) == Stock(a) + Stock(b)
  {
    if a == [] {
      assert a + b == b;
    } else {
      assert (a + b)[1..] == a[1..] + b;
      StockAppend(a[1..], b);
    }
  }

  lemma {:induction false} StockIsAvailable(lots: seq<Lot>, p: Id)
    ensures Stock(LotsOf(lots, p)) == Available(lots, p)
    ensures InStock(lots) ==> InStock(LotsOf(lots, p))
  {
    if lots != [] {
      var n := |lots| - 1;
      StockIsAvailable(lots[..n], p);
      StockAppend(LotsOf(lots[..n], p), if lots[n].partID == p then [lots[n]] else []);
    }
  }

  lemma {:induction false} StockNotNegative(lots: seq<Lot>)
    requires InStock(lots)
    ensures Stock(lots) >= 0.0
  {
    if lots != [] {
      StockNotNegative(lots[1..]);
    }
  }

  /** Entries j pulls from lot j, never more than it holds, and empties it unless it is the last one. */
  ghost predicate Drains(entries: seq<Entry>, lots: seq<Lot>, p: Id) {
    && |entries| <= |lots|
    && forall j :: 0 <= j < |entries| ==>
         && entries[j] == EntryOf(lots[j], p, entries[j].quantity)
         && 0.0 <= entries[j].quantity <= lots[j].quantity
         && (j < |entries| - 1 ==> entries[j].quantity == lots[j].quantity)
  }

  /** The pulls total what is needed or all there is, from a bin-order prefix of the lots. */
  lemma {:induction false} PickIsOptimal(lots: seq<Lot>, p: Id, need: real)
    requires need >= 0.0 && InStock(lots)
    ensures Units(PickLots(lots, p, need)) == Least(need, Stock(lots))
    ensures Drains(PickLots(lots, p, need), lots, p)
  {
    if lots == [] || need <= 0.0 {
      StockNotNegative(lots);
    } else {
      var pull := Least(need, lots[0].quantity);
      var rest := PickLots(lots[1..], p, need - pull);
      StockNotNegative(lots[1..]);
      PickIsOptimal(lots[1..], p, need - pull);
      assert PickLots(lots, p, need)[1..] == rest;
      assert rest != [] ==> pull == lots[0].quantity;
      forall j | 0 < j < |rest| + 1
        ensures PickLots(lots, p, need)[j] == rest[j - 1] && lots[j] == lots[1..][j - 1]
      {
      }
    }
  }

  // ---- Every part ----

  /** What the entries pull of part p. */
  function PulledOf(entries: seq<Entry>, p: Id): real {
    if entries == [] then 0.0
    else (if entries[0].partID == p then entries[0].quantity else 0.0) + PulledOf(entries[1..], p)
  }

  lemma {:induction false} PulledOfAppend(a: seq<Entry>, b: seq<Entry>, p: Id)
    ensures PulledOf(a + b, p) == PulledOf(a, p) + PulledOf(b, p)
  {
    if a == [] {
      assert a + b == b;
    } else {
      assert (a + b)[1..] == a[1..] + b;
      PulledOfAppend(a[1..], b, p);
    }
  }

  lemma {:induction false} PulledOfPart(lots: seq<Lot>, q: Id, need: real, p: Id)
    ensures PulledOf(PickLots(lots, q, need), p) == if p == q then Units(PickLots(lots, q, need)) else 0.0
  {
    if lots != [] && need > 0.0 {
      var pull := Least(need, lots[0].quantity);
      PulledOfPart(lots[1..], q, need - pull, p);
      assert PickLots(lots, q, need)[1..] == PickLots(lots[1..], q, need - pull);
    }
  }

  ghost predicate Distinct(ps: seq<Id>) {
    forall i, j :: 0 <= i < j < |ps| ==> ps[i] != ps[j]
  }

  lemma {:induction false} PartsDistinct(lines: seq<Line>)
    ensures Distinct(Parts(lines))
  {
    if lines != [] {
      PartsDistinct(lines[..|lines| - 1]);
    }
  }

  lemma {:induction false} PulledOfAll(lines: seq<Line>, n: int, lots: seq<Lot>, parts: seq<Id>, p: Id)
    requires Distinct(parts)
    ensures PulledOf(PickAll(lines, n, lots, parts), p)
         == if p in parts then Units(PickPart(lots, p, Required(lines, n, p) as real)) else 0.0
  {
    if parts != [] {
      var m := |parts| - 1;
      PulledOfAll(lines, n, lots, parts[..m], p);
      PulledOfPart(LotsOf(lots, parts[m]), parts[m], Required(lines, n, parts[m]) as real, p);
      PulledOfAppend(PickAll(lines, n, lots, parts[..m]), PickPart(lots, parts[m],
                                    Required(lines, n, parts[m]) as real), p);
    }
  }

  lemma {:induction false} InsertUnits(x: Entry, s: seq<Entry>, p: Id)
    ensures Units(Insert(x, s, WALK_ORDER)) == x.quantity + Units(s)
    ensures PulledOf(Insert(x, s, WALK_ORDER), p) == (if x.partID == p then x.quantity else 0.0) + PulledOf(s, p)
  {
    assert ([x] + s)[1..] == s;
    if s != [] && WALK_ORDER(s[0], x) {
      InsertUnits(x, s[1..], p);
      assert Insert(x, s, WALK_ORDER)[1..] == Insert(x, s[1..], WALK_ORDER);
    }
  }

  /** Sorting moves no units. */
  lemma {:induction false} SortKeepsUnits(s: seq<Entry>, p: Id)
    ensures Units(StableSort(s, WALK_ORDER)) == Units(s)
    ensures PulledOf(StableSort(s, WALK_ORDER), p) == PulledOf(s, p)
  {
    if s != [] {
      SortKeepsUnits(s[1..], p);
      InsertUnits(s[0], StableSort(s[1..], WALK_ORDER), p);
    }
  }

  ghost predicate Sane(board: Board, lots: seq<Lot>) {
    InStock(lots) && forall i :: 0 <= i < |board.lines| ==> board.lines[i].quantity >= 0
  }

  lemma {:induction false} RequiredNotNegative(lines: seq<Line>, n: int, p: Id)
    requires n >= 0 && forall i :: 0 <= i < |lines| ==> lines[i].quantity >= 0
    ensures Required(lines, n, p) >= 0
  {
    if lines != [] {
      RequiredNotNegative(lines[..|lines| - 1], n, p);
      assert lines[|lines| - 1].quantity * n >= 0;
    }
  }

  function Builds(board: Board, qty: int): int {
    AtLeastOne(board.copies) * AtLeastOne(qty)
  }

  lemma BuildsPositive(board: Board, qty: int)
    ensures Builds(board, qty) >= 1
  {
  }

  /** The list pulls, of every part, exactly what is required or all there is, and of nothing else. */
  lemma PullsAreOptimal(board: Board, qty: int, lots: seq<Lot>, p: Id)
    requires Sane(board, lots)
    ensures PulledOf(PicksFor(board, qty, lots).entries, p)
         == if p in Parts(board.lines) then
              Least(Required(board.lines, Builds(board, qty), p) as real, Available(lots, p))
            else 0.0
  {
    var n, parts := Builds(board, qty), Parts(board.lines);
    BuildsPositive(board, qty);
    RequiredNotNegative(board.lines, n, p);
    PartsDistinct(board.lines);
    StockIsAvailable(lots, p);
    PickIsOptimal(LotsOf(lots, p), p, Required(board.lines, n, p) as real);
    PulledOfAll(board.lines, n, lots, parts, p);
    SortKeepsUnits(PickAll(board.lines, n, lots, parts), p);
  }

  // ---- No lot twice ----

  ghost predicate DistinctLots(lots: seq<Lot>) {
    forall i, j :: 0 <= i < j < |lots| ==> lots[i].id != lots[j].id
  }

  /** How many entries pull from a lot. */
  function PullsFrom(entries: seq<Entry>, lot: Id): nat {
    if entries == [] then 0 else (if entries[0].stockItemID == lot then 1 else 0) + PullsFrom(entries[1..], lot)
  }

  function Held(lots: seq<Lot>, lot: Id): nat {
    if lots == [] then 0 else (if lots[0].id == lot then 1 else 0) + Held(lots[1..], lot)
  }

  lemma {:induction false} HeldAppend(a: seq<Lot>, b: seq<Lot>, lot: Id)
    ensures Held(a + b, lot) == Held(a, lot) + Held(b, lot)
  {
    if a == [] {
      assert a + b == b;
    } else {
      assert (a + b)[1..] == a[1..] + b;
      HeldAppend(a[1..], b, lot);
    }
  }

  lemma {:induction false} HeldOnce(lots: seq<Lot>, lot: Id)
    requires DistinctLots(lots)
    ensures Held(lots, lot) <= 1
    ensures Held(lots, lot) == 0 <==> forall i :: 0 <= i < |lots| ==> lots[i].id != lot
  {
    if lots != [] {
      HeldOnce(lots[1..], lot);
      assert forall i :: 0 < i < |lots| ==> lots[i] == lots[1..][i - 1];
    }
  }

  lemma {:induction false} PullsFromAppend(a: seq<Entry>, b: seq<Entry>, lot: Id)
    ensures PullsFrom(a + b, lot) == PullsFrom(a, lot) + PullsFrom(b, lot)
  {
    if a == [] {
      assert a + b == b;
    } else {
      assert (a + b)[1..] == a[1..] + b;
      PullsFromAppend(a[1..], b, lot);
    }
  }

  lemma {:induction false} PullsFromPart(lots: seq<Lot>, p: Id, need: real, lot: Id)
    ensures PullsFrom(PickLots(lots, p, need), lot) <= Held(lots, lot)
  {
    if lots != [] && need > 0.0 {
      var pull := Least(need, lots[0].quantity);
      PullsFromPart(lots[1..], p, need - pull, lot);
      assert PickLots(lots, p, need)[1..] == PickLots(lots[1..], p, need - pull);
    }
  }

  /** The lots of the parts in a list, part by part. */
  function LotsOfAll(lots: seq<Lot>, parts: seq<Id>): seq<Lot> {
    if parts == [] then [] else LotsOfAll(lots, parts[..|parts| - 1]) + LotsOf(lots, parts[|parts| - 1])
  }

  lemma {:induction false} PullsFromAll(lines: seq<Line>, n: int, lots: seq<Lot>, parts: seq<Id>, lot: Id)
    ensures PullsFrom(PickAll(lines, n, lots, parts), lot) <= Held(LotsOfAll(lots, parts), lot)
  {
    if parts != [] {
      var m := |parts| - 1;
      var need := Required(lines, n, parts[m]) as real;
      PullsFromAll(lines, n, lots, parts[..m], lot);
      PullsFromPart(LotsOf(lots, parts[m]), parts[m], need, lot);
      PullsFromAppend(PickAll(lines, n, lots, parts[..m]), PickPart(lots, parts[m], need), lot);
      HeldAppend(LotsOfAll(lots, parts[..m]), LotsOf(lots, parts[m]), lot);
    }
  }

  lemma {:induction false} HeldByPart(lots: seq<Lot>, p: Id, lot: Id)
    ensures Held(LotsOf(lots, p), lot) <= Held(lots, lot)
    ensures Held(LotsOf(lots, p), lot) > 0 ==> exists i :: 0 <= i < |lots| && lots[i].id == lot && lots[i].partID == p
  {
    if lots != [] {
      var n := |lots| - 1;
      HeldByPart(lots[..n], p, lot);
      HeldAppend(LotsOf(lots[..n], p), if lots[n].partID == p then [lots[n]] else [], lot);
      HeldAppend(lots[..n], [lots[n]], lot);
      assert lots == lots[..n] + [lots[n]] && [lots[n]][1..] == [];
      if Held(LotsOf(lots[..n], p), lot) > 0 {
        var i :| 0 <= i < n && lots[..n][i].id == lot && lots[..n][i].partID == p;
        assert lots[i].id == lot && lots[i].partID == p;
      }
    }
  }

  lemma {:induction false} HeldByParts(lots: seq<Lot>, parts: seq<Id>, lot: Id)
    requires DistinctLots(lots) && Distinct(parts)
    ensures Held(LotsOfAll(lots, parts), lot) <= 1
    ensures Held(LotsOfAll(lots, parts), lot) > 0 ==>
              exists i :: 0 <= i < |lots| && lots[i].id == lot && lots[i].partID in parts
  {
    if parts != [] {
      var m := |parts| - 1;
      HeldByParts(lots, parts[..m], lot);
      HeldByPart(lots, parts[m], lot);
      HeldOnce(lots, lot);
      HeldAppend(LotsOfAll(lots, parts[..m]), LotsOf(lots, parts[m]), lot);
    }
  }

  lemma {:induction false} InsertPullsFrom(x: Entry, s: seq<Entry>, lot: Id)
    ensures PullsFrom(Insert(x, s, WALK_ORDER), lot) == (if x.stockItemID == lot then 1 else 0) + PullsFrom(s, lot)
  {
    assert ([x] + s)[1..] == s;
    if s != [] && WALK_ORDER(s[0], x) {
      InsertPullsFrom(x, s[1..], lot);
      assert Insert(x, s, WALK_ORDER)[1..] == Insert(x, s[1..], WALK_ORDER);
    }
  }

  lemma {:induction false} SortKeepsPulls(s: seq<Entry>, lot: Id)
    ensures PullsFrom(StableSort(s, WALK_ORDER), lot) == PullsFrom(s, lot)
  {
    if s != [] {
      SortKeepsPulls(s[1..], lot);
      InsertPullsFrom(s[0], StableSort(s[1..], WALK_ORDER), lot);
    }
  }

  /** When lots have ids of their own, no lot is on the list twice. */
  lemma NoLotTwice(board: Board, qty: int, lots: seq<Lot>, lot: Id)
    requires DistinctLots(lots)
    ensures PullsFrom(PicksFor(board, qty, lots).entries, lot) <= 1
  {
    var n, parts := Builds(board, qty), Parts(board.lines);
    PartsDistinct(board.lines);
    PullsFromAll(board.lines, n, lots, parts, lot);
    HeldByParts(lots, parts, lot);
    SortKeepsPulls(PickAll(board.lines, n, lots, parts), lot);
  }

  // ---- Bin by bin ----

  /** Lot i as the j-th lot of its part: the lots of that part that come before it are the ones before j. */
  ghost predicate StandsAt(lots: seq<Lot>, p: Id, j: nat, i: nat) {
    && j < |LotsOf(lots, p)| && i < |lots|
    && lots[i] == LotsOf(lots, p)[j] && lots[i].partID == p
    && forall k :: 0 <= k < i && lots[k].partID == p ==> lots[k] in LotsOf(lots, p)[..j]
  }

  lemma {:induction false} LotsOfHas(lots: seq<Lot>, p: Id, k: nat)
    requires k < |lots| && lots[k].partID == p
    ensures lots[k] in LotsOf(lots, p)
  {
    var n := |lots| - 1;
    if k < n {
      LotsOfHas(lots[..n], p, k);
    }
  }

  lemma {:induction false} LotStands(lots: seq<Lot>, p: Id, j: nat) returns (i: nat)
    requires j < |LotsOf(lots, p)|
    ensures StandsAt(lots, p, j, i)
  {
    var n := |lots| - 1;
    var before := LotsOf(lots[..n], p);
    if j < |before| {
      i := LotStands(lots[..n], p, j);
      assert LotsOf(lots, p)[..j] == before[..j];
    } else {
      i := n;
      assert LotsOf(lots, p)[..j] == before;
      forall k | 0 <= k < i && lots[k].partID == p
        ensures lots[k] in before
      {
        LotsOfHas(lots[..n], p, k);
      }
    }
  }

  /** What lot i is left with when the lots of its part are taken in bin order: nothing before it is left over. */
  ghost predicate TakenInOrder(e: Entry, lots: seq<Lot>, entries: seq<Entry>, i: nat)
    requires i < |lots|
  {
    && lots[i].partID == e.partID && e == EntryOf(lots[i], e.partID, e.quantity)
    && 0.0 <= e.quantity <= lots[i].quantity
    && forall k :: 0 <= k < i && lots[k].partID == e.partID ==> EntryOf(lots[k], e.partID, lots[k].quantity) in entries
  }

  lemma PartTakenInOrder(lots: seq<Lot>, p: Id, need: real, e: Entry) returns (i: nat)
    requires InStock(lots) && need >= 0.0 && e in PickPart(lots, p, need)
    ensures i < |lots| && e.partID == p && TakenInOrder(e, lots, PickPart(lots, p, need), i)
  {
    var picked := PickPart(lots, p, need);
    StockIsAvailable(lots, p);
    PickIsOptimal(LotsOf(lots, p), p, need);
    var j :| 0 <= j < |picked| && picked[j] == e;
    i := LotStands(lots, p, j);
    forall k | 0 <= k < i && lots[k].partID == p
      ensures EntryOf(lots[k], p, lots[k].quantity) in picked
    {
      var j' :| 0 <= j' < j && LotsOf(lots, p)[..j][j'] == lots[k];
      assert picked[j'] == EntryOf(lots[k], p, lots[k].quantity);
    }
  }

  lemma {:induction false} PickedForPart(lines: seq<Line>, n: int, lots: seq<Lot>, parts: seq<Id>, e: Entry)
      returns (p: Id)
    requires e in PickAll(lines, n, lots, parts)
    ensures p in parts && e in PickPart(lots, p, Required(lines, n, p) as real)
  {
    var m := |parts| - 1;
    if e in PickAll(lines, n, lots, parts[..m]) {
      p := PickedForPart(lines, n, lots, parts[..m], e);
    } else {
      p := parts[m];
    }
  }

  lemma {:induction false} PartIsPicked(lines: seq<Line>, n: int, lots: seq<Lot>, parts: seq<Id>, p: Id, e: Entry)
    requires p in parts && e in PickPart(lots, p, Required(lines, n, p) as real)
    ensures e in PickAll(lines, n, lots, parts)
  {
    var m := |parts| - 1;
    if p != parts[m] {
      PartIsPicked(lines, n, lots, parts[..m], p, e);
    }
  }

  /**
    On the finished list an entry takes no more than its lot holds, and every lot of the same part that comes before
    it in bin order is on the list with all it holds.
   */
  lemma BinsAreEmptiedInOrder(board: Board, qty: int, lots: seq<Lot>, e: Entry) returns (i: nat)
    requires Sane(board, lots) && e in PicksFor(board, qty, lots).entries
    ensures i < |lots| && TakenInOrder(e, lots, PicksFor(board, qty, lots).entries, i)
  {
    var n, parts := Builds(board, qty), Parts(board.lines);
    var picked, entries := PickAll(board.lines, n, lots, parts), PicksFor(board, qty, lots).entries;
    StableSortPermutes(picked, WALK_ORDER);
    assert e in multiset(entries);
    var p := PickedForPart(board.lines, n, lots, parts, e);
    BuildsPositive(board, qty);
    RequiredNotNegative(board.lines, n, p);
    i := PartTakenInOrder(lots, p, Required(board.lines, n, p) as real, e);
    forall k | 0 <= k < i && lots[k].partID == p
      ensures EntryOf(lots[k], p, lots[k].quantity) in entries
    {
      PartIsPicked(board.lines, n, lots, parts, p, EntryOf(lots[k], p, lots[k].quantity));
      assert EntryOf(lots[k], p, lots[k].quantity) in multiset(picked);
    }
  }

  // ---- Shortfalls and what can be built ----

  lemma {:induction false} ShortfallsExactly(lines: seq<Line>, n: int, lots: seq<Lot>, parts: seq<Id>, s: Shortfall)
    ensures s in ShortfallsOf(lines, n, lots, parts)
       <==> s.partID in parts && s == ShortOf(lines, n, lots, s.partID) && s.available < s.required
  {
    if parts != [] {
      ShortfallsExactly(lines, n, lots, parts[..|parts| - 1], s);
    }
  }

  /** A part is reported short exactly when demand exceeds supply, and by exactly what is not pulled. */
  lemma ShortIsWhatIsNotPulled(board: Board, qty: int, lots: seq<Lot>, p: Id)
    requires Sane(board, lots) && p in Parts(board.lines)
    ensures var picks := PicksFor(board, qty, lots);
            var required := Required(board.lines, Builds(board, qty), p) as real;
            && (required > Available(lots, p) <==> exists s :: s in picks.shortfalls && s.partID == p)
            && forall s :: s in picks.shortfalls && s.partID == p ==>
                 s.required == required && s.short == required - PulledOf(picks.entries, p) > 0.0
  {
    var n, parts, lines := Builds(board, qty), Parts(board.lines), board.lines;
    var shortfalls := ShortfallsOf(lines, n, lots, parts);
    PullsAreOptimal(board, qty, lots, p);
    forall s
      ensures s in shortfalls
         <==> s.partID in parts && s == ShortOf(lines, n, lots, s.partID) && s.available < s.required
    {
      ShortfallsExactly(lines, n, lots, parts, s);
    }
    if Required(lines, n, p) as real > Available(lots, p) {
      assert ShortOf(lines, n, lots, p) in shortfalls;
    }
  }

  /** The assistant's answer to whether a board can be built. */
  predicate Buildable(picks: Picks) {
    |picks.shortfalls| == 0 && |picks.unmatched| == 0
  }

  /** What an allocation of lots gives part p. */
  function Given(lots: seq<Lot>, alloc: seq<real>, p: Id): real
    requires |alloc| == |lots|
  {
    if lots == [] then 0.0
    else
      var m := |lots| - 1;
      Given(lots[..m], alloc[..m], p) + if lots[m].partID == p then alloc[m] else 0.0
  }

  /** Some of each lot, never more than it holds, meeting every part's demand. */
  ghost predicate Meets(lines: seq<Line>, n: int, lots: seq<Lot>, alloc: seq<real>) {
    && |alloc| == |lots|
    && (forall i :: 0 <= i < |lots| ==> 0.0 <= alloc[i] <= lots[i].quantity)
    && forall p :: p in Parts(lines) ==> Given(lots, alloc, p) >= Required(lines, n, p) as real
  }

  lemma {:induction false} GivenWithin(lots: seq<Lot>, alloc: seq<real>, p: Id)
    requires |alloc| == |lots| && forall i :: 0 <= i < |lots| ==> alloc[i] <= lots[i].quantity
    ensures Given(lots, alloc, p) <= Available(lots, p)
  {
    if lots != [] {
      GivenWithin(lots[..|lots| - 1], alloc[..|lots| - 1], p);
    }
  }

  function Everything(lots: seq<Lot>): (alloc: seq<real>)
    ensures |alloc| == |lots|
  {
    if lots == [] then [] else Everything(lots[..|lots| - 1]) + [lots[|lots| - 1].quantity]
  }

  lemma {:induction false} GivenEverything(lots: seq<Lot>, p: Id)
    ensures Given(lots, Everything(lots), p) == Available(lots, p)
    ensures forall i :: 0 <= i < |lots| ==> Everything(lots)[i] == lots[i].quantity
  {
    if lots != [] {
      var m := |lots| - 1;
      GivenEverything(lots[..m], p);
      assert Everything(lots)[..m] == Everything(lots[..m]);
    }
  }

  lemma {:induction false} UnmatchedExactly(lines: seq<Line>, n: int)
    ensures UnmatchedOf(lines, n) == [] <==> forall i :: 0 <= i < |lines| ==> lines[i].partID.Some?
  {
    if lines != [] {
      var m := |lines| - 1;
      UnmatchedExactly(lines[..m], n);
      assert lines[m].partID.None? ==> |UnmatchedOf(lines, n)| > 0;
      assert forall i :: 0 <= i < m ==> lines[i] == lines[..m][i];
    }
  }

  lemma {:induction false} NoShortfallExactly(lines: seq<Line>, n: int, lots: seq<Lot>, parts: seq<Id>)
    ensures ShortfallsOf(lines, n, lots, parts) == []
       <==> forall p :: p in parts ==> Available(lots, p) >= Required(lines, n, p) as real
  {
    if parts != [] {
      var m := |parts| - 1;
      NoShortfallExactly(lines, n, lots, parts[..m]);
      assert parts == parts[..m] + [parts[m]];
      var short := ShortOf(lines, n, lots, parts[m]);
      if short.available < short.required {
        assert ShortfallsOf(lines, n, lots, parts) == ShortfallsOf(lines, n, lots, parts[..m]) + [short];
        assert parts[m] in parts && Available(lots, parts[m]) < Required(lines, n, parts[m]) as real;
      } else {
        assert ShortfallsOf(lines, n, lots, parts) == ShortfallsOf(lines, n, lots, parts[..m]);
      }
    }
  }

  /** The board is called buildable exactly when every line is matched and some allocation meets every demand. */
  lemma BuildableExactly(board: Board, qty: int, lots: seq<Lot>)
    requires InStock(lots)
    ensures Buildable(PicksFor(board, qty, lots))
       <==> (forall i :: 0 <= i < |board.lines| ==> board.lines[i].partID.Some?)
            && exists alloc :: Meets(board.lines, Builds(board, qty), lots, alloc)
  {
    var n, lines := Builds(board, qty), board.lines;
    UnmatchedExactly(lines, n);
    NoShortfallExactly(lines, n, lots, Parts(lines));
    if ShortfallsOf(lines, n, lots, Parts(lines)) == [] {
      forall p
        ensures Given(lots, Everything(lots), p) == Available(lots, p)
      {
        GivenEverything(lots, p);
      }
      GivenEverything(lots, 0);
      assert Meets(lines, n, lots, Everything(lots));
    }
    forall alloc, p | Meets(lines, n, lots, alloc) && p in Parts(lines)
      ensures Available(lots, p) >= Required(lines, n, p) as real
    {
      GivenWithin(lots, alloc, p);
    }
  }

  // ---- Conservation ----

  function Asked(lines: seq<Line>): int {
    if lines == [] then 0 else Asked(lines[..|lines| - 1]) + lines[|lines| - 1].quantity
  }

  function RequiredAll(lines: seq<Line>, n: int, parts: seq<Id>): int {
    if parts == [] then 0 else RequiredAll(lines, n, parts[..|parts| - 1]) + Required(lines, n, parts[|parts| - 1])
  }

  function UnmatchedUnits(us: seq<Unmatched>): int {
    if us == [] then 0 else UnmatchedUnits(us[..|us| - 1]) + us[|us| - 1].quantity
  }

  /** One more line adds its demand to its part, once. */
  lemma {:induction false} RequiredAllMore(lines: seq<Line>, n: int, parts: seq<Id>)
    requires lines != [] && Distinct(parts)
    ensures var l := lines[|lines| - 1];
            RequiredAll(lines, n, parts) == RequiredAll(lines[..|lines| - 1], n, parts)
              + if l.partID.Some? && l.partID.value in parts then l.quantity * n else 0
  {
    if parts != [] {
      RequiredAllMore(lines, n, parts[..|parts| - 1]);
    }
  }

  /** Every unit the lines ask for is required of a part or reported unmatched. */
  lemma {:induction false} DemandIsConserved(lines: seq<Line>, n: int)
    ensures RequiredAll(lines, n, Parts(lines)) + UnmatchedUnits(UnmatchedOf(lines, n)) == n * Asked(lines)
  {
    if lines != [] {
      var m := |lines| - 1;
      DemandIsConserved(lines[..m], n);
      Distribute(n, Asked(lines[..m]), lines[m].quantity);
      RequiredMore(lines, n);
      UnmatchedMore(lines, n);
    }
  }

  lemma RequiredMore(lines: seq<Line>, n: int)
    requires lines != []
    ensures var m := |lines| - 1;
            RequiredAll(lines, n, Parts(lines)) == RequiredAll(lines[..m], n, Parts(lines[..m]))
              + if lines[m].partID.Some? then lines[m].quantity * n else 0
  {
    var m := |lines| - 1;
    var l, before := lines[m], Parts(lines[..m]);
    PartsDistinct(lines);
    RequiredAllMore(lines, n, Parts(lines));
    if l.partID.Some? && l.partID.value !in before {
      RequiredElsewhere(lines[..m], n, l.partID.value);
      assert Parts(lines)[..|before|] == before;
    }
  }

  lemma UnmatchedMore(lines: seq<Line>, n: int)
    requires lines != []
    ensures var m := |lines| - 1;
            UnmatchedUnits(UnmatchedOf(lines, n)) == UnmatchedUnits(UnmatchedOf(lines[..m], n))
              + if lines[m].partID.Some? then 0 else lines[m].quantity * n
  {
    var us, before := UnmatchedOf(lines, n), UnmatchedOf(lines[..|lines| - 1], n);
    if lines[|lines| - 1].partID.None? {
      assert us[..|us| - 1] == before;
    } else {
      assert us == before;
    }
  }

  lemma Distribute(n: int, a: int, b: int)
    ensures n * (a + b) == n * a + b * n
  {
  }

  /** The total is the sum of the entries as listed. */
  lemma TotalIsTheSum(board: Board, qty: int, lots: seq<Lot>)
    ensures PicksFor(board, qty, lots).totalUnits == Units(PicksFor(board, qty, lots).entries)
  {
    SortKeepsUnits(PickAll(board.lines, Builds(board, qty), lots, Parts(board.lines)), 0);
  }

  // ---- Walking order ----

  lemma StringLessNegative(a: string, b: string, c: string)
    requires StringLess(a, c)
    ensures StringLess(a, b) || StringLess(b, c)
  {
    StringLessTotal(a, b);
    StringLessTotal(b, c);
    if StringLess(b, a) {
      StringLessTransitive(b, a, c);
    }
  }

  lemma WalkOrderHolds(a: Entry, b: Entry, c: Entry)
    ensures !WalkLess(a, a)
    ensures WalkLess(a, b) && WalkLess(b, c) ==> WalkLess(a, c)
    ensures WalkLess(a, c) ==> WalkLess(a, b) || WalkLess(b, c)
  {
    StringLessTotal(a.partName, a.partName);
    StringLessTotal(a.locationName, b.locationName);
    StringLessTotal(b.locationName, c.locationName);
    StringLessTotal(a.locationName, c.locationName);
    if StringLess(a.locationName, b.locationName) && StringLess(b.locationName, c.locationName) {
      StringLessTransitive(a.locationName, b.locationName, c.locationName);
    }
    if StringLess(a.partName, b.partName) && StringLess(b.partName, c.partName) {
      StringLessTransitive(a.partName, b.partName, c.partName);
    }
    if StringLess(a.partName, c.partName) {
      StringLessNegative(a.partName, b.partName, c.partName);
    }
    if StringLess(a.locationName, c.locationName) {
      StringLessNegative(a.locationName, b.locationName, c.locationName);
    }
  }

  lemma WalkOrderIsWeak()
    ensures StrictWeakOrder(WALK_ORDER)
  {
    forall a, b, c
      ensures !WALK_ORDER(a, a)
      ensures WALK_ORDER(a, b) && WALK_ORDER(b, c) ==> WALK_ORDER(a, c)
      ensures WALK_ORDER(a, c) ==> WALK_ORDER(a, b) || WALK_ORDER(b, c)
    {
      WalkOrderHolds(a, b, c);
    }
  }

  /** The entries are what was picked, rearranged into walking order, ties as they were picked. */
  lemma EntriesAreAWalk(board: Board, qty: int, lots: seq<Lot>)
    ensures var picked := PickAll(board.lines, Builds(board, qty), lots, Parts(board.lines));
            var entries := PicksFor(board, qty, lots).entries;
            && Sorted(entries, WALK_ORDER)
            && multiset(entries) == multiset(picked)
            && forall e :: Ties(e, entries, WALK_ORDER) == Ties(e, picked, WALK_ORDER)
  {
    var picked := PickAll(board.lines, Builds(board, qty), lots, Parts(board.lines));
    WalkOrderIsWeak();
    StableSortSorts(picked, WALK_ORDER);
    StableSortPermutes(picked, WALK_ORDER);
    forall e
      ensures Ties(e, StableSort(picked, WALK_ORDER), WALK_ORDER) == Ties(e, picked, WALK_ORDER)
    {
      StableSortIsStable(e, picked, WALK_ORDER);
    }
  }

  // ---- The list told from the board, the lines and the lots themselves ----

  /** How many of a part the lines ask for. */
  function AskedFor(lines: seq<Line>, p: Id): int {
    if lines == [] then 0
    else (if lines[0].partID == Some(p) then lines[0].quantity else 0) + AskedFor(lines[1..], p)
  }

  lemma {:induction false} AskedForAppend(lines: seq<Line>, l: Line, p: Id)
    ensures AskedFor(lines + [l], p) == AskedFor(lines, p) + if l.partID == Some(p) then l.quantity else 0
  {
    if lines == [] {
      assert ([] + [l])[1..] == [];
    } else {
      assert (lines + [l])[1..] == lines[1..] + [l];
      AskedForAppend(lines[1..], l, p);
    }
  }

  lemma {:induction false} RequiredIsAsked(lines: seq<Line>, n: int, p: Id)
    ensures Required(lines, n, p) == n * AskedFor(lines, p)
  {
    if lines != [] {
      var m := |lines| - 1;
      RequiredIsAsked(lines[..m], n, p);
      AskedForAppend(lines[..m], lines[m], p);
      assert lines[..m] + [lines[m]] == lines;
      Distribute(n, AskedFor(lines[..m], p), if lines[m].partID == Some(p) then lines[m].quantity else 0);
    }
  }

  /** The head of the list: copies and builds below one count as one, and parts are required for each build of each. */
  lemma ListTells(board: Board, qty: int, lots: seq<Lot>, p: Id)
    ensures var picks := PicksFor(board, qty, lots);
            && picks.boardID == board.id && picks.boardName == board.name
            && picks.quantity == (if qty < 1 then 1 else qty)
            && picks.copies == (if board.copies < 1 then 1 else board.copies)
            && Required(board.lines, Builds(board, qty), p) == picks.copies * picks.quantity * AskedFor(board.lines, p)
  {
    RequiredIsAsked(board.lines, Builds(board, qty), p);
  }

  /** The lines without a part. */
  function LinesWithout(lines: seq<Line>): seq<Line> {
    if lines == [] then [] else (if lines[0].partID.None? then [lines[0]] else []) + LinesWithout(lines[1..])
  }

  lemma {:induction false} LinesWithoutAppend(lines: seq<Line>, l: Line)
    ensures LinesWithout(lines + [l]) == LinesWithout(lines) + if l.partID.None? then [l] else []
  {
    if lines == [] {
      assert ([] + [l])[1..] == [];
    } else {
      assert (lines + [l])[1..] == lines[1..] + [l];
      LinesWithoutAppend(lines[1..], l);
      var first, last := if lines[0].partID.None? then [lines[0]] else [], if l.partID.None? then [l] else [];
      Assoc(first, LinesWithout(lines[1..]), last);
    }
  }

  predicate SaysUnmatched(u: Unmatched, l: Line, n: int) {
    && u.refs == l.refs && u.value == l.value && u.quantity == l.quantity * n
    && u.footprint == l.footprint && u.mpn == l.mpn && u.manufacturer == l.manufacturer
  }

  /** Each line without a part is reported, in order, with its own details and its quantity for all builds. */
  lemma {:induction false} UnmatchedTell(lines: seq<Line>, n: int)
    ensures |UnmatchedOf(lines, n)| == |LinesWithout(lines)|
    ensures forall i :: 0 <= i < |LinesWithout(lines)| ==>
              SaysUnmatched(UnmatchedOf(lines, n)[i], LinesWithout(lines)[i], n)
  {
    if lines != [] {
      var m := |lines| - 1;
      UnmatchedTell(lines[..m], n);
      LinesWithoutAppend(lines[..m], lines[m]);
      assert lines[..m] + [lines[m]] == lines;
    }
  }

  function StockOf(lots: seq<Lot>, p: Id): real {
    if lots == [] then 0.0 else (if lots[0].partID == p then lots[0].quantity else 0.0) + StockOf(lots[1..], p)
  }

  lemma {:induction false} StockOfAppend(lots: seq<Lot>, l: Lot, p: Id)
    ensures StockOf(lots + [l], p) == StockOf(lots, p) + if l.partID == p then l.quantity else 0.0
  {
    if lots == [] {
      assert ([] + [l])[1..] == [];
    } else {
      assert (lots + [l])[1..] == lots[1..] + [l];
      StockOfAppend(lots[1..], l, p);
    }
  }

  lemma {:induction false} AvailableIsStock(lots: seq<Lot>, p: Id)
    ensures Available(lots, p) == StockOf(lots, p)
  {
    if lots != [] {
      var n := |lots| - 1;
      AvailableIsStock(lots[..n], p);
      StockOfAppend(lots[..n], lots[n], p);
      assert lots[..n] + [lots[n]] == lots;
    }
  }

  /** The name on the first line that asks for the part. */
  lemma {:induction false} NameIsFirst(lines: seq<Line>, p: Id, i: nat)
    requires i < |lines| && lines[i].partID == Some(p)
    requires forall k :: 0 <= k < i ==> lines[k].partID != Some(p)
    ensures NameOf(lines, p) == lines[i].partName
  {
    if i > 0 {
      NameIsFirst(lines[1..], p, i - 1);
    }
  }

  /** A shortfall says what the lines require, what the lots hold, and the difference. */
  lemma ShortfallTells(board: Board, qty: int, lots: seq<Lot>, s: Shortfall)
    requires s in PicksFor(board, qty, lots).shortfalls
    ensures s.required == (Builds(board, qty) * AskedFor(board.lines, s.partID)) as real
    ensures s.available == StockOf(lots, s.partID) < s.required && s.short == s.required - s.available
    ensures forall i :: 0 <= i < |board.lines| && board.lines[i].partID == Some(s.partID)
                        && (forall k :: 0 <= k < i ==> board.lines[k].partID != Some(s.partID)) ==>
              s.partName == board.lines[i].partName
  {
    ShortfallsExactly(board.lines, Builds(board, qty), lots, Parts(board.lines), s);
    RequiredIsAsked(board.lines, Builds(board, qty), s.partID);
    AvailableIsStock(lots, s.partID);
    forall i | 0 <= i < |board.lines| && board.lines[i].partID == Some(s.partID)
               && forall k :: 0 <= k < i ==> board.lines[k].partID != Some(s.partID)
      ensures s.partName == board.lines[i].partName
    {
      NameIsFirst(board.lines, s.partID, i);
    }
  }

  /** An entry says where its lot is and what it holds, and a lot without a place has no place's name. */
  lemma EntryTells(board: Board, qty: int, lots: seq<Lot>, e: Entry) returns (i: nat)
    requires Sane(board, lots) && e in PicksFor(board, qty, lots).entries
    ensures i < |lots| && e.stockItemID == lots[i].id && e.partID == lots[i].partID && e.partName == lots[i].partName
    ensures e.locationID == lots[i].locationID && 0.0 <= e.quantity <= lots[i].quantity
    ensures e.locationName == if lots[i].locationName.Some? then lots[i].locationName.value else ""
  {
    i := BinsAreEmptiedInOrder(board, qty, lots, e);
  }

  /** The walk: named bins first and in order of their names, and in one bin the parts in order of theirs. */
  lemma WalkTells(board: Board, qty: int, lots: seq<Lot>, i: nat, j: nat)
    requires i < j < |PicksFor(board, qty, lots).entries|
    ensures var a, b := PicksFor(board, qty, lots).entries[i], PicksFor(board, qty, lots).entries[j];
            && (a.locationName == "" ==> b.locationName == "")
            && (b.locationName != "" ==> !StringLess(b.locationName, a.locationName))
            && (a.locationName == b.locationName ==> !StringLess(b.partName, a.partName))
  {
    EntriesAreAWalk(board, qty, lots);
    var entries := PicksFor(board, qty, lots).entries;
    assert !WALK_ORDER(entries[j], entries[i]);
    NotBefore(entries[i], entries[j]);
  }

  lemma NotBefore(a: Entry, b: Entry)
    requires !WalkLess(b, a)
    ensures a.locationName == "" ==> b.locationName == ""
    ensures b.locationName != "" ==> !StringLess(b.locationName, a.locationName)
    ensures a.locationName == b.locationName ==> !StringLess(b.partName, a.partName)
  {
    StringLessTotal(a.locationName, a.locationName);
  }

  /** A list comes out exactly when the board is found and the stock of its parts can be read; errors are told apart. */
  lemma OutcomeTells(boards: Id -> Lookup<Option<Board>>, stock: seq<Id> -> Lookup<seq<Lot>>, boardID: Id, qty: int)
    ensures var r := Result(boards, stock, boardID, qty);
            && (r == BoardNotFound(boardID) <==> boards(boardID).Found? && boards(boardID).value.None?)
            && (r.LookupFailed? <==>
                  || boards(boardID).Failed?
                  || (boards(boardID).value.Some? && stock(Parts(boards(boardID).value.value.lines)).Failed?))
            && (r.Computed? ==>
                  var board := boards(boardID).value.value;
                  r.picks == PicksFor(board, qty, stock(Parts(board.lines)).value))
  {
  }

  /** The parts whose stock is asked for: those of the lines that have one, each once. */
  lemma PartsTell(lines: seq<Line>, p: Id)
    ensures p in Parts(lines) <==> exists j :: 0 <= j < |lines| && lines[j].partID == Some(p)
    ensures Distinct(Parts(lines))
  {
    PartsAsked(lines, p);
    PartsDistinct(lines);
  }
}
