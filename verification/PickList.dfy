/** The pick list: what to pull from stock to build a board (internal/picklist/picklist.go). */
module PickList {
  import opened Ordering
  import opened Wrappers

  type Id = nat

  datatype Line = Line(
    refs: string, value: string, quantity: int, partID: Option<Id>, partName: string,
    footprint: string, mpn: string, manufacturer: string)

  datatype Board = Board(id: Id, name: string, copies: int, lines: seq<Line>)

  /** A stock lot; quantities are reals where the source has floats. */
  datatype Lot = Lot(
    id: Id, partID: Id, partName: string, locationID: Option<Id>, locationName: Option<string>, quantity: real)

  datatype Entry = Entry(
    stockItemID: Id, partID: Id, partName: string, locationID: Option<Id>, locationName: string, quantity: real)

  datatype Shortfall = Shortfall(partID: Id, partName: string, required: real, available: real, short: real)

  datatype Unmatched = Unmatched(
    refs: string, value: string, quantity: int, footprint: string, mpn: string, manufacturer: string)

  datatype Picks = Picks(
    boardID: Id, boardName: string, quantity: int, copies: int, totalUnits: real,
    entries: seq<Entry>, shortfalls: seq<Shortfall>, unmatched: seq<Unmatched>)

  datatype Lookup<+T> = Found(value: T) | Failed

  datatype Outcome = Computed(picks: Picks) | LookupFailed | BoardNotFound(id: Id)

  function AtLeastOne(n: int): int {
    if n < 1 then 1 else n
  }

  // ---- Demand ----

  /** How many of part p the lines ask for, for n builds of each. */
  function Required(lines: seq<Line>, n: int, p: Id): int {
    if lines == [] then 0
    else
      var l := lines[|lines| - 1];
      Required(lines[..|lines| - 1], n, p) + if l.partID == Some(p) then l.quantity * n else 0
  }

  /** The matched parts, each once, in order of first appearance. */
  function Parts(lines: seq<Line>): seq<Id> {
    if lines == [] then []
    else
      var l, before := lines[|lines| - 1], Parts(lines[..|lines| - 1]);
      if l.partID.Some? && l.partID.value !in before then before + [l.partID.value] else before
  }

  /** The name on the first line that asks for part p. */
  function NameOf(lines: seq<Line>, p: Id): string {
    if lines == [] then ""
    else if lines[0].partID == Some(p) then lines[0].partName
    else NameOf(lines[1..], p)
  }

  function UnmatchedOf(lines: seq<Line>, n: int): seq<Unmatched> {
    if lines == [] then []
    else
      var l := lines[|lines| - 1];
      UnmatchedOf(lines[..|lines| - 1], n)
      + if l.partID.Some? then [] else [Unmatched(l.refs, l.value, l.quantity * n, l.footprint, l.mpn, l.manufacturer)]
  }

  // ---- Supply ----

  /** The lots of part p, in bin order. */
  function LotsOf(lots: seq<Lot>, p: Id): seq<Lot> {
    if lots == [] then []
    else
      var n := |lots| - 1;
      LotsOf(lots[..n], p) + if lots[n].partID == p then [lots[n]] else []
  }

  function Available(lots: seq<Lot>, p: Id): real {
    if lots == [] then 0.0
    else
      var n := |lots| - 1;
      Available(lots[..n], p) + if lots[n].partID == p then lots[n].quantity else 0.0
  }

  function Least(a: real, b: real): real {
    if b < a then b else a
  }

  function EntryOf(lot: Lot, p: Id, quantity: real): Entry {
    Entry(lot.id, p, lot.partName, lot.locationID, lot.locationName.GetOr(""), quantity)
  }

  /** Take what remains to be found lot by lot, until nothing does. */
  function PickLots(lots: seq<Lot>, p: Id, remaining: real): seq<Entry> {
    if lots == [] || remaining <= 0.0 then []
    else
      var pull := Least(remaining, lots[0].quantity);
      [EntryOf(lots[0], p, pull)] + PickLots(lots[1..], p, remaining - pull)
  }

  /** What is picked for one part. */
  function PickPart(lots: seq<Lot>, p: Id, need: real): seq<Entry> {
    PickLots(LotsOf(lots, p), p, need)
  }

  function PickAll(lines: seq<Line>, n: int, lots: seq<Lot>, parts: seq<Id>): seq<Entry> {
    if parts == [] then []
    else
      var m := |parts| - 1;
      PickAll(lines, n, lots, parts[..m]) + PickPart(lots, parts[m], Required(lines, n, parts[m]) as real)
  }

  function ShortOf(lines: seq<Line>, n: int, lots: seq<Lot>, p: Id): Shortfall {
    var need, avail := Required(lines, n, p) as real, Available(lots, p);
    Shortfall(p, NameOf(lines, p), need, avail, need - avail)
  }

  function ShortfallsOf(lines: seq<Line>, n: int, lots: seq<Lot>, parts: seq<Id>): seq<Shortfall> {
    if parts == [] then []
    else
      var m := |parts| - 1;
      var short := ShortOf(lines, n, lots, parts[m]);
      ShortfallsOf(lines, n, lots, parts[..m]) + if short.available < short.required then [short] else []
  }

  function Units(entries: seq<Entry>): real {
    if entries == [] then 0.0 else entries[0].quantity + Units(entries[1..])
  }

  // ---- Walk order ----

  /** Named bins first, then by location, then by part. */
  predicate WalkLess(a: Entry, b: Entry) {
    if (a.locationName == "") != (b.locationName == "") then a.locationName != ""
    else if a.locationName != b.locationName then StringLess(a.locationName, b.locationName)
    else StringLess(a.partName, b.partName)
  }

  const WALK_ORDER: (Entry, Entry) -> bool := (a, b) => WalkLess(a, b)

  // ---- The whole computation ----

  function PicksFor(board: Board, qty: int, lots: seq<Lot>): Picks {
    var copies, builds := AtLeastOne(board.copies), AtLeastOne(qty);
    var parts := Parts(board.lines);
    var picked := PickAll(board.lines, copies * builds, lots, parts);
    Picks(board.id, board.name, builds, copies, Units(picked), StableSort(picked, WALK_ORDER),
          ShortfallsOf(board.lines, copies * builds, lots, parts), UnmatchedOf(board.lines, copies * builds))
  }

  function Result(boards: Id -> Lookup<Option<Board>>, stock: seq<Id> -> Lookup<seq<Lot>>,
                  boardID: Id, qty: int): Outcome {
    match boards(boardID)
    case Failed => LookupFailed
    case Found(None) => BoardNotFound(boardID)
    case Found(Some(board)) =>
      match stock(Parts(board.lines))
      case Failed => LookupFailed
      case Found(lots) => Computed(PicksFor(board, qty, lots))
  }

  method Compute(boards: Id -> Lookup<Option<Board>>, stock: seq<Id> -> Lookup<seq<Lot>>, boardID: Id, qty: int)
    returns (r: Outcome)
    ensures r == Result(boards, stock, boardID, qty)
  {
    var builds := qty;
    if builds < 1 {
      builds := 1;
    }
    var found := boards(boardID);
    if found.Failed? {
      return LookupFailed;
    }
    if found.value.None? {
      return BoardNotFound(boardID);
    }
    var board := found.value.value;
    var copies := board.copies;
    if copies < 1 {
      copies := 1;
    }
    var required, names, order, unmatched := Demand(board.lines, copies, builds);
    var held := stock(order);
    if held.Failed? {
      return LookupFailed;
    }
    var byPart, available := Supply(held.value);
    var entries, shortfalls, total :=
      AllocateAll(board.lines, copies * builds, held.value, order, required, names, byPart, available);
    entries := StableSort(entries, WALK_ORDER);
    r := Computed(Picks(board.id, board.name, builds, copies, total, entries, shortfalls, unmatched));
  }

  /** The loop over the bill of materials. */
  method Demand(lines: seq<Line>, copies: int, builds: int)
    returns (required: map<Id, real>, names: map<Id, string>, order: seq<Id>, unmatched: seq<Unmatched>)
    ensures order == Parts(lines) && unmatched == UnmatchedOf(lines, copies * builds)
    ensures forall p :: p in order ==> p in required && required[p] == Required(lines, copies * builds, p) as real
    ensures forall p :: p in order ==> p in names && names[p] == NameOf(lines, p)
  {
    required, names, order, unmatched := map[], map[], [], [];
    ghost var n := copies * builds;
    for i := 0 to |lines|
      invariant unmatched == UnmatchedOf(lines[..i], n)
      invariant Demanded(lines[..i], n, order, required, names)
    {
      var l := lines[i];
      UnmatchedMore(lines, n, i);
      Times(l.quantity, copies, builds);
      var need := (l.quantity * copies * builds) as real;
      ghost var order0, required0, names0 := order, required, names;
      if l.partID.None? {
        unmatched := unmatched + [Unmatched(l.refs, l.value, l.quantity * copies * builds,
                                            l.footprint, l.mpn, l.manufacturer)];
        DemandedMore(lines, n, i, order0, required0, names0, order, required, names);
        continue;
      }
      var p := l.partID.value;
      if p !in required {
        order := order + [p];
        names := names[p := l.partName];
      }
      required := required[p := (if p in required then required[p] else 0.0) + need];
      DemandedMore(lines, n, i, order0, required0, names0, order, required, names);
    }
    assert lines[..|lines|] == lines;
  }

  ghost predicate Demanded(lines: seq<Line>, n: int, order: seq<Id>, required: map<Id, real>, names: map<Id, string>) {
    && order == Parts(lines)
    && (forall p :: p in required <==> p in order)
    && (forall p :: p in order ==> required[p] == Required(lines, n, p) as real)
    && (forall p :: p in order ==> p in names && names[p] == NameOf(lines, p))
  }

  lemma DemandedMore(lines: seq<Line>, n: int, i: nat,
                     order: seq<Id>, required: map<Id, real>, names: map<Id, string>,
                     order': seq<Id>, required': map<Id, real>, names': map<Id, string>)
    requires i < |lines| && Demanded(lines[..i], n, order, required, names)
    requires match lines[i].partID
             case None => order' == order && required' == required && names' == names
             case Some(p) =>
               && order' == (if p in required then order else order + [p])
               && names' == (if p in required then names else names[p := lines[i].partName])
               && required' == required[p := (if p in required then required[p] else 0.0)
                                             + (lines[i].quantity * n) as real]
    ensures Demanded(lines[..i + 1], n, order', required', names')
  {
    assert lines[..i + 1][..i] == lines[..i];
    forall p: Id | p in order'
      ensures required'[p] == Required(lines[..i + 1], n, p) as real
      ensures p in names' && names'[p] == NameOf(lines[..i + 1], p)
    {
      NameOfMore(lines, i, p);
      RequiredElsewhere(lines[..i], n, p);
    }
  }

  lemma UnmatchedMore(lines: seq<Line>, n: int, i: nat)
    requires i < |lines|
    ensures UnmatchedOf(lines[..i + 1], n) == UnmatchedOf(lines[..i], n)
            + if lines[i].partID.Some? then []
              else [Unmatched(lines[i].refs, lines[i].value, lines[i].quantity * n,
                              lines[i].footprint, lines[i].mpn, lines[i].manufacturer)]
  {
    assert lines[..i + 1][..i] == lines[..i];
  }

  lemma Times(q: int, copies: int, builds: int)
    ensures q * copies * builds == q * (copies * builds)
  {
  }

  lemma {:induction false} RequiredElsewhere(lines: seq<Line>, n: int, p: Id)
    ensures p !in Parts(lines) ==> Required(lines, n, p) == 0
  {
    if lines != [] {
      RequiredElsewhere(lines[..|lines| - 1], n, p);
    }
  }

  lemma {:induction false} NameOfMore(lines: seq<Line>, i: nat, p: Id)
    requires i < |lines|
    ensures NameOf(lines[..i + 1], p)
         == if p in Parts(lines[..i]) || lines[i].partID != Some(p) then NameOf(lines[..i], p) else lines[i].partName
  {
    PartsAsked(lines[..i], p);
    NameOfAppend(lines[..i], lines[i], p);
    assert lines[..i + 1] == lines[..i] + [lines[i]];
  }

  lemma {:induction false} NameOfAppend(lines: seq<Line>, l: Line, p: Id)
    ensures NameOf(lines + [l], p)
         == if (exists j :: 0 <= j < |lines| && lines[j].partID == Some(p)) || l.partID != Some(p) then NameOf(lines, p)
            else l.partName
  {
    if lines == [] {
      assert ([] + [l])[1..] == [];
    } else {
      assert (lines + [l])[1..] == lines[1..] + [l];
      NameOfAppend(lines[1..], l, p);
      if exists j :: 0 <= j < |lines| && lines[j].partID == Some(p) {
        var j :| 0 <= j < |lines| && lines[j].partID == Some(p);
        assert j > 0 ==> lines[1..][j - 1].partID == Some(p);
      }
    }
  }

  lemma {:induction false} PartsAsked(lines: seq<Line>, p: Id)
    ensures p in Parts(lines) <==> exists j :: 0 <= j < |lines| && lines[j].partID == Some(p)
  {
    if lines != [] {
      var n := |lines| - 1;
      PartsAsked(lines[..n], p);
      if p in Parts(lines[..n]) {
        var j :| 0 <= j < n && lines[..n][j].partID == Some(p);
        assert lines[j].partID == Some(p);
      }
    }
  }

  /** Go's reading of a map: the zero value where the key is missing. */
  function Read<T>(m: map<Id, T>, p: Id, zero: T): T {
    if p in m then m[p] else zero
  }

  /** The loop over the stock lots; the lots themselves stand for the source's indexes into them. */
  method Supply(lots: seq<Lot>) returns (byPart: map<Id, seq<Lot>>, available: map<Id, real>)
    ensures forall p :: Read(byPart, p, []) == LotsOf(lots, p)
    ensures forall p :: Read(available, p, 0.0) == Available(lots, p)
  {
    byPart, available := map[], map[];
    for i := 0 to |lots|
      invariant forall p :: Read(byPart, p, []) == LotsOf(lots[..i], p)
      invariant forall p :: Read(available, p, 0.0) == Available(lots[..i], p)
    {
      var p := lots[i].partID;
      byPart := byPart[p := Read(byPart, p, []) + [lots[i]]];
      available := available[p := Read(available, p, 0.0) + lots[i].quantity];
      assert lots[..i + 1][..i] == lots[..i];
      forall q
        ensures Read(byPart, q, []) == LotsOf(lots[..i + 1], q)
            && Read(available, q, 0.0) == Available(lots[..i + 1], q)
      {
      }
    }
    assert lots[..|lots|] == lots;
  }

  lemma PickOneMore(lines: seq<Line>, n: int, lots: seq<Lot>, order: seq<Id>, k: nat, picked: seq<Entry>)
    requires k < |order| && picked == PickPart(lots, order[k], Required(lines, n, order[k]) as real)
    ensures PickAll(lines, n, lots, order[..k + 1]) == PickAll(lines, n, lots, order[..k]) + picked
  {
    assert order[..k + 1][..k] == order[..k];
  }

  lemma ShortOneMore(lines: seq<Line>, n: int, lots: seq<Lot>, order: seq<Id>, k: nat, short: Shortfall)
    requires k < |order| && short == ShortOf(lines, n, lots, order[k])
    ensures ShortfallsOf(lines, n, lots, order[..k + 1])
         == ShortfallsOf(lines, n, lots, order[..k]) + if short.available < short.required then [short] else []
  {
    assert order[..k + 1][..k] == order[..k];
  }

  /** The loop over the parts in demand. */
  method AllocateAll(ghost lines: seq<Line>, ghost n: int, ghost lots: seq<Lot>, order: seq<Id>,
                     required: map<Id, real>, names: map<Id, string>,
                     byPart: map<Id, seq<Lot>>, available: map<Id, real>)
    returns (entries: seq<Entry>, shortfalls: seq<Shortfall>, total: real)
    requires forall p :: p in order ==> p in required && required[p] == Required(lines, n, p) as real
    requires forall p :: p in order ==> p in names && names[p] == NameOf(lines, p)
    requires forall p :: Read(byPart, p, []) == LotsOf(lots, p)
    requires forall p :: Read(available, p, 0.0) == Available(lots, p)
    ensures entries == PickAll(lines, n, lots, order)
    ensures shortfalls == ShortfallsOf(lines, n, lots, order)
    ensures total == Units(entries)
  {
    entries, shortfalls, total := [], [], 0.0;
    for k := 0 to |order|
      invariant entries == PickAll(lines, n, lots, order[..k])
      invariant shortfalls == ShortfallsOf(lines, n, lots, order[..k])
      invariant total == Units(entries)
    {
      var pid := order[k];
      assert pid in order;
      var need := required[pid];
      var picked, units := AllocatePart(Read(byPart, pid, []), pid, need);
      PickOneMore(lines, n, lots, order, k, picked);
      UnitsAppend(entries, picked);
      entries := entries + picked;
      total := total + units;
      var avail := Read(available, pid, 0.0);
      var short := Shortfall(pid, names[pid], need, avail, need - avail);
      ShortOneMore(lines, n, lots, order, k, short);
      if avail < need {
        shortfalls := shortfalls + [short];
      }
    }
    assert order[..|order|] == order;
  }

  /** The inner loop over one part's lots. */
  method AllocatePart(lots: seq<Lot>, pid: Id, need: real) returns (picked: seq<Entry>, units: real)
    ensures picked == PickLots(lots, pid, need) && units == Units(picked)
  {
    picked, units := [], 0.0;
    var remaining := need;
    for j := 0 to |lots|
      invariant picked + PickLots(lots[j..], pid, remaining) == PickLots(lots, pid, need)
      invariant units == Units(picked)
    {
      if remaining <= 0.0 {
        break;
      }
      assert lots[j..][1..] == lots[j + 1..];
      var lot := lots[j];
      var pull := remaining;
      if lot.quantity < pull {
        pull := lot.quantity;
      }
      var loc := "";
      if lot.locationName.Some? {
        loc := lot.locationName.value;
      }
      var entry := Entry(lot.id, pid, lot.partName, lot.locationID, loc, pull);
      UnitsAppend(picked, [entry]);
      Regroup(picked, [entry], PickLots(lots[j + 1..], pid, remaining - pull));
      picked := picked + [entry];
      remaining := remaining - pull;
      units := units + pull;
    }
  }

  lemma Regroup(a: seq<Entry>, b: seq<Entry>, c: seq<Entry>)
    ensures a + (b + c) == a + b + c
  {
  }

  lemma {:induction false} UnitsAppend(a: seq<Entry>, b: seq<Entry>)
    ensures Units(a + b) == Units(a) + Units(b)
  {
    if a == [] {
      assert a + b == b;
    } else {
      assert (a + b)[1..] == a[1..] + b;
      UnitsAppend(a[1..], b);
    }
  }
}
