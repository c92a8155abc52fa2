/** Where labels go on sheets (RenderSheet, internal/labels/labels.go). */
module LabelSheet {
  import opened Wrappers

  /** Sheet geometry; lengths are reals where the source has floats. */
  datatype Media = Media(
    cols: int, rows: int, x0: real, y0: real, pitchX: real, pitchY: real, labelW: real, labelH: real)

  function PerSheet(m: Media): int {
    m.cols * m.rows
  }

  /** A label's place: its page, its cell and the cell's corner. */
  datatype Place = Place(page: nat, cell: nat, x: real, y: real)

  /** Go's division and remainder, which truncate toward zero, for a dividend that is not negative. */
  function Quo(a: nat, b: int): int
    requires b != 0
  {
    if b > 0 then a / b else -(a / -b)
  }

  function Rem(a: nat, b: int): int
    requires b != 0
  {
    if b > 0 then a % b else a % -b
  }

  function PlaceAt(m: Media, page: nat, cell: nat): Place
    requires m.cols != 0
  {
    Place(page, cell, m.x0 + Rem(cell, m.cols) as real * m.pitchX, m.y0 + Quo(cell, m.cols) as real * m.pitchY)
  }

  // ---- The closed form ----

  /** The cells still free below `limit`, in order. */
  function Free(used: set<int>, limit: nat): seq<nat> {
    if limit == 0 then []
    else Free(used, limit - 1) + if (limit - 1) in used then [] else [limit - 1]
  }

  /** Label i takes the i-th free cell of the first sheet, then the cells of fresh sheets in order. */
  function CellOf(used: set<int>, perSheet: nat, i: nat): (nat, nat)
    requires perSheet > 0
  {
    var free := Free(used, perSheet);
    if i < |free| then (0, free[i]) else (1 + (i - |free|) / perSheet, (i - |free|) % perSheet)
  }

  function PlaceOf(m: Media, used: set<int>, i: nat): Place
    requires PerSheet(m) > 0 && m.cols != 0
  {
    var (page, cell) := CellOf(used, PerSheet(m), i);
    PlaceAt(m, page, cell)
  }

  function PagesFor(used: set<int>, perSheet: nat, n: nat): nat
    requires perSheet > 0
  {
    var free := |Free(used, perSheet)|;
    1 + if n <= free then 0 else (n - free + perSheet - 1) / perSheet
  }

  datatype Sheets = Sheets(places: seq<Place>, pages: nat)

  // ---- The cursor ----

  /** The places of n labels, and how many pages they take; None for media without cells. */
  method RenderSheet(m: Media, n: nat, used: set<int>) returns (r: Option<Sheets>)
    ensures PerSheet(m) <= 0 <==> r.None?
    ensures r.Some? ==>
              && m.cols != 0
              && |r.value.places| == n
              && r.value.pages == PagesFor(used, PerSheet(m), n)
              && forall i :: 0 <= i < n ==> r.value.places[i] == PlaceOf(m, used, i)
  {
    var pages := 1;
    var perSheet := PerSheet(m);
    if perSheet <= 0 {
      return None;
    }
    assert m.cols != 0;
    var places: seq<Place> := [];
    var cell := 0;
    var firstSheet := true;
    for i := 0 to n
      invariant |places| == i && cell <= perSheet && pages >= 1
      invariant forall j :: 0 <= j < i ==> places[j] == PlaceOf(m, used, j)
      invariant Cursor(used, perSheet, i, pages, cell, firstSheet)
    {
      if firstSheet {
        cell := SkipUsed(used, perSheet, cell);
      }
      if cell >= perSheet {
        Turned(used, perSheet, i, pages, cell, firstSheet);
        pages := pages + 1;
        cell := 0;
        firstSheet := false;
      }
      CursorIsClosedForm(used, perSheet, i, pages, cell, firstSheet);
      places := places + [PlaceAt(m, pages - 1, cell)];
      cell := cell + 1;
    }
    CursorPages(used, perSheet, n, pages, cell, firstSheet);
    r := Some(Sheets(places, pages));
  }

  /** Where the cursor stands before label i: after the cells already taken. */
  ghost predicate Cursor(used: set<int>, perSheet: nat, i: nat, pages: nat, cell: nat, firstSheet: bool) {
    && cell <= perSheet
    && (firstSheet ==> pages == 1 && i == |Free(used, cell)|)
    && (!firstSheet ==> pages >= 2 && cell > 0 && i == |Free(used, perSheet)| + (pages - 2) * perSheet + cell)
  }

  /** Where it stands when label i is placed: on the cell that label gets. */
  ghost predicate OnCell(used: set<int>, perSheet: nat, i: nat, pages: nat, cell: nat, firstSheet: bool) {
    && cell < perSheet
    && (firstSheet ==> pages == 1 && cell !in used && i == |Free(used, cell)|)
    && (!firstSheet ==> pages >= 2 && i == |Free(used, perSheet)| + (pages - 2) * perSheet + cell)
  }

  lemma Turned(used: set<int>, perSheet: nat, i: nat, pages: nat, cell: nat, firstSheet: bool)
    requires perSheet > 0 && cell == perSheet && Cursor(used, perSheet, i, pages, cell, firstSheet)
    ensures OnCell(used, perSheet, i, pages + 1, 0, false)
  {
    if !firstSheet {
      assert (pages - 1) * perSheet == (pages - 2) * perSheet + perSheet;
    }
  }

  method SkipUsed(used: set<int>, perSheet: nat, from: nat) returns (cell: nat)
    requires from <= perSheet
    ensures from <= cell <= perSheet && (cell < perSheet ==> cell !in used)
    ensures Free(used, cell) == Free(used, from)
  {
    cell := from;
    while cell < perSheet && cell in used
      invariant from <= cell <= perSheet
      invariant Free(used, cell) == Free(used, from)
    {
      cell := cell + 1;
    }
  }

  lemma {:induction false} FreePrefix(used: set<int>, a: nat, b: nat)
    requires a <= b
    ensures Free(used, a) <= Free(used, b)
    decreases b - a
  {
    if a < b {
      FreePrefix(used, a, b - 1);
    }
  }

  lemma CursorIsClosedForm(used: set<int>, perSheet: nat, i: nat, pages: nat, cell: nat, firstSheet: bool)
    requires OnCell(used, perSheet, i, pages, cell, firstSheet)
    ensures CellOf(used, perSheet, i) == (pages - 1, cell)
    ensures Cursor(used, perSheet, i + 1, pages, cell + 1, firstSheet)
  {
    if firstSheet {
      FreePrefix(used, cell + 1, perSheet);
      assert Free(used, cell + 1)[i] == cell;
    } else {
      FreshSheet(|Free(used, perSheet)|, perSheet, i, pages, cell);
    }
  }

  lemma FreshSheet(free: nat, perSheet: nat, i: nat, pages: nat, cell: nat)
    requires perSheet > 0 && cell < perSheet && pages >= 2
    requires i == free + (pages - 2) * perSheet + cell
    ensures i >= free && 1 + (i - free) / perSheet == pages - 1 && (i - free) % perSheet == cell
  {
    Scale(0, pages - 2, perSheet);
    DivModUnique(i - free, perSheet, pages - 2, cell);
  }

  lemma CursorPages(used: set<int>, perSheet: nat, n: nat, pages: nat, cell: nat, firstSheet: bool)
    requires perSheet > 0 && Cursor(used, perSheet, n, pages, cell, firstSheet)
    ensures pages == PagesFor(used, perSheet, n)
  {
    if firstSheet {
      FreePrefix(used, cell, perSheet);
    } else {
      FreshPages(|Free(used, perSheet)|, perSheet, n, pages, cell);
    }
  }

  lemma FreshPages(free: nat, perSheet: nat, n: nat, pages: nat, cell: nat)
    requires perSheet > 0 && 0 < cell <= perSheet && pages >= 2
    requires n == free + (pages - 2) * perSheet + cell
    ensures n > free && pages == 1 + (n - free + perSheet - 1) / perSheet
  {
    Scale(0, pages - 2, perSheet);
    OneMore(pages - 2, perSheet);
    DivModUnique(n - free + perSheet - 1, perSheet, pages - 1, cell - 1);
  }

  lemma DivModUnique(a: nat, b: nat, q: nat, r: nat)
    requires b > 0 && r < b && a == q * b + r
    ensures a / b == q && a % b == r
  {
    var q', r' := a / b, a % b;
    assert a == q' * b + r';
    OneMore(q, b);
    OneMore(q', b);
    if q < q' {
      Scale(q + 1, q', b);
    } else if q' < q {
      Scale(q' + 1, q, b);
    }
  }

  lemma OneMore(q: nat, b: nat)
    ensures (q + 1) * b == q * b + b
  {
  }

  lemma Scale(x: nat, y: nat, b: nat)
    requires x <= y
    ensures x * b <= y * b
  {
  }

  // ---- What the closed form guarantees ----

  lemma {:induction false} FreeIsFree(used: set<int>, limit: nat)
    ensures forall k :: 0 <= k < |Free(used, limit)| ==> Free(used, limit)[k] < limit && Free(used, limit)[k] !in used
    ensures forall k, l :: 0 <= k < l < |Free(used, limit)| ==> Free(used, limit)[k] < Free(used, limit)[l]
    ensures forall c :: 0 <= c < limit && c !in used ==> c in Free(used, limit)
  {
    if limit > 0 {
      FreeIsFree(used, limit - 1);
    }
  }

  /** A place is a cell of the sheet, and on the first sheet one that is not used up. */
  lemma CellsAreFree(used: set<int>, perSheet: nat, i: nat)
    requires perSheet > 0
    ensures var (page, cell) := CellOf(used, perSheet, i); cell < perSheet && (page == 0 ==> cell !in used)
  {
    FreeIsFree(used, perSheet);
  }

  /** No two labels share a place. */
  lemma PlacesAreDistinct(used: set<int>, perSheet: nat, i: nat, j: nat)
    requires perSheet > 0 && i < j
    ensures CellOf(used, perSheet, i) != CellOf(used, perSheet, j)
  {
    FreeIsFree(used, perSheet);
    var free := |Free(used, perSheet)|;
    if i >= free {
      var a, b := i - free, j - free;
      assert a == (a / perSheet) * perSheet + a % perSheet;
      assert b == (b / perSheet) * perSheet + b % perSheet;
    }
  }

  /** No free cell is left behind: a place is taken only once every place before it is. */
  lemma PlacesAreFilledInOrder(used: set<int>, perSheet: nat, page: nat, cell: nat)
    requires perSheet > 0 && cell < perSheet && (page == 0 ==> cell !in used)
    ensures exists i: nat :: CellOf(used, perSheet, i) == (page, cell)
  {
    FreeIsFree(used, perSheet);
    var free := Free(used, perSheet);
    if page == 0 {
      var i :| 0 <= i < |free| && free[i] == cell;
      assert CellOf(used, perSheet, i) == (page, cell);
    } else {
      var i := |free| + (page - 1) * perSheet + cell;
      DivModUnique((page - 1) * perSheet + cell, perSheet, page - 1, cell);
      assert CellOf(used, perSheet, i) == (page, cell);
    }
  }

  /** The pages are exactly those up to the last label's. */
  lemma PagesAreNeeded(used: set<int>, perSheet: nat, n: nat)
    requires perSheet > 0 && n > 0
    ensures PagesFor(used, perSheet, n) == 1 + CellOf(used, perSheet, n - 1).0
  {
    var free := |Free(used, perSheet)|;
    if n > free {
      var a := n - 1 - free;
      var q, r := a / perSheet, a % perSheet;
      assert a + perSheet == (q + 1) * perSheet + r;
      DivModUnique(a + perSheet, perSheet, q + 1, r);
    }
  }

  // ---- Geometry ----

  /** Label areas that have no interior point in common. */
  predicate Apart(m: Media, p: Place, q: Place) {
    p.x + m.labelW <= q.x || q.x + m.labelW <= p.x || p.y + m.labelH <= q.y || q.y + m.labelH <= p.y
  }

  lemma Spread(i: int, j: int, pitch: real, size: real)
    requires i < j && pitch >= size >= 0.0
    ensures i as real * pitch + size <= j as real * pitch
  {
    assert j as real - i as real >= 1.0;
    assert (j as real - i as real - 1.0) * pitch >= 0.0;
  }

  /** With pitch no less than the label on either axis, different cells of a page do not overlap. */
  lemma LabelsDoNotOverlap(m: Media, page: nat, c: nat, d: nat)
    requires m.cols != 0 && c != d
    requires m.pitchX >= m.labelW >= 0.0 && m.pitchY >= m.labelH >= 0.0
    ensures Apart(m, PlaceAt(m, page, c), PlaceAt(m, page, d))
  {
    var i, j := Rem(c, m.cols), Rem(d, m.cols);
    var k, l := Quo(c, m.cols), Quo(d, m.cols);
    if i < j {
      Spread(i, j, m.pitchX, m.labelW);
    } else if j < i {
      Spread(j, i, m.pitchX, m.labelW);
    } else if k < l {
      Spread(k, l, m.pitchY, m.labelH);
    } else if l < k {
      Spread(l, k, m.pitchY, m.labelH);
    } else {
      QuoRem(c, m.cols);
      QuoRem(d, m.cols);
    }
  }

  lemma QuoRem(a: nat, b: int)
    requires b != 0
    ensures a == Quo(a, b) * b + Rem(a, b)
  {
    if b < 0 {
      assert a == (a / -b) * -b + a % -b;
    }
  }

  /** No two labels of a run ever overlap on paper. */
  lemma SheetsNeverOverlap(m: Media, used: set<int>, i: nat, j: nat)
    requires PerSheet(m) > 0 && m.cols != 0 && i < j
    requires m.pitchX >= m.labelW >= 0.0 && m.pitchY >= m.labelH >= 0.0
    ensures var (page, c) := CellOf(used, PerSheet(m), i);
            var (page', d) := CellOf(used, PerSheet(m), j);
            page == page' ==> Apart(m, PlaceAt(m, page, c), PlaceAt(m, page', d))
  {
    var (page, c) := CellOf(used, PerSheet(m), i);
    var (page', d) := CellOf(used, PerSheet(m), j);
    PlacesAreDistinct(used, PerSheet(m), i, j);
    if page == page' {
      LabelsDoNotOverlap(m, page, c, d);
    }
  }

  /** A later label is on a later page, or further on on the same one. */
  lemma PlacesIncrease(used: set<int>, perSheet: nat, i: nat, j: nat)
    requires perSheet > 0 && i < j
    ensures var (page, c) := CellOf(used, perSheet, i);
            var (page', d) := CellOf(used, perSheet, j);
            page < page' || (page == page' && c < d)
  {
    FreeIsFree(used, perSheet);
    var free := |Free(used, perSheet)|;
    if i >= free {
      LaterCell(i - free, j - free, perSheet);
    }
  }

  lemma LaterCell(a: nat, b: nat, n: nat)
    requires a < b && n > 0
    ensures a / n < b / n || (a / n == b / n && a % n < b % n)
  {
    assert a == a / n * n + a % n && b == b / n * n + b % n;
    Multiples(b / n, a / n, n);
  }

  lemma Multiples(x: nat, y: nat, n: nat)
    ensures x < y ==> x * n + n <= y * n
  {
    if x < y {
      Scale(x + 1, y, n);
      OneMore(x, n);
    }
  }

  /** A label's corner: its cell's column and row, counted along the rows, times the pitch from the first corner. */
  lemma CornersAreThese(m: Media, used: set<int>, i: nat) returns (row: int, col: nat)
    requires m.cols * m.rows > 0
    ensures m.cols != 0 && PerSheet(m) == m.cols * m.rows
    ensures var p := PlaceOf(m, used, i);
            && (p.page, p.cell) == CellOf(used, m.cols * m.rows, i)
            && p.cell == row * m.cols + col && col < (if m.cols > 0 then m.cols else -m.cols)
            && p.x == m.x0 + col as real * m.pitchX && p.y == m.y0 + row as real * m.pitchY
  {
    assert m.cols != 0;
    var p := PlaceOf(m, used, i);
    row, col := Quo(p.cell, m.cols), Rem(p.cell, m.cols);
    QuoRem(p.cell, m.cols);
  }
}
