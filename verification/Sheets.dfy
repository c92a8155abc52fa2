/** The schematic sheet hierarchy (collectSheet, internal/kicad/zip.go). */
module Sheets {
  import opened Components
  import opened Wrappers

  /** What collectSheet takes from a schematic: placed parts, and references to sheets by file key. */
  datatype Item = Symbol(component: Component) | SubSheet(key: string)

  type Sheet = seq<Item>

  /** The files of the zip; None stands for one that cannot be read or parsed. */
  type Files = map<string, Option<Sheet>>

  function Open(files: Files, key: string, stack: set<string>): Option<Sheet> {
    if key in stack || key !in files then None else files[key]
  }

  function Collect(files: Files, key: string, stack: set<string>): seq<Component>
    decreases files.Keys - stack, 0
  {
    match Open(files, key, stack)
    case None => []
    case Some(sheet) => CollectItems(files, sheet, stack + {key})
  }

  function CollectItems(files: Files, items: Sheet, stack: set<string>): seq<Component>
    decreases files.Keys - stack, |items|
  {
    if items == [] then []
    else
      (match items[0]
       case Symbol(c) => [c]
       case SubSheet(child) => Collect(files, child, stack))
      + CollectItems(files, items[1..], stack)
  }

  /** The path set every level of the walk shares. */
  class SheetStack {
    var keys: set<string>

    constructor ()
      ensures keys == {}
    {
      keys := {};
    }
  }

  /** The walk ends on any reference graph, cyclic or not, and leaves the shared set as it found it. */
  method CollectSheet(key: string, files: Files, stack: SheetStack) returns (comps: seq<Component>)
    modifies stack
    ensures stack.keys == old(stack.keys)
    ensures comps == Collect(files, key, old(stack.keys))
    decreases files.Keys - stack.keys
  {
    comps := [];
    if key in stack.keys {
      return;
    }
    if key !in files {
      return;
    }
    if files[key].None? {
      return;
    }
    var items := files[key].value;
    stack.keys := stack.keys + {key};
    ghost var inside := stack.keys;
    for i := 0 to |items|
      invariant stack.keys == inside
      invariant comps + CollectItems(files, items[i..], inside) == CollectItems(files, items, inside)
    {
      assert items[i..][1..] == items[i + 1..];
      ghost var rest := CollectItems(files, items[i + 1..], inside);
      match items[i] {
        case Symbol(c) =>
          assert comps + ([c] + rest) == comps + [c] + rest;
          comps := comps + [c];
        case SubSheet(child) =>
          var more := CollectSheet(child, files, stack);
          assert comps + (more + rest) == comps + more + rest;
          comps := comps + more;
      }
    }
    stack.keys := stack.keys - {key};
  }

  // ---- Reference paths: item positions from the root down to a placed part ----

  type Path = seq<nat>

  predicate Leads(files: Files, key: string, p: Path)
    decreases |p|
  {
    && p != [] && key in files && files[key].Some? && p[0] < |files[key].value|
    && match files[key].value[p[0]]
       case Symbol(_) => |p| == 1
       case SubSheet(child) => Leads(files, child, p[1..])
  }

  function ComponentAt(files: Files, key: string, p: Path): Component
    requires Leads(files, key, p)
    decreases |p|
  {
    match files[key].value[p[0]]
    case Symbol(c) => c
    case SubSheet(child) => ComponentAt(files, child, p[1..])
  }

  /** The files a path goes through, the root first. */
  function Visited(files: Files, key: string, p: Path): seq<string>
    requires Leads(files, key, p)
    decreases |p|
  {
    [key] + match files[key].value[p[0]]
            case Symbol(_) => []
            case SubSheet(child) => Visited(files, child, p[1..])
  }

  ghost predicate Apart(keys: seq<string>, stack: set<string>) {
    && (forall i :: 0 <= i < |keys| ==> keys[i] !in stack)
    && (forall i, j :: 0 <= i < j < |keys| ==> keys[i] != keys[j])
  }

  /** A path that enters no file twice, and none that is already on the stack. */
  ghost predicate Simple(files: Files, key: string, p: Path, stack: set<string>) {
    Leads(files, key, p) && Apart(Visited(files, key, p), stack)
  }

  /** Document order. */
  predicate Before(p: Path, q: Path) {
    q != [] && (p == [] || p[0] < q[0] || (p[0] == q[0] && Before(p[1..], q[1..])))
  }

  // ---- The walk lists the simple paths, each once, in document order ----

  function Under(n: nat, ps: seq<Path>): (r: seq<Path>)
    ensures |r| == |ps| && forall i :: 0 <= i < |ps| ==> r[i] == [n] + ps[i]
  {
    seq(|ps|, i requires 0 <= i < |ps| => [n] + ps[i])
  }

  /** The path of each collected component, by the same walk. */
  function Paths(files: Files, key: string, stack: set<string>): seq<Path>
    decreases files.Keys - stack, 0
  {
    match Open(files, key, stack)
    case None => []
    case Some(sheet) => ItemPaths(files, sheet, 0, stack + {key})
  }

  function ItemPaths(files: Files, items: Sheet, at: nat, stack: set<string>): seq<Path>
    decreases files.Keys - stack, |items|
  {
    if items == [] then []
    else
      (match items[0]
       case Symbol(_) => [[at]]
       case SubSheet(child) => Under(at, Paths(files, child, stack)))
      + ItemPaths(files, items[1..], at + 1, stack)
  }

  /** A path through the items at position `at` and after, guarded by the stack. */
  ghost predicate Enters(files: Files, items: Sheet, at: nat, stack: set<string>, p: Path) {
    && p != [] && at <= p[0] < at + |items|
    && match items[p[0] - at]
       case Symbol(_) => |p| == 1
       case SubSheet(child) => Simple(files, child, p[1..], stack)
  }

  lemma SimpleStep(files: Files, key: string, p: Path, stack: set<string>)
    ensures Simple(files, key, p, stack)
       <==> Open(files, key, stack).Some? && Enters(files, Open(files, key, stack).value, 0, stack + {key}, p)
  {
    if Leads(files, key, p) && files[key].value[p[0]].SubSheet? {
      var child := files[key].value[p[0]].key;
      DistinctCons(key, Visited(files, child, p[1..]), stack);
    } else if Leads(files, key, p) {
      DistinctCons(key, [], stack);
      assert Visited(files, key, p) == [key] + [];
    }
  }

  lemma DistinctCons(k: string, ks: seq<string>, stack: set<string>)
    ensures Apart([k] + ks, stack) <==> k !in stack && Apart(ks, stack + {k})
  {
    var keys := [k] + ks;
    if Apart(keys, stack) {
      forall i | 0 <= i < |ks|
        ensures ks[i] !in stack + {k}
      {
        assert keys[0] != keys[i + 1] == ks[i];
      }
      forall i, j | 0 <= i < j < |ks|
        ensures ks[i] != ks[j]
      {
        assert keys[i + 1] != keys[j + 1];
      }
      assert keys[0] == k;
    }
    if k !in stack && Apart(ks, stack + {k}) {
      ConsApart(k, ks, stack);
    }
  }

  lemma ConsApart(k: string, ks: seq<string>, stack: set<string>)
    requires k !in stack && Apart(ks, stack + {k})
    ensures Apart([k] + ks, stack)
  {
    var keys := [k] + ks;
    forall i | 0 <= i < |keys|
      ensures keys[i] !in stack
      ensures 0 < i ==> keys[i] == ks[i - 1] && keys[i] != k
    {
      assert 0 < i ==> ks[i - 1] !in stack + {k};
    }
    forall i, j | 0 <= i < j < |keys|
      ensures keys[i] != keys[j]
    {
      if i > 0 {
        assert ks[i - 1] != ks[j - 1];
      }
    }
  }

  ghost predicate Increasing(ps: seq<Path>) {
    forall i, j :: 0 <= i < j < |ps| ==> Before(ps[i], ps[j])
  }

  lemma {:induction false} PathsAreSimple(files: Files, key: string, stack: set<string>)
    ensures forall p :: p in Paths(files, key, stack) <==> Simple(files, key, p, stack)
    ensures Increasing(Paths(files, key, stack))
    decreases files.Keys - stack, 0
  {
    forall p
      ensures p in Paths(files, key, stack) <==> Simple(files, key, p, stack)
    {
      SimpleStep(files, key, p, stack);
      if Open(files, key, stack).Some? {
        ItemPathsEnter(files, Open(files, key, stack).value, 0, stack + {key});
      }
    }
    if Open(files, key, stack).Some? {
      ItemPathsEnter(files, Open(files, key, stack).value, 0, stack + {key});
    }
  }

  lemma {:induction false} ItemPathsEnter(files: Files, items: Sheet, at: nat, stack: set<string>)
    ensures forall p :: p in ItemPaths(files, items, at, stack) <==> Enters(files, items, at, stack, p)
    ensures Increasing(ItemPaths(files, items, at, stack))
    decreases files.Keys - stack, |items|
  {
    if items != [] {
      var rest := ItemPaths(files, items[1..], at + 1, stack);
      ItemPathsEnter(files, items[1..], at + 1, stack);
      match items[0]
      case Symbol(_) =>
        OnePath(files, items, at, stack);
        FirstAndRest(files, items, at, stack, [[at]], rest);
      case SubSheet(child) =>
        PathsAreSimple(files, child, stack);
        UnderEnters(files, items, at, stack, Paths(files, child, stack));
        FirstAndRest(files, items, at, stack, Under(at, Paths(files, child, stack)), rest);
    }
  }

  lemma OnePath(files: Files, items: Sheet, at: nat, stack: set<string>)
    requires items != [] && items[0].Symbol?
    ensures forall p :: p in [[at]] <==> Enters(files, items[..1], at, stack, p)
  {
    assert forall p: Path :: p == [at] <==> p != [] && p[0] == at && |p| == 1;
  }

  lemma UnderEnters(files: Files, items: Sheet, at: nat, stack: set<string>, ps: seq<Path>)
    requires items != [] && items[0].SubSheet? && Increasing(ps)
    requires forall p :: p in ps <==> Simple(files, items[0].key, p, stack)
    ensures Increasing(Under(at, ps))
    ensures forall p :: p in Under(at, ps) <==> Enters(files, items[..1], at, stack, p)
  {
    UnderPaths(at, ps);
  }

  lemma UnderPaths(n: nat, ps: seq<Path>)
    requires Increasing(ps)
    ensures Increasing(Under(n, ps))
    ensures forall p :: p in Under(n, ps) <==> p != [] && p[0] == n && p[1..] in ps
  {
    var r := Under(n, ps);
    forall i, j | 0 <= i < j < |r|
      ensures Before(r[i], r[j])
    {
      assert r[i][1..] == ps[i] && r[j][1..] == ps[j];
    }
    forall q | q in ps
      ensures [n] + q in r
    {
      var i :| 0 <= i < |ps| && ps[i] == q;
      assert r[i] == [n] + q;
    }
    forall p | p in r
      ensures p != [] && p[0] == n && p[1..] in ps
    {
      var i :| 0 <= i < |r| && r[i] == p;
      assert p[1..] == ps[i];
    }
    assert forall p: Path :: p != [] && p[0] == n ==> p == [n] + p[1..];
  }

  lemma FirstAndRest(files: Files, items: Sheet, at: nat, stack: set<string>, first: seq<Path>, rest: seq<Path>)
    requires items != []
    requires Increasing(first) && Increasing(rest)
    requires forall p :: p in first <==> Enters(files, items[..1], at, stack, p)
    requires forall p :: p in rest <==> Enters(files, items[1..], at + 1, stack, p)
    ensures forall p :: p in first + rest <==> Enters(files, items, at, stack, p)
    ensures Increasing(first + rest)
  {
    forall i, j | 0 <= i < |first| && 0 <= j < |rest|
      ensures Before(first[i], rest[j])
    {
      assert first[i] in first && rest[j] in rest;
    }
  }

  lemma {:induction false} PathsLocate(files: Files, key: string, stack: set<string>)
    ensures |Paths(files, key, stack)| == |Collect(files, key, stack)|
    ensures forall i :: 0 <= i < |Paths(files, key, stack)| ==>
              && Leads(files, key, Paths(files, key, stack)[i])
              && Collect(files, key, stack)[i] == ComponentAt(files, key, Paths(files, key, stack)[i])
    decreases files.Keys - stack, 0
  {
    if Open(files, key, stack).Some? {
      ItemPathsLocate(files, key, 0, stack + {key});
    }
  }

  lemma {:induction false} ItemPathsLocate(files: Files, key: string, at: nat, stack: set<string>)
    requires key in files && files[key].Some? && at <= |files[key].value|
    ensures var items := files[key].value[at..];
            var ps := ItemPaths(files, items, at, stack);
            var comps := CollectItems(files, items, stack);
            && |ps| == |comps|
            && forall i :: 0 <= i < |ps| ==> Leads(files, key, ps[i]) && comps[i] == ComponentAt(files, key, ps[i])
    decreases files.Keys - stack, |files[key].value| - at
  {
    var items := files[key].value[at..];
    if items != [] {
      assert items[1..] == files[key].value[at + 1..];
      ItemPathsLocate(files, key, at + 1, stack);
      match items[0]
      case Symbol(_) =>
      case SubSheet(child) =>
        PathsLocate(files, child, stack);
        var ps, under := Paths(files, child, stack), Under(at, Paths(files, child, stack));
        forall i | 0 <= i < |under|
          ensures Leads(files, key, under[i])
          ensures ComponentAt(files, key, under[i]) == ComponentAt(files, child, ps[i])
        {
          assert under[i][1..] == ps[i];
        }
    }
  }

  /**
    On any graph, cyclic or not, the walk collects the component at the end of every simple reference path
    from the root, once per path and in document order.
   */
  lemma CollectIsAllSimplePaths(files: Files, root: string)
    ensures var ps, comps := Paths(files, root, {}), Collect(files, root, {});
            && |ps| == |comps|
            && Increasing(ps)
            && (forall p :: p in ps <==> Simple(files, root, p, {}))
            && (forall i :: 0 <= i < |ps| ==> Leads(files, root, ps[i]) && comps[i] == ComponentAt(files, root, ps[i]))
  {
    PathsAreSimple(files, root, {});
    PathsLocate(files, root, {});
  }

  /** Document order is strict, so increasing paths are all different. */
  lemma {:induction false} BeforeIsStrict(p: Path)
    ensures !Before(p, p)
  {
    if p != [] {
      BeforeIsStrict(p[1..]);
    }
  }

  // ---- Without cycles the guard never shows ----

  /** Every reference leads to a file of lower rank: the hierarchy has no cycle. */
  ghost predicate Acyclic(files: Files, rank: string -> nat) {
    forall k, i :: k in files && files[k].Some? && 0 <= i < |files[k].value| && files[k].value[i].SubSheet? ==>
      rank(files[k].value[i].key) < rank(k)
  }

  ghost predicate Descending(rank: string -> nat, keys: seq<string>) {
    forall i, j :: 0 <= i < j < |keys| ==> rank(keys[j]) < rank(keys[i])
  }

  lemma DescendingCons(rank: string -> nat, k: string, ks: seq<string>)
    requires Descending(rank, ks) && (ks != [] ==> rank(ks[0]) < rank(k))
    ensures Descending(rank, [k] + ks)
  {
  }

  lemma {:induction false} PathsDescend(files: Files, rank: string -> nat, key: string, p: Path)
    requires Acyclic(files, rank) && Leads(files, key, p)
    ensures Descending(rank, Visited(files, key, p)) && Visited(files, key, p)[0] == key
    decreases |p|
  {
    if files[key].value[p[0]].SubSheet? {
      var child := files[key].value[p[0]].key;
      PathsDescend(files, rank, child, p[1..]);
      DescendingCons(rank, key, Visited(files, child, p[1..]));
    }
  }

  /** On an acyclic hierarchy a component appears once for every reference path to it. */
  lemma AcyclicCollectsEveryPath(files: Files, rank: string -> nat, root: string)
    requires Acyclic(files, rank)
    ensures forall p :: p in Paths(files, root, {}) <==> Leads(files, root, p)
    ensures |Paths(files, root, {})| == |Collect(files, root, {})|
  {
    CollectIsAllSimplePaths(files, root);
    forall p | Leads(files, root, p)
      ensures Simple(files, root, p, {})
    {
      PathsDescend(files, rank, root, p);
    }
  }

  /** The hierarchy unrolled with no guard at all. */
  ghost function Unroll(files: Files, rank: string -> nat, key: string): seq<Component>
    requires Acyclic(files, rank)
    decreases rank(key), 1, 0
  {
    if key in files && files[key].Some? then UnrollItems(files, rank, key, 0) else []
  }

  ghost function UnrollItems(files: Files, rank: string -> nat, key: string, at: nat): seq<Component>
    requires Acyclic(files, rank) && key in files && files[key].Some? && at <= |files[key].value|
    decreases rank(key), 0, |files[key].value| - at
  {
    if at == |files[key].value| then []
    else
      (match files[key].value[at]
       case Symbol(c) => [c]
       case SubSheet(child) => Unroll(files, rank, child))
      + UnrollItems(files, rank, key, at + 1)
  }

  lemma {:induction false} GuardIsInvisible(files: Files, rank: string -> nat, key: string, stack: set<string>)
    requires Acyclic(files, rank)
    requires forall k :: k in stack ==> rank(key) < rank(k)
    ensures Collect(files, key, stack) == Unroll(files, rank, key)
    decreases rank(key), 1, 0
  {
    if key in files && files[key].Some? {
      assert key !in stack;
      ItemsGuardIsInvisible(files, rank, key, 0, stack + {key});
      assert files[key].value[0..] == files[key].value;
    }
  }

  lemma {:induction false} ItemsGuardIsInvisible(
    files: Files, rank: string -> nat, key: string, at: nat, stack: set<string>)
    requires Acyclic(files, rank) && key in files && files[key].Some? && at <= |files[key].value|
    requires forall k :: k in stack ==> rank(key) <= rank(k)
    ensures CollectItems(files, files[key].value[at..], stack) == UnrollItems(files, rank, key, at)
    decreases rank(key), 0, |files[key].value| - at
  {
    var items := files[key].value[at..];
    if items != [] {
      assert items[1..] == files[key].value[at + 1..];
      ItemsGuardIsInvisible(files, rank, key, at + 1, stack);
      if items[0].SubSheet? {
        GuardIsInvisible(files, rank, items[0].key, stack);
      }
    }
  }
}
