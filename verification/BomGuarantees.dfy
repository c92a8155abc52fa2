/** A bill of materials loses nothing, invents nothing and does not depend on the order of its input. */
module BomGuarantees {
  import opened Components
  import opened Ordering
  import opened Bom
  import opened Wrappers

  /**
    A line counts the components of its key and lists their references; blank details come from the first that has
    one.
   */
  lemma LineTells(comps: seq<Component>, ls: seq<BOMLine>, l: BOMLine)
    requires IsBOM(comps, ls) && l in ls
    ensures var cs := Of(comps, LineKey(l));
            && l.quantity == |cs| > 0
            && multiset(l.refs) == multiset(Refs(cs)) && Sorted(l.refs, REF_ORDER)
            && l.manufacturer == FirstOf(cs, MANUFACTURER) && l.supplierSKU == FirstOf(cs, SUPPLIER_SKU)
            && l.libID == FirstOf(cs, LIB_ID) && l.ipn == FirstOf(cs, IPN) && l.description == FirstOf(cs, DESCRIPTION)
  {
    var i :| 0 <= i < |ls| && ls[i] == l;
    assert Groups(comps, ls[i]);
    LineForCounts(LineKey(l), Of(comps, LineKey(l)));
    LineForDetails(LineKey(l), Of(comps, LineKey(l)));
  }

  lemma {:induction false} OfHasKey(comps: seq<Component>, k: Key)
    ensures forall c :: c in Of(comps, k) <==> c in comps && KeyOf(c) == k
    ensures forall c :: multiset(Of(comps, k))[c] == if KeyOf(c) == k then multiset(comps)[c] else 0
  {
    if comps != [] {
      var n := |comps| - 1;
      OfHasKey(comps[..n], k);
      assert comps == comps[..n] + [comps[n]];
    }
  }

  // ---- Quantities sum to the number of components ----

  function Quantities(ls: seq<BOMLine>): nat {
    if ls == [] then 0 else ls[0].quantity + Quantities(ls[1..])
  }

  predicate HasLine(ls: seq<BOMLine>, k: Key) {
    exists i :: 0 <= i < |ls| && LineKey(ls[i]) == k
  }

  /** How many components some line covers. */
  function Covered(comps: seq<Component>, ls: seq<BOMLine>): nat {
    if comps == [] then 0
    else
      var n := |comps| - 1;
      Covered(comps[..n], ls) + if HasLine(ls, KeyOf(comps[n])) then 1 else 0
  }

  lemma {:induction false} CoveredSplit(comps: seq<Component>, ls: seq<BOMLine>)
    requires ls != [] && !HasLine(ls[1..], LineKey(ls[0]))
    ensures Covered(comps, ls) == |Of(comps, LineKey(ls[0]))| + Covered(comps, ls[1..])
  {
    if comps != [] {
      var n := |comps| - 1;
      var k := KeyOf(comps[n]);
      CoveredSplit(comps[..n], ls);
      if HasLine(ls, k) {
        var i :| 0 <= i < |ls| && LineKey(ls[i]) == k;
        assert i > 0 ==> LineKey(ls[1..][i - 1]) == k;
      }
      if HasLine(ls[1..], k) {
        var i :| 0 <= i < |ls[1..]| && LineKey(ls[1..][i]) == k;
        assert LineKey(ls[i + 1]) == k;
      }
    }
  }

  lemma {:induction false} QuantitiesCover(comps: seq<Component>, ls: seq<BOMLine>)
    requires DistinctKeys(ls) && forall i :: 0 <= i < |ls| ==> ls[i].quantity == |Of(comps, LineKey(ls[i]))|
    ensures Quantities(ls) == Covered(comps, ls)
  {
    if ls == [] {
      NothingCovered(comps);
    } else {
      var rest := ls[1..];
      assert forall i :: 0 <= i < |rest| ==> rest[i] == ls[i + 1];
      QuantitiesCover(comps, rest);
      CoveredSplit(comps, ls);
    }
  }

  lemma {:induction false} NothingCovered(comps: seq<Component>)
    ensures Covered(comps, []) == 0
  {
    if comps != [] {
      NothingCovered(comps[..|comps| - 1]);
    }
  }

  lemma {:induction false} AllCovered(comps: seq<Component>, ls: seq<BOMLine>)
    requires forall c :: c in comps ==> HasLine(ls, KeyOf(c))
    ensures Covered(comps, ls) == |comps|
  {
    if comps != [] {
      AllCovered(comps[..|comps| - 1], ls);
    }
  }

  lemma QuantitiesSum(comps: seq<Component>, ls: seq<BOMLine>)
    requires IsBOM(comps, ls)
    ensures Quantities(ls) == |comps|
  {
    forall i | 0 <= i < |ls|
      ensures ls[i].quantity == |Of(comps, LineKey(ls[i]))|
    {
      LineTells(comps, ls, ls[i]);
    }
    QuantitiesCover(comps, ls);
    AllCovered(comps, ls);
  }

  // ---- Order of the input ----

  lemma {:induction false} RefsAppend(a: seq<Component>, b: seq<Component>)
    ensures Refs(a + b) == Refs(a) + Refs(b)
  {
    if b == [] {
      assert a + b == a;
    } else {
      var n := |b| - 1;
      assert (a + b)[..|a + b| - 1] == a + b[..n];
      RefsAppend(a, b[..n]);
    }
  }

  /** Taking one component out of a list takes its reference out. */
  lemma RefsWithout(b: seq<Component>, i: nat) returns (rest: seq<Component>)
    requires i < |b|
    ensures |rest| == |b| - 1
    ensures multiset(b) == multiset(rest) + multiset{b[i]}
    ensures multiset(Refs(b)) == multiset(Refs(rest)) + multiset(Refs([b[i]]))
  {
    rest := b[..i] + b[i + 1..];
    var before, after := b[..i], b[i + 1..];
    assert b == before + [b[i]] + after;
    RefsAppend(before + [b[i]], after);
    RefsAppend(before, [b[i]]);
    RefsAppend(before, after);
  }

  lemma {:induction false} RefsPermute(a: seq<Component>, b: seq<Component>)
    requires multiset(a) == multiset(b)
    ensures multiset(Refs(a)) == multiset(Refs(b))
    decreases |a|
  {
    if a == [] {
      assert |multiset(b)| == |b|;
    } else {
      assert a[0] in multiset(b);
      var i :| 0 <= i < |b| && b[i] == a[0];
      var rest := RefsWithout(a, 0);
      var rest' := RefsWithout(b, i);
      SameWithout(multiset(a), multiset(rest), multiset(rest'), a[0]);
      RefsPermute(rest, rest');
    }
  }

  lemma SameWithout<T>(all: multiset<T>, a: multiset<T>, b: multiset<T>, x: T)
    requires all == a + multiset{x} == b + multiset{x}
    ensures a == b
  {
    assert a == all - multiset{x} && b == all - multiset{x};
  }

  /** Lines that say the same of the same key, references in any arrangement. */
  ghost predicate SameLine(l: BOMLine, l': BOMLine) {
    LineKey(l) == LineKey(l') && l.quantity == l'.quantity && multiset(l.refs) == multiset(l'.refs)
  }

  ghost predicate SameBOM(ls: seq<BOMLine>, ls': seq<BOMLine>) {
    && (forall l :: l in ls ==> exists l' :: l' in ls' && SameLine(l, l'))
    && (forall l' :: l' in ls' ==> exists l :: l in ls && SameLine(l, l'))
  }

  lemma SameKeySameParts(a: seq<Component>, b: seq<Component>, k: Key)
    requires multiset(a) == multiset(b)
    ensures |Of(a, k)| == |Of(b, k)| && multiset(Refs(Of(a, k))) == multiset(Refs(Of(b, k)))
  {
    OfHasKey(a, k);
    OfHasKey(b, k);
    var xs, ys := Of(a, k), Of(b, k);
    assert multiset(xs) == multiset(ys);
    assert |multiset(xs)| == |xs| && |multiset(ys)| == |ys|;
    RefsPermute(xs, ys);
  }

  lemma KeyHasLine(comps: seq<Component>, ls: seq<BOMLine>, k: Key) returns (l: BOMLine)
    requires IsBOM(comps, ls) && Of(comps, k) != []
    ensures l in ls && LineKey(l) == k
  {
    OfHasKey(comps, k);
    var c := Of(comps, k)[0];
    assert c in Of(comps, k);
    var i :| 0 <= i < |ls| && LineKey(ls[i]) == KeyOf(c);
    l := ls[i];
  }

  lemma OneWay(a: seq<Component>, ls: seq<BOMLine>, b: seq<Component>, ls': seq<BOMLine>, l: BOMLine)
      returns (l': BOMLine)
    requires IsBOM(a, ls) && IsBOM(b, ls') && multiset(a) == multiset(b) && l in ls
    ensures l' in ls' && SameLine(l, l')
  {
    LineTells(a, ls, l);
    SameKeySameParts(a, b, LineKey(l));
    l' := KeyHasLine(b, ls', LineKey(l));
    LineTells(b, ls', l');
  }

  /** Whatever order the components come in, the lines carry the same quantities and references. */
  lemma OrderOfInputIsIrrelevant(a: seq<Component>, ls: seq<BOMLine>, b: seq<Component>, ls': seq<BOMLine>)
    requires IsBOM(a, ls) && IsBOM(b, ls') && multiset(a) == multiset(b)
    ensures SameBOM(ls, ls')
  {
    forall l | l in ls
      ensures exists l' :: l' in ls' && SameLine(l, l')
    {
      var l' := OneWay(a, ls, b, ls', l);
    }
    forall l' | l' in ls'
      ensures exists l :: l in ls && SameLine(l, l')
    {
      var l := OneWay(b, ls', a, ls, l');
    }
  }

  // ---- Lines told from the components' own fields ----

  predicate Alike(c: Component, d: Component) {
    c.value == d.value && c.footprint == d.footprint && c.mpn == d.mpn
  }

  /** The components that belong on one line with c, in input order. */
  function LikeOf(comps: seq<Component>, c: Component): seq<Component> {
    if comps == [] then []
    else (if Alike(comps[0], c) then [comps[0]] else []) + LikeOf(comps[1..], c)
  }

  lemma {:induction false} LikeOfAppend(comps: seq<Component>, d: Component, c: Component)
    ensures LikeOf(comps + [d], c) == LikeOf(comps, c) + if Alike(d, c) then [d] else []
  {
    if comps == [] {
      assert ([] + [d])[1..] == [];
    } else {
      assert (comps + [d])[1..] == comps[1..] + [d];
      LikeOfAppend(comps[1..], d, c);
      Assoc(if Alike(comps[0], c) then [comps[0]] else [], LikeOf(comps[1..], c), if Alike(d, c) then [d] else []);
    }
  }

  lemma {:induction false} OfIsLikeOf(comps: seq<Component>, c: Component)
    ensures Of(comps, KeyOf(c)) == LikeOf(comps, c)
  {
    if comps != [] {
      var n := |comps| - 1;
      OfIsLikeOf(comps[..n], c);
      LikeOfAppend(comps[..n], comps[n], c);
      assert comps[..n] + [comps[n]] == comps;
    }
  }

  /** The first that is not blank. */
  function FirstFilled(values: seq<string>): string {
    if values == [] then "" else if values[0] != "" then values[0] else FirstFilled(values[1..])
  }

  lemma {:induction false} FirstOfIsFilled(cs: seq<Component>, pick: Component -> string, values: seq<string>)
    requires |values| == |cs| && forall i :: 0 <= i < |cs| ==> values[i] == pick(cs[i])
    ensures FirstOf(cs, pick) == FirstFilled(values)
  {
    if cs != [] {
      FirstOfIsFilled(cs[1..], pick, values[1..]);
    }
  }

  function Filled(values: seq<string>): seq<string> {
    if values == [] then [] else (if values[0] != "" then [values[0]] else []) + Filled(values[1..])
  }

  lemma {:induction false} FilledAppend(values: seq<string>, v: string)
    ensures Filled(values + [v]) == Filled(values) + if v != "" then [v] else []
  {
    if values == [] {
      assert ([] + [v])[1..] == [];
    } else {
      assert (values + [v])[1..] == values[1..] + [v];
      FilledAppend(values[1..], v);
      Assoc(if values[0] != "" then [values[0]] else [], Filled(values[1..]), if v != "" then [v] else []);
    }
  }

  lemma {:induction false} RefsAreFilled(cs: seq<Component>, refs: seq<string>)
    requires |refs| == |cs| && forall i :: 0 <= i < |cs| ==> refs[i] == cs[i].reference
    ensures Refs(cs) == Filled(refs)
  {
    if cs != [] {
      var n := |cs| - 1;
      RefsAreFilled(cs[..n], refs[..n]);
      FilledAppend(refs[..n], refs[n]);
      assert refs[..n] + [refs[n]] == refs;
    }
  }

  function References(cs: seq<Component>): seq<string> {
    seq(|cs|, i requires 0 <= i < |cs| => cs[i].reference)
  }

  function LibIDs(cs: seq<Component>): seq<string> {
    seq(|cs|, i requires 0 <= i < |cs| => cs[i].libID)
  }

  function Manufacturers(cs: seq<Component>): seq<string> {
    seq(|cs|, i requires 0 <= i < |cs| => cs[i].manufacturer)
  }

  function SupplierSKUs(cs: seq<Component>): seq<string> {
    seq(|cs|, i requires 0 <= i < |cs| => cs[i].supplierSKU)
  }

  function IPNs(cs: seq<Component>): seq<string> {
    seq(|cs|, i requires 0 <= i < |cs| => cs[i].ipn)
  }

  function Descriptions(cs: seq<Component>): seq<string> {
    seq(|cs|, i requires 0 <= i < |cs| => cs[i].description)
  }

  /** A line holds what the components of one value, footprint and part number say, field by field. */
  ghost predicate Holds(l: BOMLine, cs: seq<Component>) {
    && l.quantity == |cs|
    && multiset(l.refs) == multiset(Filled(References(cs)))
    && l.libID == FirstFilled(LibIDs(cs)) && l.manufacturer == FirstFilled(Manufacturers(cs))
    && l.supplierSKU == FirstFilled(SupplierSKUs(cs)) && l.ipn == FirstFilled(IPNs(cs))
    && l.description == FirstFilled(Descriptions(cs))
  }

  lemma LineHolds(cs: seq<Component>, l: BOMLine)
    requires l.quantity == |cs| && multiset(l.refs) == multiset(Refs(cs))
    requires l.manufacturer == FirstOf(cs, MANUFACTURER) && l.supplierSKU == FirstOf(cs, SUPPLIER_SKU)
    requires l.libID == FirstOf(cs, LIB_ID) && l.ipn == FirstOf(cs, IPN) && l.description == FirstOf(cs, DESCRIPTION)
    ensures Holds(l, cs)
  {
    RefsAreFilled(cs, References(cs));
    LibIDIsFilled(cs);
    ManufacturerIsFilled(cs);
    SupplierSKUIsFilled(cs);
    IPNIsFilled(cs);
    DescriptionIsFilled(cs);
  }

  lemma LibIDIsFilled(cs: seq<Component>)
    ensures FirstOf(cs, LIB_ID) == FirstFilled(LibIDs(cs))
  {
    FirstOfIsFilled(cs, LIB_ID, LibIDs(cs));
  }

  lemma ManufacturerIsFilled(cs: seq<Component>)
    ensures FirstOf(cs, MANUFACTURER) == FirstFilled(Manufacturers(cs))
  {
    FirstOfIsFilled(cs, MANUFACTURER, Manufacturers(cs));
  }

  lemma SupplierSKUIsFilled(cs: seq<Component>)
    ensures FirstOf(cs, SUPPLIER_SKU) == FirstFilled(SupplierSKUs(cs))
  {
    FirstOfIsFilled(cs, SUPPLIER_SKU, SupplierSKUs(cs));
  }

  lemma IPNIsFilled(cs: seq<Component>)
    ensures FirstOf(cs, IPN) == FirstFilled(IPNs(cs))
  {
    FirstOfIsFilled(cs, IPN, IPNs(cs));
  }

  lemma DescriptionIsFilled(cs: seq<Component>)
    ensures FirstOf(cs, DESCRIPTION) == FirstFilled(Descriptions(cs))
  {
    FirstOfIsFilled(cs, DESCRIPTION, Descriptions(cs));
  }

  /** Every component is on exactly one line, that of its own value, footprint and part number. */
  lemma EachPartOnItsLine(comps: seq<Component>, ls: seq<BOMLine>, c: Component) returns (i: nat)
    requires IsBOM(comps, ls) && c in comps
    ensures i < |ls| && ls[i].value == c.value && ls[i].footprint == c.footprint && ls[i].mpn == c.mpn
    ensures Holds(ls[i], LikeOf(comps, c))
    ensures forall j :: 0 <= j < |ls| && j != i ==>
              ls[j].value != c.value || ls[j].footprint != c.footprint || ls[j].mpn != c.mpn
  {
    i :| 0 <= i < |ls| && LineKey(ls[i]) == KeyOf(c);
    LineTells(comps, ls, ls[i]);
    OfIsLikeOf(comps, c);
    LineHolds(Of(comps, KeyOf(c)), ls[i]);
    forall j | 0 <= j < |ls| && j != i
      ensures LineKey(ls[j]) != LineKey(ls[i])
    {
    }
  }
}
