/** Negation, and the operators that take a list of values. */
module SearchLaws {
  import opened Options
  import opened StoredType
  import opened SearchSemantics
  import opened SearchSoundness

  /** What a comparison reads a stored value by. */
  predicate ReadsAlike(c: Comparison, d: Comparison) {
    c.kind == d.kind && c.grain == d.grain && c.caseSensitive == d.caseSensitive
  }

  lemma {:induction false} SameKeys(h: Host, vs: seq<Value>, c: Comparison, d: Comparison)
    requires ReadsAlike(c, d)
    ensures KeysOf(h, vs, c) == KeysOf(h, vs, d)
    decreases |vs|
  {
    if vs != [] {
      SameKeys(h, vs[1..], c, d);
    }
  }

  lemma SameMatches(h: Host, stored: Value, op: Op, c: Comparison, d: Comparison)
    requires ReadsAlike(c, d) && Comparable(h, c) == Comparable(h, d)
    ensures Matches(h, stored, op, c) == Matches(h, stored, op, d)
  {
    SameKeys(h, Elements(stored), c, d);
  }

  // ---- negation ----

  lemma SameSpec(h: Host, op: Op, raw: seq<Value>, declared: Declared)
    requires PositiveOf(op).Some?
    ensures ArityOf(op) == ArityOf(PositiveOf(op).value) != NoValue && KindsOf(op) == KindsOf(PositiveOf(op).value)
    ensures ArityOf(op) != PairOfValues && op != WithinLast && PositiveOf(op).value != WithinLast
    ensures ResolveKind(h, op, raw, declared) == ResolveKind(h, PositiveOf(op).value, raw, declared)
  {
  }

  predicate SameButOp(n: Resolved, p: Resolved, op: Op) {
    if p.Ok? then n == Ok(p.c.(op := op)) else n == p
  }

  lemma SameValues(h: Host, op: Op, raw: seq<Value>, kind: Kind, cs: bool, im: bool)
    requires PositiveOf(op).Some? && raw != []
    ensures SameButOp(ResolveValues(h, op, raw, kind, cs, im),
                      ResolveValues(h, PositiveOf(op).value, raw, kind, cs, im), op)
  {
    SameSpec(h, op, raw, Auto);
  }

  lemma NegativeResolvesLikePositive(h: Host, op: Op, v: Value, declared: Declared, cs: bool, im: bool)
    requires PositiveOf(op).Some?
    ensures SameButOp(Resolve(h, op, v, declared, cs, im), Resolve(h, PositiveOf(op).value, v, declared, cs, im), op)
  {
    SameSpec(h, op, [], declared);
    RawIsEnough(ArityOf(op), v);
    var r := RawValues(ArityOf(op), v);
    if r.Raws? {
      SameSpec(h, op, r.values, declared);
      var t := ResolveKind(h, op, r.values, declared);
      if t.TypedAs? {
        SameValues(h, op, r.values, t.kind, cs, im);
      }
    }
  }

  lemma ValuesCarryMissing(h: Host, op: Op, raw: seq<Value>, kind: Kind, cs: bool, im: bool)
    requires raw != [] && (ArityOf(op) == PairOfValues ==> |raw| == 2)
    ensures var r := ResolveValues(h, op, raw, kind, cs, im);
            r.Ok? ==> r.c.includeMissing == im && r.c.op == op
  {
  }

  lemma CarriesMissing(h: Host, op: Op, v: Value, declared: Declared, cs: bool, im: bool)
    requires Resolve(h, op, v, declared, cs, im).Ok?
    ensures Resolve(h, op, v, declared, cs, im).c.includeMissing == im && Resolve(h, op, v, declared, cs, im).c.op == op
  {
    if ArityOf(op) != NoValue {
      RawIsEnough(ArityOf(op), v);
      var raw := RawValues(ArityOf(op), v).values;
      ValuesCarryMissing(h, op, raw, ResolveKind(h, op, raw, declared).kind, cs, im);
    }
  }

  /** The two comparisons, once resolved. */
  lemma Complements(h: Host, stored: Value, n: Comparison, p: Comparison)
    requires PositiveOf(n.op) == Some(p.op) && n == p.(op := n.op)
    ensures Evaluate(h, Null, n) == Sure(n.includeMissing)
    ensures stored != Null ==> Evaluate(h, stored, n) == Not(Evaluate(h, stored, p))
  {
    SameMatches(h, stored, p.op, n, p);
  }

  /**
   A negative operator is the complement of its positive one on every present value, and
   `include_missing` on a missing one.
   */
  lemma NegativeIsComplement(h: Host, op: Op, v: Value, declared: Declared, cs: bool, im: bool, stored: Value)
    requires PositiveOf(op).Some? && Resolve(h, op, v, declared, cs, im).Ok?
    ensures Resolve(h, PositiveOf(op).value, v, declared, cs, im).Ok?
    ensures Evaluate(h, Null, Resolve(h, op, v, declared, cs, im).c) == Sure(im)
    ensures stored != Null ==>
      Evaluate(h, stored, Resolve(h, op, v, declared, cs, im).c)
      == Not(Evaluate(h, stored, Resolve(h, PositiveOf(op).value, v, declared, cs, im).c))
  {
    NegativeResolvesLikePositive(h, op, v, declared, cs, im);
    CarriesMissing(h, op, v, declared, cs, im);
    CarriesMissing(h, PositiveOf(op).value, v, declared, cs, im);
    Complements(h, stored, Resolve(h, op, v, declared, cs, im).c,
                Resolve(h, PositiveOf(op).value, v, declared, cs, im).c);
  }

  // ---- quantifiers ----

  function EqTo(k: Key, kind: Kind, cs: bool, im: bool): Comparison {
    Comparison(Eq, Some(kind), [k], None, cs, im)
  }

  lemma CoerceOne(h: Host, kind: Kind, x: Value)
    ensures CoerceAll(h, kind, [x]) == if Coerce(h, kind, x).Some? then Some([Coerce(h, kind, x).value]) else None
  {
    var r := CoerceAll(h, kind, [x]);
    assert [x][0] == x;
    if r.Some? {
      assert r.value == [r.value[0]];
    }
  }

  lemma OneRaw(op: Op, v: Value)
    requires ArityOf(op) == OneValue && IsScalar(v)
    ensures RawValues(ArityOf(op), v) == Raws([v])
  {
  }

  lemma OneValueResolves(h: Host, op: Op, v: Value, kind: Kind, cs: bool, im: bool, k: Key)
    requires ArityOf(op) == OneValue && kind != KDate && Coerce(h, kind, v) == Some(k)
    requires KindsOf(op) == [KString] ==> k != TextKey("")
    ensures ResolveValues(h, op, [v], kind, cs, im) == Ok(Comparison(op, Some(kind), [k], None, cs, im))
  {
    CoerceOne(h, kind, v);
  }

  /** One scalar under an operator that takes one value, at a kind other than date. */
  lemma OneResolves(h: Host, op: Op, v: Value, declared: Declared, kind: Kind, cs: bool, im: bool, k: Key)
    requires ArityOf(op) == OneValue && IsScalar(v) && declared != UnknownKind
    requires ResolveKind(h, op, [v], declared) == TypedAs(kind) && kind != KDate && Coerce(h, kind, v) == Some(k)
    requires KindsOf(op) == [KString] ==> k != TextKey("")
    ensures Resolve(h, op, v, declared, cs, im) == Ok(Comparison(op, Some(kind), [k], None, cs, im))
  {
    OneRaw(op, v);
    OneValueResolves(h, op, v, kind, cs, im, k);
  }

  lemma EqResolves(h: Host, x: Value, kind: Kind, cs: bool, im: bool, k: Key)
    requires IsScalar(x) && kind != KDate && Coerce(h, kind, x) == Some(k)
    ensures Resolve(h, Eq, x, As(kind), cs, im) == Ok(EqTo(k, kind, cs, im))
  {
    DeclaredKind(h, Eq, [x], kind);
    OneResolves(h, Eq, x, As(kind), kind, cs, im, k);
  }

  lemma DeclaredKind(h: Host, op: Op, raw: seq<Value>, kind: Kind)
    requires kind in KindsOf(op)
    ensures ResolveKind(h, op, raw, As(kind)) == TypedAs(kind)
  {
  }

  lemma EqMeans(h: Host, stored: Value, k: Key, kind: Kind, cs: bool, im: bool, c: Comparison)
    requires HasKind(k, kind) && ReadsAlike(c, EqTo(k, kind, cs, im)) && kind != KDate
    ensures Evaluate(h, stored, EqTo(k, kind, cs, im)) == Sure(Cased(h, k, cs) in KeysOf(h, Elements(stored), c))
  {
    var e := EqTo(k, kind, cs, im);
    SameKeys(h, Elements(stored), c, e);
    WellTypedMeans(h, stored, e);
    var ks := KeysOf(h, Elements(stored), e);
    assert Comparable(h, e)[0] == Cased(h, k, cs);
    if Cased(h, k, cs) in ks {
      var i :| 0 <= i < |ks| && ks[i] == Cased(h, k, cs);
      assert Meets(ks[i], Eq, Comparable(h, e));
    }
  }

  /** What the many-valued operators resolve to. */
  lemma ManyResolves(h: Host, op: Op, v: Value, declared: Declared, cs: bool, im: bool)
    requires ArityOf(op) == ManyValues && Resolve(h, op, v, declared, cs, im).Ok?
    ensures var c := Resolve(h, op, v, declared, cs, im).c;
            var raw := Given(Elements(v));
            && c.kind.Some? && c.kind.value != KDate && c.grain == None && c.caseSensitive == cs
            && AllScalar(raw) && CoerceAll(h, c.kind.value, raw).Some?
            && c.values == Distinct(CoerceAll(h, c.kind.value, raw).value)
  {
    ResolvedIsTyped(h, op, v, declared, cs, im);
  }

  /** Item `i` of the list, as an equality of the kind the whole list is compared as. */
  function ItemEq(h: Host, c: Comparison, x: Value, im: bool): Resolved
    requires c.kind.Some?
  {
    Resolve(h, Eq, x, As(c.kind.value), c.caseSensitive, im)
  }

  ghost predicate ItemMatches(h: Host, stored: Value, c: Comparison, x: Value, im: bool)
    requires c.kind.Some?
  {
    ItemEq(h, c, x, im).Ok? && Evaluate(h, stored, ItemEq(h, c, x, im).c) == Sure(true)
  }

  lemma ItemMeans(h: Host, op: Op, v: Value, declared: Declared, cs: bool, im: bool, stored: Value, i: nat)
    requires ArityOf(op) == ManyValues && Resolve(h, op, v, declared, cs, im).Ok? && i < |Given(Elements(v))|
    ensures var c := Resolve(h, op, v, declared, cs, im).c;
            && c.kind.Some? && ItemEq(h, c, Given(Elements(v))[i], im).Ok?
            && CoerceAll(h, c.kind.value, Given(Elements(v))).Some?
            && (ItemMatches(h, stored, c, Given(Elements(v))[i], im)
                <==> Cased(h, CoerceAll(h, c.kind.value, Given(Elements(v))).value[i], cs)
                     in KeysOf(h, Elements(stored), c))
  {
    ManyResolves(h, op, v, declared, cs, im);
    var c := Resolve(h, op, v, declared, cs, im).c;
    var raw := Given(Elements(v));
    var k := CoerceAll(h, c.kind.value, raw).value[i];
    EqResolves(h, raw[i], c.kind.value, cs, im, k);
    CoercedKind(h, c.kind.value, raw[i]);
    EqMeans(h, stored, k, c.kind.value, cs, im, c);
  }

  lemma ComparableFromItem(h: Host, c: Comparison, coerced: seq<Key>, i: nat)
    requires c.values == Distinct(coerced) && i < |coerced|
    ensures Cased(h, coerced[i], c.caseSensitive) in Comparable(h, c)
  {
    assert coerced[i] in c.values;
    var j :| 0 <= j < |c.values| && c.values[j] == coerced[i];
    assert Comparable(h, c)[j] == Cased(h, coerced[i], c.caseSensitive);
  }

  lemma ItemOfComparable(h: Host, c: Comparison, coerced: seq<Key>, x: Key) returns (i: nat)
    requires c.values == Distinct(coerced) && x in Comparable(h, c)
    ensures i < |coerced| && Cased(h, coerced[i], c.caseSensitive) == x
  {
    var j :| 0 <= j < |c.values| && Comparable(h, c)[j] == x;
    assert c.values[j] in coerced;
    i :| 0 <= i < |coerced| && coerced[i] == c.values[j];
  }

  ghost predicate SomeItemMatches(h: Host, stored: Value, c: Comparison, raw: seq<Value>, im: bool)
    requires c.kind.Some?
  {
    exists i :: 0 <= i < |raw| && ItemMatches(h, stored, c, raw[i], im)
  }

  ghost predicate EveryItemMatches(h: Host, stored: Value, c: Comparison, raw: seq<Value>, im: bool)
    requires c.kind.Some?
  {
    forall i :: 0 <= i < |raw| ==> ItemMatches(h, stored, c, raw[i], im)
  }

  /** Each listed item as an equality: whether it matches is whether its key is stored. */
  ghost predicate ItemsAre(h: Host, stored: Value, c: Comparison, raw: seq<Value>, coerced: seq<Key>, im: bool) {
    && c.kind.Some? && |raw| == |coerced| && c.values == Distinct(coerced)
    && forall i :: 0 <= i < |raw| ==>
         (ItemMatches(h, stored, c, raw[i], im)
          <==> Cased(h, coerced[i], c.caseSensitive) in KeysOf(h, Elements(stored), c))
  }

  lemma ItemsMean(h: Host, op: Op, v: Value, declared: Declared, cs: bool, im: bool, stored: Value)
    returns (coerced: seq<Key>)
    requires ArityOf(op) == ManyValues && Resolve(h, op, v, declared, cs, im).Ok?
    ensures ItemsAre(h, stored, Resolve(h, op, v, declared, cs, im).c, Given(Elements(v)), coerced, im)
  {
    ManyResolves(h, op, v, declared, cs, im);
    var c, raw := Resolve(h, op, v, declared, cs, im).c, Given(Elements(v));
    coerced := CoerceAll(h, c.kind.value, raw).value;
    forall i | 0 <= i < |raw|
      ensures ItemMatches(h, stored, c, raw[i], im)
         <==> Cased(h, coerced[i], c.caseSensitive) in KeysOf(h, Elements(stored), c)
    {
      ItemMeans(h, op, v, declared, cs, im, stored, i);
    }
  }

  lemma SomeStored(h: Host, stored: Value, c: Comparison, raw: seq<Value>, coerced: seq<Key>, im: bool)
    requires ItemsAre(h, stored, c, raw, coerced, im) && Comparable(h, c) != []
    ensures SomeMeets(KeysOf(h, Elements(stored), c), In, Comparable(h, c)) <==> SomeItemMatches(h, stored, c, raw, im)
  {
    var ks := KeysOf(h, Elements(stored), c);
    if SomeMeets(ks, In, Comparable(h, c)) {
      var j :| 0 <= j < |ks| && Meets(ks[j], In, Comparable(h, c));
      var i := ItemOfComparable(h, c, coerced, ks[j]);
      assert ItemMatches(h, stored, c, raw[i], im);
    }
    if SomeItemMatches(h, stored, c, raw, im) {
      var i :| 0 <= i < |raw| && ItemMatches(h, stored, c, raw[i], im);
      ComparableFromItem(h, c, coerced, i);
      var j :| 0 <= j < |ks| && ks[j] == Cased(h, coerced[i], c.caseSensitive);
      assert Meets(ks[j], In, Comparable(h, c));
    }
  }

  lemma EveryStored(h: Host, stored: Value, c: Comparison, raw: seq<Value>, coerced: seq<Key>, im: bool)
    requires ItemsAre(h, stored, c, raw, coerced, im)
    ensures AllIn(Comparable(h, c), KeysOf(h, Elements(stored), c)) <==> EveryItemMatches(h, stored, c, raw, im)
  {
    var ks := KeysOf(h, Elements(stored), c);
    if AllIn(Comparable(h, c), ks) {
      forall i | 0 <= i < |raw| ensures ItemMatches(h, stored, c, raw[i], im) {
        ComparableFromItem(h, c, coerced, i);
      }
    }
    if EveryItemMatches(h, stored, c, raw, im) {
      forall j | 0 <= j < |Comparable(h, c)| ensures Comparable(h, c)[j] in ks {
        var i := ItemOfComparable(h, c, coerced, Comparable(h, c)[j]);
        assert ItemMatches(h, stored, c, raw[i], im);
      }
    }
  }

  /** `in` is "equal to some listed item", each compared as the kind of the whole list. */
  lemma InIsSomeEq(h: Host, v: Value, declared: Declared, cs: bool, im: bool, stored: Value)
    requires Resolve(h, In, v, declared, cs, im).Ok?
    ensures Resolve(h, In, v, declared, cs, im).c.kind.Some?
    ensures Evaluate(h, stored, Resolve(h, In, v, declared, cs, im).c)
         == Sure(SomeItemMatches(h, stored, Resolve(h, In, v, declared, cs, im).c, Given(Elements(v)), im))
  {
    var coerced := ItemsMean(h, In, v, declared, cs, im, stored);
    ResolvedIsTyped(h, In, v, declared, cs, im);
    InMeans(h, stored, Resolve(h, In, v, declared, cs, im).c, Given(Elements(v)), coerced, im);
  }

  lemma InMeans(h: Host, stored: Value, c: Comparison, raw: seq<Value>, coerced: seq<Key>, im: bool)
    requires ItemsAre(h, stored, c, raw, coerced, im) && WellTyped(c) && c.op == In
    ensures Evaluate(h, stored, c) == Sure(SomeItemMatches(h, stored, c, raw, im))
  {
    WellTypedMeans(h, stored, c);
    SomeStored(h, stored, c, raw, coerced, im);
  }

  lemma ContainsAllMeans(h: Host, stored: Value, c: Comparison, raw: seq<Value>, coerced: seq<Key>, im: bool)
    requires ItemsAre(h, stored, c, raw, coerced, im) && WellTyped(c) && c.op == ContainsAll
    ensures Evaluate(h, stored, c) == Sure(EveryItemMatches(h, stored, c, raw, im))
  {
    WellTypedMeans(h, stored, c);
    EveryStored(h, stored, c, raw, coerced, im);
  }

  /** `containsAll` is "equal to every listed item". */
  lemma ContainsAllIsEveryEq(h: Host, v: Value, declared: Declared, cs: bool, im: bool, stored: Value)
    requires Resolve(h, ContainsAll, v, declared, cs, im).Ok?
    ensures Resolve(h, ContainsAll, v, declared, cs, im).c.kind.Some?
    ensures Evaluate(h, stored, Resolve(h, ContainsAll, v, declared, cs, im).c)
         == Sure(EveryItemMatches(h, stored, Resolve(h, ContainsAll, v, declared, cs, im).c, Given(Elements(v)), im))
  {
    var coerced := ItemsMean(h, ContainsAll, v, declared, cs, im, stored);
    ResolvedIsTyped(h, ContainsAll, v, declared, cs, im);
    ContainsAllMeans(h, stored, Resolve(h, ContainsAll, v, declared, cs, im).c, Given(Elements(v)), coerced, im);
  }

  ghost predicate ItemDiffers(h: Host, stored: Value, c: Comparison, x: Value, im: bool)
    requires c.kind.Some?
  {
    && Resolve(h, Neq, x, As(c.kind.value), c.caseSensitive, im).Ok?
    && Evaluate(h, stored, Resolve(h, Neq, x, As(c.kind.value), c.caseSensitive, im).c) == Sure(true)
  }

  ghost predicate EveryItemDiffers(h: Host, stored: Value, c: Comparison, raw: seq<Value>, im: bool)
    requires c.kind.Some?
  {
    forall i :: 0 <= i < |raw| ==> ItemDiffers(h, stored, c, raw[i], im)
  }

  lemma DiffersIsNotMatches(h: Host, stored: Value, c: Comparison, x: Value, im: bool)
    requires c.kind.Some? && stored != Null && ItemEq(h, c, x, im).Ok?
    ensures ItemDiffers(h, stored, c, x, im) <==> !ItemMatches(h, stored, c, x, im)
  {
    var d := As(c.kind.value);
    NegativeResolvesLikePositive(h, Neq, x, d, c.caseSensitive, im);
    NegativeIsComplement(h, Neq, x, d, c.caseSensitive, im, stored);
    ResolvedNeverFaults(h, Eq, x, d, c.caseSensitive, im, stored);
  }

  lemma NoneMatchesAllDiffer(h: Host, stored: Value, c: Comparison, raw: seq<Value>, im: bool)
    requires c.kind.Some? && stored != Null
    requires forall i :: 0 <= i < |raw| ==> ItemEq(h, c, raw[i], im).Ok?
    ensures EveryItemDiffers(h, stored, c, raw, im) <==> !SomeItemMatches(h, stored, c, raw, im)
  {
    forall i | 0 <= i < |raw|
      ensures ItemDiffers(h, stored, c, raw[i], im) <==> !ItemMatches(h, stored, c, raw[i], im)
    {
      DiffersIsNotMatches(h, stored, c, raw[i], im);
    }
  }

  /** `notIn` on a present value is "different from every listed item". */
  lemma NotInIsEveryNeq(h: Host, v: Value, declared: Declared, cs: bool, im: bool, stored: Value)
    requires Resolve(h, NotIn, v, declared, cs, im).Ok? && stored != Null
    ensures Resolve(h, NotIn, v, declared, cs, im).c.kind.Some?
    ensures Evaluate(h, stored, Resolve(h, NotIn, v, declared, cs, im).c)
         == Sure(EveryItemDiffers(h, stored, Resolve(h, NotIn, v, declared, cs, im).c, Given(Elements(v)), im))
  {
    NegativeIsComplement(h, NotIn, v, declared, cs, im, stored);
    NegativeResolvesLikePositive(h, NotIn, v, declared, cs, im);
    InIsSomeEq(h, v, declared, cs, im, stored);
    var c, p := Resolve(h, NotIn, v, declared, cs, im).c, Resolve(h, In, v, declared, cs, im).c;
    var raw := Given(Elements(v));
    forall i | 0 <= i < |raw| ensures ItemEq(h, c, raw[i], im).Ok? {
      ItemMeans(h, NotIn, v, declared, cs, im, stored, i);
    }
    NoneMatchesAllDiffer(h, stored, c, raw, im);
    SameItems(h, stored, c, p, raw, im);
  }

  lemma SameItems(h: Host, stored: Value, c: Comparison, p: Comparison, raw: seq<Value>, im: bool)
    requires c.kind.Some? && ReadsAlike(c, p)
    ensures SomeItemMatches(h, stored, c, raw, im) <==> SomeItemMatches(h, stored, p, raw, im)
  {
    assert forall i :: 0 <= i < |raw| ==>
      (ItemMatches(h, stored, c, raw[i], im) <==> ItemMatches(h, stored, p, raw[i], im));
  }
}
