/** Ranges and order. */
module SearchRanges {
  import opened Options
  import opened Texts
  import opened IsoDates
  import opened StoredType
  import opened SearchSemantics
  import opened SearchSoundness
  import opened SearchLaws

  // ---- between ----

  lemma KeyTotal(a: Key, b: Key, kind: Kind)
    requires HasKind(a, kind) && HasKind(b, kind)
    ensures KeyLess(a, b) || KeyLess(b, a) || a == b
    ensures !(KeyLess(a, b) && KeyLess(b, a))
  {
    match kind
    case KString => LexTotal(a.s, b.s);
    case KDate => LexTotal(a.iso, b.iso);
    case KNumber =>
    case KBoolean =>
  }

  lemma OrderedEitherWay(h: Host, a: Key, b: Key, kind: Kind, cs: bool)
    requires HasKind(a, kind) && HasKind(b, kind)
    ensures CasedAll(h, Ordered(h, [a, b], cs), cs) == CasedAll(h, Ordered(h, [b, a], cs), cs)
  {
    KeyTotal(Cased(h, a, cs), Cased(h, b, cs), kind);
    var x, y := CasedAll(h, Ordered(h, [a, b], cs), cs), CasedAll(h, Ordered(h, [b, a], cs), cs);
    assert x[0] == y[0] && x[1] == y[1];
  }

  lemma SameTextSameDate(u: UserDate, v: UserDate)
    requires ValidDate(u) && ValidDate(v) && DateText(u) == DateText(v)
    ensures u == v
  {
    assert (u.OnDay? <==> |DateText(u)| == 10) && (v.OnDay? <==> |DateText(v)| == 10);
    if u.OnDay? {
      IsoDayOrder(u.day, v.day);
    } else {
      IsoOrderIsTimeOrder(u.stamp, v.stamp);
    }
  }

  lemma PairDatesEitherWay(u: UserDate, v: UserDate)
    requires ValidDate(u) && ValidDate(v)
    ensures PairDates(u, v) == PairDates(v, u)
  {
    LexTotal(DateText(u), DateText(v));
    if DateText(u) == DateText(v) {
      SameTextSameDate(u, v);
    }
  }

  lemma CoerceTwo(h: Host, kind: Kind, a: Value, b: Value)
    ensures CoerceAll(h, kind, [a, b])
         == if Coerce(h, kind, a).Some? && Coerce(h, kind, b).Some?
            then Some([Coerce(h, kind, a).value, Coerce(h, kind, b).value]) else None
  {
    var r := CoerceAll(h, kind, [a, b]);
    assert [a, b][0] == a && [a, b][1] == b;
    if r.Some? {
      assert r.value == [r.value[0], r.value[1]];
    }
  }

  /** The same outcome, and on success the same reading and the same bounds. */
  predicate SameRange(h: Host, r: Resolved, s: Resolved) {
    (r.Ok? <==> s.Ok?) &&
    (r.Ok? ==> r.c.op == s.c.op == Between && ReadsAlike(r.c, s.c) && Comparable(h, r.c) == Comparable(h, s.c))
  }

  lemma RangeOrdered(h: Host, a: Value, b: Value, kind: Kind, cs: bool, im: bool, x: Key, y: Key)
    requires kind != KDate && Coerce(h, kind, a) == Some(x) && Coerce(h, kind, b) == Some(y)
    ensures ResolveValues(h, Between, [a, b], kind, cs, im)
         == Ok(Comparison(Between, Some(kind), Ordered(h, [x, y], cs), None, cs, im))
  {
    CoerceTwo(h, kind, a, b);
  }

  lemma RangeUnreadable(h: Host, a: Value, b: Value, kind: Kind, cs: bool, im: bool)
    requires kind != KDate && (Coerce(h, kind, a).None? || Coerce(h, kind, b).None?)
    ensures ResolveValues(h, Between, [a, b], kind, cs, im).Err?
  {
    CoerceTwo(h, kind, a, b);
  }

  lemma RangeValues(h: Host, a: Value, b: Value, kind: Kind, cs: bool, im: bool)
    requires kind != KDate
    ensures SameRange(h, ResolveValues(h, Between, [a, b], kind, cs, im),
                      ResolveValues(h, Between, [b, a], kind, cs, im))
  {
    if Coerce(h, kind, a).Some? && Coerce(h, kind, b).Some? {
      var x, y := Coerce(h, kind, a).value, Coerce(h, kind, b).value;
      RangeOrdered(h, a, b, kind, cs, im, x, y);
      RangeOrdered(h, b, a, kind, cs, im, y, x);
      CoercedKind(h, kind, a);
      CoercedKind(h, kind, b);
      OrderedEitherWay(h, x, y, kind, cs);
    } else {
      RangeUnreadable(h, a, b, kind, cs, im);
      RangeUnreadable(h, b, a, kind, cs, im);
    }
  }

  lemma RangeDates(h: Host, a: Value, b: Value, cs: bool, im: bool)
    ensures SameRange(h, ResolveValues(h, Between, [a, b], KDate, cs, im),
                      ResolveValues(h, Between, [b, a], KDate, cs, im))
  {
    if UserDateOf(h, a).Some? && UserDateOf(h, b).Some? {
      PairDatesEitherWay(UserDateOf(h, a).value, UserDateOf(h, b).value);
    }
  }

  lemma SameKindEitherWay(h: Host, a: Value, b: Value, declared: Declared)
    ensures ResolveKind(h, Between, [a, b], declared) == ResolveKind(h, Between, [b, a], declared)
  {
    var x, y := [a, b], [b, a];
    assert x[0] == y[1] && x[1] == y[0];
  }

  lemma RawPair(a: Value, b: Value)
    ensures RawValues(PairOfValues, List([a, b]))
         == if !IsGiven(a) || !IsGiven(b) then BadRaw(PairMissing)
            else if !IsScalar(a) || !IsScalar(b) then BadRaw(NotSingle) else Raws([a, b])
  {
    assert List([a, b]).items[0] == a && List([a, b]).items[1] == b;
    assert AllScalar([a, b]) <==> IsScalar(a) && IsScalar(b);
  }

  function ResolvePair(h: Host, a: Value, b: Value, declared: Declared, cs: bool, im: bool): Resolved {
    match ResolveKind(h, Between, [a, b], declared)
    case BadType(p) => Err(p)
    case TypedAs(kind) => ResolveValues(h, Between, [a, b], kind, cs, im)
  }

  lemma PairResolves(h: Host, a: Value, b: Value, declared: Declared, cs: bool, im: bool)
    ensures Resolve(h, Between, List([a, b]), declared, cs, im)
         == if declared == UnknownKind then Err(NotAType)
            else if !IsGiven(a) || !IsGiven(b) then Err(PairMissing)
            else if !IsScalar(a) || !IsScalar(b) then Err(NotSingle) else ResolvePair(h, a, b, declared, cs, im)
  {
    RawPair(a, b);
  }

  lemma PairEitherWay(h: Host, a: Value, b: Value, declared: Declared, cs: bool, im: bool)
    ensures SameRange(h, ResolvePair(h, a, b, declared, cs, im), ResolvePair(h, b, a, declared, cs, im))
  {
    SameKindEitherWay(h, a, b, declared);
    var t := ResolveKind(h, Between, [a, b], declared);
    if t.TypedAs? {
      if t.kind == KDate {
        RangeDates(h, a, b, cs, im);
      } else {
        RangeValues(h, a, b, t.kind, cs, im);
      }
    }
  }

  lemma RangeResolvesEitherWay(h: Host, a: Value, b: Value, declared: Declared, cs: bool, im: bool)
    ensures SameRange(h, Resolve(h, Between, List([a, b]), declared, cs, im),
                      Resolve(h, Between, List([b, a]), declared, cs, im))
  {
    PairResolves(h, a, b, declared, cs, im);
    PairResolves(h, b, a, declared, cs, im);
    PairEitherWay(h, a, b, declared, cs, im);
  }

  /** `between` does not care which bound comes first. */
  lemma BetweenIgnoresOrder(h: Host, a: Value, b: Value, declared: Declared, cs: bool, im: bool, stored: Value)
    ensures Resolve(h, Between, List([a, b]), declared, cs, im).Ok?
       <==> Resolve(h, Between, List([b, a]), declared, cs, im).Ok?
    ensures Resolve(h, Between, List([a, b]), declared, cs, im).Ok? ==>
      Evaluate(h, stored, Resolve(h, Between, List([a, b]), declared, cs, im).c)
      == Evaluate(h, stored, Resolve(h, Between, List([b, a]), declared, cs, im).c)
  {
    RangeResolvesEitherWay(h, a, b, declared, cs, im);
    if Resolve(h, Between, List([a, b]), declared, cs, im).Ok? {
      SameMatches(h, stored, Between, Resolve(h, Between, List([a, b]), declared, cs, im).c,
                  Resolve(h, Between, List([b, a]), declared, cs, im).c);
    }
  }

  /** One end of a range, as a comparison of its own. */
  function AtLeast(c: Comparison): Comparison
    requires |c.values| == 2
  {
    c.(op := Gte, values := [c.values[0]])
  }

  function AtMost(c: Comparison): Comparison
    requires |c.values| == 2
  {
    c.(op := Lte, values := [c.values[1]])
  }

  /** A comparison that reads as `c` does, in terms of the keys `c` reads. */
  lemma MeansOnKeys(h: Host, stored: Value, c: Comparison, d: Comparison)
    requires WellTyped(d) && ReadsAlike(c, d) && (d.op == Gte || d.op == Lte || d.op == Between)
    ensures Comparable(h, d) != []
    ensures Evaluate(h, stored, d) == Sure(SomeMeets(KeysOf(h, Elements(stored), c), d.op, Comparable(h, d)))
  {
    SameKeys(h, Elements(stored), c, d);
    WellTypedMeans(h, stored, d);
  }

  lemma BothEndsMeet(h: Host, c: Comparison, k: Key)
    requires |c.values| == 2
    ensures Comparable(h, c) != [] && Comparable(h, AtLeast(c)) != [] && Comparable(h, AtMost(c)) != []
    ensures Meets(k, Between, Comparable(h, c))
       <==> Meets(k, Gte, Comparable(h, AtLeast(c))) && Meets(k, Lte, Comparable(h, AtMost(c)))
  {
    assert Comparable(h, AtLeast(c))[0] == Comparable(h, c)[0];
    assert Comparable(h, AtMost(c))[0] == Comparable(h, c)[1];
  }

  lemma OneKey(h: Host, stored: Value, c: Comparison)
    requires !stored.List?
    ensures |KeysOf(h, Elements(stored), c)| <= 1
  {
    assert Elements(stored)[1..] == [];
  }

  lemma SomeMeetsBoth(h: Host, ks: seq<Key>, c: Comparison)
    requires |c.values| == 2
    ensures Comparable(h, c) != [] && Comparable(h, AtLeast(c)) != [] && Comparable(h, AtMost(c)) != []
    ensures SomeMeets(ks, Between, Comparable(h, c)) ==>
      SomeMeets(ks, Gte, Comparable(h, AtLeast(c))) && SomeMeets(ks, Lte, Comparable(h, AtMost(c)))
    ensures |ks| <= 1 ==>
      SomeMeets(ks, Gte, Comparable(h, AtLeast(c))) && SomeMeets(ks, Lte, Comparable(h, AtMost(c))) ==>
        SomeMeets(ks, Between, Comparable(h, c))
  {
    forall k
      ensures Comparable(h, c) != [] && Comparable(h, AtLeast(c)) != [] && Comparable(h, AtMost(c)) != []
      ensures Meets(k, Between, Comparable(h, c))
         <==> Meets(k, Gte, Comparable(h, AtLeast(c))) && Meets(k, Lte, Comparable(h, AtMost(c)))
    {
      BothEndsMeet(h, c, k);
    }
    assert |Comparable(h, c)| == 2 && |Comparable(h, AtLeast(c))| == 1 && |Comparable(h, AtMost(c))| == 1;
  }

  /** On a single value `between` is both of its ends; on a list it implies them. */
  lemma BetweenIsBothEnds(h: Host, stored: Value, c: Comparison)
    requires WellTyped(c) && c.op == Between
    ensures Evaluate(h, stored, c) == Sure(true) ==>
      Evaluate(h, stored, AtLeast(c)) == Sure(true) && Evaluate(h, stored, AtMost(c)) == Sure(true)
    ensures !stored.List? ==>
      Evaluate(h, stored, c)
      == Sure(Evaluate(h, stored, AtLeast(c)) == Sure(true) && Evaluate(h, stored, AtMost(c)) == Sure(true))
  {
    MeansOnKeys(h, stored, c, c);
    MeansOnKeys(h, stored, c, AtLeast(c));
    MeansOnKeys(h, stored, c, AtMost(c));
    SomeMeetsBoth(h, KeysOf(h, Elements(stored), c), c);
    if !stored.List? {
      OneKey(h, stored, c);
    }
  }

  function NumberRange(lo: real, hi: real): Comparison {
    Comparison(Between, Some(KNumber), [NumberKey(Exactly(lo)), NumberKey(Exactly(hi))], None, false, false)
  }

  lemma TwoIntegers(h: Host, a: int, b: int, c: Comparison)
    requires c.kind == Some(KNumber)
    ensures KeysOf(h, [Int(a), Int(b)], c) == [NumberKey(Exactly(a as real)), NumberKey(Exactly(b as real))]
  {
    assert [Int(a), Int(b)][1..] == [Int(b)] && [Int(b)][1..] == [];
    assert KeysOf(h, [Int(b)], c) == [NumberKey(Exactly(b as real))] + KeysOf(h, [], c);
  }

  lemma OneAndTenReach(h: Host, ks: seq<Key>)
    requires ks == [NumberKey(Exactly(1.0)), NumberKey(Exactly(10.0))]
    ensures var c := NumberRange(4.0, 6.0);
            && Comparable(h, c) != [] && Comparable(h, AtLeast(c)) != [] && Comparable(h, AtMost(c)) != []
            && SomeMeets(ks, Gte, Comparable(h, AtLeast(c))) && SomeMeets(ks, Lte, Comparable(h, AtMost(c)))
            && !SomeMeets(ks, Between, Comparable(h, c))
  {
    var c := NumberRange(4.0, 6.0);
    assert Meets(ks[1], Gte, Comparable(h, AtLeast(c))) && Meets(ks[0], Lte, Comparable(h, AtMost(c)));
  }

  /** And on a list only that: 1 and 10 reach both ends of 4..6, and neither lies between. */
  lemma ListEndsAreNotBetween(h: Host)
    ensures Evaluate(h, List([Int(1), Int(10)]), AtLeast(NumberRange(4.0, 6.0))) == Sure(true)
    ensures Evaluate(h, List([Int(1), Int(10)]), AtMost(NumberRange(4.0, 6.0))) == Sure(true)
    ensures Evaluate(h, List([Int(1), Int(10)]), NumberRange(4.0, 6.0)) == Sure(false)
  {
    var c, stored := NumberRange(4.0, 6.0), List([Int(1), Int(10)]);
    TwoIntegers(h, 1, 10, c);
    OneAndTenReach(h, KeysOf(h, Elements(stored), c));
    MeansOnKeys(h, stored, c, c);
    MeansOnKeys(h, stored, c, AtLeast(c));
    MeansOnKeys(h, stored, c, AtMost(c));
  }

  // ---- order ----

  /** The comparison with one value under another operator. */
  function Under(c: Comparison, op: Op): Comparison {
    c.(op := op)
  }

  lemma SingleMeans(h: Host, stored: Value, c: Comparison, k: Key, op: Op)
    requires c.kind.Some? && |c.values| == 1 && AllOfKind(c.values, c.kind.value) && c.kind.value in KindsOf(op)
    requires !stored.List? && KeyOf(h, stored, c) == Some(k)
    requires op == Eq || op == Lt || op == Gt || op == Lte || op == Gte
    ensures Comparable(h, c) != []
    ensures Evaluate(h, stored, Under(c, op)) == Sure(Meets(k, op, Comparable(h, c)))
  {
    var d := Under(c, op);
    WellTypedMeans(h, stored, d);
    SameKeys(h, Elements(stored), c, d);
    var ks := KeysOf(h, Elements(stored), c);
    assert Elements(stored)[1..] == [];
    assert ks == [k] + KeysOf(h, [], c);
    assert Comparable(h, d) == Comparable(h, c);
    assert ks[0] == k;
  }

  /** Whether the stored value compares so. */
  predicate Says(h: Host, stored: Value, c: Comparison, op: Op) {
    Evaluate(h, stored, Under(c, op)) == Sure(true)
  }

  /** On one readable value exactly one of less, equal and greater holds. */
  lemma OrderIsTotal(h: Host, stored: Value, c: Comparison, k: Key)
    requires c.kind.Some? && c.kind.value in KindsOf(Lt) && |c.values| == 1 && AllOfKind(c.values, c.kind.value)
    requires !stored.List? && KeyOf(h, stored, c) == Some(k)
    ensures Says(h, stored, c, Lt) || Says(h, stored, c, Eq) || Says(h, stored, c, Gt)
    ensures !(Says(h, stored, c, Lt) && Says(h, stored, c, Eq)) && !(Says(h, stored, c, Eq) && Says(h, stored, c, Gt))
    ensures !(Says(h, stored, c, Lt) && Says(h, stored, c, Gt))
  {
    SingleMeans(h, stored, c, k, Lt);
    SingleMeans(h, stored, c, k, Eq);
    SingleMeans(h, stored, c, k, Gt);
    StoredKind(h, stored, c);
    ComparableKinds(h, c, c.kind.value);
    OneOfThree(k, Comparable(h, c), c.kind.value);
  }

  /** The two weak orders are the complements of the strict ones. */
  lemma WeakOrders(h: Host, stored: Value, c: Comparison, k: Key)
    requires c.kind.Some? && c.kind.value in KindsOf(Lt) && |c.values| == 1 && AllOfKind(c.values, c.kind.value)
    requires !stored.List? && KeyOf(h, stored, c) == Some(k)
    ensures Evaluate(h, stored, Under(c, Gte)) == Not(Evaluate(h, stored, Under(c, Lt)))
    ensures Evaluate(h, stored, Under(c, Lte)) == Not(Evaluate(h, stored, Under(c, Gt)))
  {
    SingleMeans(h, stored, c, k, Lt);
    SingleMeans(h, stored, c, k, Gt);
    SingleMeans(h, stored, c, k, Lte);
    SingleMeans(h, stored, c, k, Gte);
  }

  lemma OneOfThree(k: Key, vs: seq<Key>, kind: Kind)
    requires vs != [] && HasKind(k, kind) && AllOfKind(vs, kind)
    ensures Meets(k, Lt, vs) || Meets(k, Eq, vs) || Meets(k, Gt, vs)
    ensures !(Meets(k, Lt, vs) && Meets(k, Eq, vs)) && !(Meets(k, Eq, vs) && Meets(k, Gt, vs))
    ensures !(Meets(k, Lt, vs) && Meets(k, Gt, vs))
    ensures (Meets(k, Gte, vs) <==> !Meets(k, Lt, vs)) && (Meets(k, Lte, vs) <==> !Meets(k, Gt, vs))
  {
    KeyTotal(k, vs[0], kind);
    NeverBelowItself(k);
  }

  lemma NeverBelowItself(k: Key)
    ensures !KeyLess(k, k)
  {
    match k
    case TextKey(s) => LexIrreflexive(s);
    case DateKey(s) => LexIrreflexive(s);
    case NumberKey(_) =>
    case TruthKey(_) =>
  }
}
