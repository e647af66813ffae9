/** Whatever resolves can be evaluated, and its answer is the declarative one. */
module SearchSoundness {
  import opened Options
  import opened IsoDates
  import opened StoredType
  import opened SearchSemantics

  // ---- what a comparison says, without running it ----

  predicate Meets(k: Key, op: Op, values: seq<Key>)
    requires values != []
  {
    match op
    case Eq => k == values[0]
    case In => k in values
    case Gt => KeyLess(values[0], k)
    case Gte => !KeyLess(k, values[0])
    case Lt => KeyLess(k, values[0])
    case Lte => !KeyLess(values[0], k)
    case Between | WithinLast => !KeyLess(k, values[0]) && |values| >= 2 && !KeyLess(values[1], k)
    case Contains => k.TextKey? && values[0].TextKey? && Occurs(values[0].s, k.s)
    case StartsWith => k.TextKey? && values[0].TextKey? && Begins(values[0].s, k.s)
    case EndsWith => k.TextKey? && values[0].TextKey? && Ends(values[0].s, k.s)
    case _ => false
  }

  ghost predicate SomeMeets(ks: seq<Key>, op: Op, values: seq<Key>)
    requires values != []
  {
    exists i :: 0 <= i < |ks| && Meets(ks[i], op, values)
  }

  ghost predicate AllIn(values: seq<Key>, ks: seq<Key>) {
    forall i :: 0 <= i < |values| ==> values[i] in ks
  }

  ghost predicate Positively(h: Host, stored: Value, op: Op, c: Comparison)
    requires c.values != []
  {
    var ks := KeysOf(h, Elements(stored), c);
    if op == ContainsAll then AllIn(Comparable(h, c), ks) else SomeMeets(ks, op, Comparable(h, c))
  }

  predicate IsPresence(op: Op) {
    op == IsSet || op == IsNotSet || op == IsEmpty || op == IsNotEmpty
  }

  /** The meaning of a comparison on a stored value. */
  ghost predicate Holds(h: Host, stored: Value, c: Comparison)
    requires c.values != [] || IsPresence(c.op)
  {
    match c.op
    case IsSet => stored != Null
    case IsNotSet => stored == Null
    case IsEmpty => IsVoid(stored)
    case IsNotEmpty => !IsVoid(stored)
    case Neq | NotIn | NotContains =>
      if stored == Null then c.includeMissing else !Positively(h, stored, PositiveOf(c.op).value, c)
    case _ => Positively(h, stored, c.op, c)
  }

  // ---- typing ----

  predicate AllOfKind(ks: seq<Key>, kind: Kind) {
    forall i :: 0 <= i < |ks| ==> HasKind(ks[i], kind)
  }

  predicate NeedsTwo(op: Op) {
    op == Between || op == WithinLast
  }

  /** One kind the operator compares as, values of that kind, and as many as it needs. */
  predicate WellTyped(c: Comparison) {
    c.op != UnknownOp &&
    (ArityOf(c.op) != NoValue ==>
       && c.kind.Some? && c.kind.value in KindsOf(c.op)
       && c.values != [] && (NeedsTwo(c.op) ==> |c.values| == 2)
       && AllOfKind(c.values, c.kind.value))
  }

  lemma CoercedKind(h: Host, kind: Kind, v: Value)
    ensures Coerce(h, kind, v).Some? ==> HasKind(Coerce(h, kind, v).value, kind)
  {
  }

  lemma CoercedKinds(h: Host, kind: Kind, vs: seq<Value>)
    ensures CoerceAll(h, kind, vs).Some? ==> AllOfKind(CoerceAll(h, kind, vs).value, kind)
  {
    forall i | 0 <= i < |vs| ensures Coerce(h, kind, vs[i]).Some? ==> HasKind(Coerce(h, kind, vs[i]).value, kind) {
      CoercedKind(h, kind, vs[i]);
    }
  }

  lemma DistinctKinds(ks: seq<Key>, kind: Kind)
    requires AllOfKind(ks, kind)
    ensures AllOfKind(Distinct(ks), kind) && (ks != [] ==> Distinct(ks) != [])
  {
    forall i | 0 <= i < |Distinct(ks)| ensures HasKind(Distinct(ks)[i], kind) {
      assert Distinct(ks)[i] in ks;
    }
    if ks != [] {
      assert ks[0] in Distinct(ks);
    }
  }

  lemma KindIsAllowed(h: Host, op: Op, raw: seq<Value>, declared: Declared)
    requires ArityOf(op) != NoValue
    ensures ResolveKind(h, op, raw, declared).TypedAs? ==> ResolveKind(h, op, raw, declared).kind in KindsOf(op)
    ensures op == WithinLast ==> ResolveKind(h, op, raw, declared) == TypedAs(KDate)
  {
  }

  lemma DatesAreTyped(h: Host, op: Op, raw: seq<Value>)
    requires raw != [] && ResolveDates(h, op, raw).Some?
    requires op == Between ==> |raw| == 2
    ensures var ds := ResolveDates(h, op, raw).value;
            ds.keys != [] && (NeedsTwo(op) ==> |ds.keys| == 2) && AllOfKind(DateKeys(ds.keys), KDate)
  {
  }

  lemma DateValuesAreTyped(h: Host, op: Op, raw: seq<Value>, cs: bool, im: bool)
    requires raw != [] && (ArityOf(op) == PairOfValues ==> |raw| == 2)
    requires ArityOf(op) != NoValue && KDate in KindsOf(op)
    ensures ResolveValues(h, op, raw, KDate, cs, im).Ok? ==> WellTyped(ResolveValues(h, op, raw, KDate, cs, im).c)
  {
    var ds := ResolveDates(h, op, raw);
    if ds.Some? {
      DatesAreTyped(h, op, raw);
      TypedDates(op, ds.value, im);
      assert ResolveValues(h, op, raw, KDate, cs, im)
          == Ok(Comparison(op, Some(KDate), DateKeys(ds.value.keys), Some(ds.value.grain), false, im));
    }
  }

  lemma TypedDates(op: Op, ds: Dates, im: bool)
    requires ArityOf(op) != NoValue && KDate in KindsOf(op) && ds.keys != [] && (NeedsTwo(op) ==> |ds.keys| == 2)
    ensures WellTyped(Comparison(op, Some(KDate), DateKeys(ds.keys), Some(ds.grain), false, im))
  {
  }

  lemma ArrangedKinds(h: Host, op: Op, values: seq<Key>, kind: Kind, cs: bool)
    requires AllOfKind(values, kind) && values != [] && (ArityOf(op) == PairOfValues ==> |values| == 2)
    ensures var vs := Arranged(h, op, values, cs);
            AllOfKind(vs, kind) && vs != [] && (ArityOf(op) == PairOfValues ==> |vs| == 2)
  {
    DistinctKinds(values, kind);
  }

  lemma OtherValuesAreTyped(h: Host, op: Op, raw: seq<Value>, kind: Kind, cs: bool, im: bool)
    requires raw != [] && (ArityOf(op) == PairOfValues ==> |raw| == 2)
    requires ArityOf(op) != NoValue && kind in KindsOf(op) && kind != KDate
    ensures ResolveValues(h, op, raw, kind, cs, im).Ok? ==> WellTyped(ResolveValues(h, op, raw, kind, cs, im).c)
  {
    if CoerceAll(h, kind, raw).Some? {
      CoercedKinds(h, kind, raw);
      ArrangedKinds(h, op, CoerceAll(h, kind, raw).value, kind, cs);
    }
  }

  lemma ValuesAreTyped(h: Host, op: Op, raw: seq<Value>, kind: Kind, cs: bool, im: bool)
    requires raw != [] && (ArityOf(op) == PairOfValues ==> |raw| == 2)
    requires ArityOf(op) != NoValue && kind in KindsOf(op)
    ensures ResolveValues(h, op, raw, kind, cs, im).Ok? ==> WellTyped(ResolveValues(h, op, raw, kind, cs, im).c)
  {
    if kind == KDate {
      DateValuesAreTyped(h, op, raw, cs, im);
    } else {
      OtherValuesAreTyped(h, op, raw, kind, cs, im);
    }
  }

  /** Every comparison that resolves is well typed. */
  lemma ResolvedIsTyped(h: Host, op: Op, v: Value, declared: Declared, cs: bool, im: bool)
    requires Resolve(h, op, v, declared, cs, im).Ok?
    ensures WellTyped(Resolve(h, op, v, declared, cs, im).c) && Resolve(h, op, v, declared, cs, im).c.op == op
  {
    if ArityOf(op) != NoValue {
      RawIsEnough(ArityOf(op), v);
      var raw := RawValues(ArityOf(op), v).values;
      KindIsAllowed(h, op, raw, declared);
      ValuesAreTyped(h, op, raw, ResolveKind(h, op, raw, declared).kind, cs, im);
    }
  }

  lemma StoredKind(h: Host, v: Value, c: Comparison)
    requires c.kind.Some?
    ensures KeyOf(h, v, c).Some? ==> HasKind(KeyOf(h, v, c).value, c.kind.value)
  {
  }

  lemma {:induction false} StoredKinds(h: Host, vs: seq<Value>, c: Comparison)
    requires c.kind.Some?
    ensures AllOfKind(KeysOf(h, vs, c), c.kind.value)
    decreases |vs|
  {
    if vs != [] {
      StoredKind(h, vs[0], c);
      StoredKinds(h, vs[1..], c);
    }
  }

  lemma ComparableKinds(h: Host, c: Comparison, kind: Kind)
    requires AllOfKind(c.values, kind)
    ensures AllOfKind(Comparable(h, c), kind) && |Comparable(h, c)| == |c.values|
  {
  }

  // ---- no step faults ----

  lemma {:induction false} AnySameMeans(k: Key, values: seq<Key>, kind: Kind)
    requires HasKind(k, kind) && AllOfKind(values, kind)
    ensures AnySame(k, values) == Sure(k in values)
    decreases |values|
  {
    if values != [] {
      AnySameMeans(k, values[1..], kind);
    }
  }

  /** The operators the evaluator's inner test is reached with. */
  predicate Testable(op: Op, kind: Kind) {
    match op
    case Eq | In | Gt | Gte | Lt | Lte | Between | WithinLast => true
    case Contains | StartsWith | EndsWith => kind == KString
    case _ => false
  }

  lemma TestMeans(k: Key, op: Op, values: seq<Key>, kind: Kind)
    requires HasKind(k, kind) && AllOfKind(values, kind) && values != []
    requires Testable(op, kind) && (NeedsTwo(op) ==> |values| >= 2)
    ensures Test(k, op, values) == Sure(Meets(k, op, values))
  {
    AnySameMeans(k, values, kind);
    assert HasKind(values[0], kind);
    if NeedsTwo(op) {
      assert HasKind(values[1], kind);
    }
  }

  lemma {:induction false} AnyTestMeans(ks: seq<Key>, op: Op, values: seq<Key>, kind: Kind)
    requires AllOfKind(ks, kind) && AllOfKind(values, kind) && values != []
    requires Testable(op, kind) && (NeedsTwo(op) ==> |values| >= 2)
    ensures AnyTest(ks, op, values) == Sure(SomeMeets(ks, op, values))
    decreases |ks|
  {
    if ks != [] {
      TestMeans(ks[0], op, values, kind);
      AnyTestMeans(ks[1..], op, values, kind);
      SomeMeetsStep(ks, op, values);
    }
  }

  lemma SomeMeetsStep(ks: seq<Key>, op: Op, values: seq<Key>)
    requires values != [] && ks != []
    ensures SomeMeets(ks, op, values) <==> Meets(ks[0], op, values) || SomeMeets(ks[1..], op, values)
  {
    assert ks == [ks[0]] + ks[1..];
    if SomeMeets(ks, op, values) {
      var i :| 0 <= i < |ks| && Meets(ks[i], op, values);
      assert i > 0 ==> Meets(ks[1..][i - 1], op, values);
    }
    if SomeMeets(ks[1..], op, values) {
      var i :| 0 <= i < |ks| - 1 && Meets(ks[1..][i], op, values);
      assert Meets(ks[i + 1], op, values);
    }
  }

  lemma {:induction false} AnyIsMeans(ks: seq<Key>, v: Key, kind: Kind)
    requires AllOfKind(ks, kind) && HasKind(v, kind)
    ensures AnyIs(ks, v) == Sure(v in ks)
    decreases |ks|
  {
    if ks != [] {
      AnyIsMeans(ks[1..], v, kind);
    }
  }

  lemma {:induction false} AllFoundMeans(values: seq<Key>, ks: seq<Key>, kind: Kind)
    requires AllOfKind(ks, kind) && AllOfKind(values, kind)
    ensures AllFound(values, ks) == Sure(AllIn(values, ks))
    decreases |values|
  {
    if values != [] {
      AnyIsMeans(ks, values[0], kind);
      AllFoundMeans(values[1..], ks, kind);
      assert AllIn(values, ks) <==> values[0] in ks && AllIn(values[1..], ks);
    }
  }

  lemma MatchesMeans(h: Host, stored: Value, op: Op, c: Comparison)
    requires WellTyped(c) && ArityOf(c.op) != NoValue
    requires op == c.op || PositiveOf(c.op) == Some(op)
    requires PositiveOf(op).None?
    ensures Matches(h, stored, op, c) == Sure(Positively(h, stored, op, c))
  {
    var kind := c.kind.value;
    StoredKinds(h, Elements(stored), c);
    ComparableKinds(h, c, kind);
    var ks := KeysOf(h, Elements(stored), c);
    if op == ContainsAll {
      AllFoundMeans(Comparable(h, c), ks, kind);
    } else {
      AnyTestMeans(ks, op, Comparable(h, c), kind);
    }
  }

  lemma WellTypedMeans(h: Host, stored: Value, c: Comparison)
    requires WellTyped(c)
    ensures c.values != [] || IsPresence(c.op)
    ensures Evaluate(h, stored, c) == Sure(Holds(h, stored, c))
  {
    if ArityOf(c.op) != NoValue {
      MatchesMeans(h, stored, if PositiveOf(c.op).Some? then PositiveOf(c.op).value else c.op, c);
    }
  }

  /**
   Soundness: when a comparison resolves, for any operator, raw value and declared type,
   evaluating it on any stored value gives true or false, never a fault, and the answer is what
   the comparison says.
   */
  lemma ResolvedNeverFaults(h: Host, op: Op, v: Value, declared: Declared, cs: bool, im: bool, stored: Value)
    requires Resolve(h, op, v, declared, cs, im).Ok?
    ensures var c := Resolve(h, op, v, declared, cs, im).c;
            (c.values != [] || IsPresence(c.op)) && Evaluate(h, stored, c) == Sure(Holds(h, stored, c))
  {
    ResolvedIsTyped(h, op, v, declared, cs, im);
    WellTypedMeans(h, stored, Resolve(h, op, v, declared, cs, im).c);
  }
}
