/** One property compared with another, and an integer compared as its text. */
module SearchKeys {
  import opened Options
  import opened Texts
  import opened IsoDates
  import opened SearchNumbers
  import opened StoredType
  import opened SearchSemantics
  import opened SearchSoundness
  import opened SearchLaws
  import opened SearchDates

  // ---- two properties ----

  /** A stored value written out as the one value of a comparison. */
  function Literal(h: Host, v: Value, c: Comparison): Option<Key> {
    if c.kind == Some(KString) then (match TextOf(h, v) case Some(s) => Some(TextKey(s)) case None => None)
    else KeyOf(h, v, c)
  }

  lemma LiteralIsKey(h: Host, v: Value, c: Comparison)
    requires c.kind.Some?
    ensures Literal(h, v, c).Some? <==> KeyOf(h, v, c).Some?
    ensures Literal(h, v, c).Some? ==> KeyOf(h, v, c) == Some(Cased(h, Literal(h, v, c).value, c.caseSensitive))
  {
    StoredKind(h, v, c);
  }

  lemma {:induction false} PairsWithOne(ls: seq<Key>, k: Key, op: Op)
    ensures Pairs(ls, [k], op) == AnyTest(ls, op, [k])
    decreases |ls|
  {
    if ls != [] {
      PairsWithOne(ls[1..], k, op);
      assert AnyRight(ls[0], [k][1..], op) == Sure(false);
      assert AnyRight(ls[0], [k], op) == Test(ls[0], op, [k]);
    }
  }

  lemma OneReadable(h: Host, v: Value, c: Comparison, k: Key)
    requires !v.List? && KeyOf(h, v, c) == Some(k)
    ensures KeysOf(h, Elements(v), c) == [k]
  {
    assert Elements(v)[1..] == [];
    assert KeysOf(h, Elements(v), c) == [k] + KeysOf(h, [], c);
  }

  /** A comparison of two properties never faults, whatever the two hold. */
  lemma KeyComparisonNeverFaults(h: Host, op: Op, declared: Declared, cs: bool, left: Value, right: Value)
    requires ResolveKeyComparison(op, declared, cs).Ok?
    ensures EvaluateKeys(h, left, right, ResolveKeyComparison(op, declared, cs).c).Sure?
  {
    var c := ResolveKeyComparison(op, declared, cs).c;
    StoredKinds(h, Elements(left), c);
    StoredKinds(h, Elements(right), c);
    var ls, rs := KeysOf(h, Elements(left), c), KeysOf(h, Elements(right), c);
    PairsNeverFault(ls, rs, if op == Neq then Eq else op, c.kind.value);
  }

  lemma {:induction false} PairsNeverFault(ls: seq<Key>, rs: seq<Key>, op: Op, kind: Kind)
    requires AllOfKind(ls, kind) && AllOfKind(rs, kind) && IsKeyOp(op) && op != Neq
    ensures Pairs(ls, rs, op).Sure?
    decreases |ls|
  {
    if ls != [] {
      RightNeverFaults(ls[0], rs, op, kind);
      PairsNeverFault(ls[1..], rs, op, kind);
    }
  }

  lemma {:induction false} RightNeverFaults(l: Key, rs: seq<Key>, op: Op, kind: Kind)
    requires HasKind(l, kind) && AllOfKind(rs, kind) && IsKeyOp(op) && op != Neq
    ensures AnyRight(l, rs, op).Sure?
    decreases |rs|
  {
    if rs != [] {
      TestMeans(l, op, [rs[0]], kind);
      RightNeverFaults(l, rs[1..], op, kind);
    }
  }

  /**
   Comparing with another property that holds one readable value is comparing with that value
   as a literal, at the same type and grain.
   */
  lemma KeyComparisonIsLiteral(h: Host, op: Op, declared: Declared, cs: bool, left: Value, right: Value)
    requires ResolveKeyComparison(op, declared, cs).Ok? && !right.List?
    requires Literal(h, right, ResolveKeyComparison(op, declared, cs).c).Some?
    ensures var c := ResolveKeyComparison(op, declared, cs).c;
            EvaluateKeys(h, left, right, c) == Evaluate(h, left, c.(values := [Literal(h, right, c).value]))
  {
    var c := ResolveKeyComparison(op, declared, cs).c;
    var k := Literal(h, right, c).value;
    var d := c.(values := [k]);
    LiteralIsKey(h, right, c);
    var key := Cased(h, k, cs);
    OneReadable(h, right, c, key);
    OneComparable(h, d);
    SameKeys(h, Elements(left), c, d);
    PairsWithOne(KeysOf(h, Elements(left), c), key, if op == Neq then Eq else op);
    assert right != Null;
  }

  lemma OneComparable(h: Host, c: Comparison)
    requires |c.values| == 1
    ensures Comparable(h, c) == [Cased(h, c.values[0], c.caseSensitive)]
  {
    assert Comparable(h, c) == [Comparable(h, c)[0]];
  }

  /** A stored value that a user could type just so, at a comparison's kind. */
  predicate IsTypable(h: Host, kind: Kind, v: Value) {
    match kind
    case KString => IsScalar(v)
    case KNumber => (v.Int? && IsInt64(v.n)) || (v.Float? && v.x.Finite?)
    case KBoolean => v.Bool?
    case KDate => v.Str? && IsIsoStamp(h, v.s)
  }

  /** A date-time in ISO text that the host reads as the moment it names. */
  predicate IsIsoStamp(h: Host, s: string) {
    && h.strip(s) == s && h.momentOf(s).Some? && ValidStamp(h.momentOf(s).value)
    && h.momentOf(s).value.day.year >= 1000 && s == IsoSecond(h.momentOf(s).value)
  }

  lemma CoercedLiteral(h: Host, kind: Kind, right: Value, c: Comparison)
    requires kind != KDate && IsTypable(h, kind, right) && c.kind == Some(kind)
    ensures Literal(h, right, c).Some? && Coerce(h, kind, right) == Literal(h, right, c) && IsScalar(right)
  {
  }

  lemma TypedScalar(h: Host, op: Op, kind: Kind, cs: bool, right: Value)
    requires IsKeyOp(op) && kind in KindsOf(op) && kind != KDate && IsTypable(h, kind, right)
    ensures var c := ResolveKeyComparison(op, As(kind), cs).c;
            && Literal(h, right, c).Some?
            && Resolve(h, op, right, As(kind), cs, false) == Ok(c.(values := [Literal(h, right, c).value]))
  {
    var c := ResolveKeyComparison(op, As(kind), cs).c;
    CoercedLiteral(h, kind, right, c);
    DeclaredKind(h, op, [right], kind);
    OneResolves(h, op, right, As(kind), kind, cs, false, Literal(h, right, c).value);
  }

  lemma StampDates(h: Host, op: Op, s: string)
    requires IsKeyOp(op) && IsIsoStamp(h, s)
    ensures ResolveDates(h, op, [Str(s)]) == Some(Dates([s], BySecond))
  {
    assert UserDateOf(h, Str(s)) == Some(At(h.momentOf(s).value));
  }

  lemma StampValues(h: Host, op: Op, cs: bool, s: string)
    requires IsKeyOp(op) && ResolveDates(h, op, [Str(s)]) == Some(Dates([s], BySecond))
    ensures ResolveValues(h, op, [Str(s)], KDate, cs, false)
         == Ok(Comparison(op, Some(KDate), [DateKey(s)], Some(BySecond), false, false))
  {
    assert DateKeys([s]) == [DateKey(s)];
  }

  lemma StampResolves(h: Host, op: Op, cs: bool, s: string)
    requires IsKeyOp(op) && IsIsoStamp(h, s)
    ensures Resolve(h, op, Str(s), As(KDate), cs, false)
         == Ok(Comparison(op, Some(KDate), [DateKey(s)], Some(BySecond), false, false))
  {
    StampDates(h, op, s);
    StampValues(h, op, cs, s);
    OneRaw(op, Str(s));
    DeclaredKind(h, op, [Str(s)], KDate);
  }

  lemma StampLiteral(h: Host, op: Op, cs: bool, s: string)
    requires IsKeyOp(op) && IsIsoStamp(h, s)
    ensures Literal(h, Str(s), ResolveKeyComparison(op, As(KDate), cs).c) == Some(DateKey(s))
  {
    StampStored(s, h.momentOf(s).value);
  }

  lemma StampStored(s: string, t: Stamp)
    requires ValidStamp(t) && t.day.year >= 1000 && s == IsoSecond(t)
    ensures StoredDate(Str(s), Some(BySecond)) == Some(DateKey(s))
  {
    StoredStampReads(t, BySecond);
  }

  /** Case does not matter to dates. */
  lemma DatesIgnoreCase(h: Host, left: Value, c: Comparison, s: string)
    requires c.kind == Some(KDate) && c.values == [DateKey(s)]
    ensures Evaluate(h, left, c) == Evaluate(h, left, c.(caseSensitive := false))
  {
    var d := c.(caseSensitive := false);
    OneComparable(h, c);
    OneComparable(h, d);
    DateKeysIgnoreCase(h, Elements(left), c);
    SameKeysSameMatch(h, left, c, d);
  }

  lemma SameKeysSameMatch(h: Host, left: Value, c: Comparison, d: Comparison)
    requires c.op == d.op && c.includeMissing == d.includeMissing
    requires KeysOf(h, Elements(left), c) == KeysOf(h, Elements(left), d) && Comparable(h, c) == Comparable(h, d)
    ensures Evaluate(h, left, c) == Evaluate(h, left, d)
  {
    assert forall op :: Matches(h, left, op, c) == Matches(h, left, op, d);
  }

  lemma {:induction false} DateKeysIgnoreCase(h: Host, vs: seq<Value>, c: Comparison)
    requires c.kind == Some(KDate)
    ensures KeysOf(h, vs, c) == KeysOf(h, vs, c.(caseSensitive := false))
    decreases |vs|
  {
    if vs != [] {
      DateKeysIgnoreCase(h, vs[1..], c);
    }
  }

  /**
   End to end: comparing with a property gives the answer of typing its value, for text, 64-bit
   integers, finite floats, booleans and ISO date-times.
   */
  lemma KeyComparisonIsTyped(h: Host, op: Op, kind: Kind, cs: bool, left: Value, right: Value)
    requires IsKeyOp(op) && kind in KindsOf(op) && IsTypable(h, kind, right)
    ensures ResolveKeyComparison(op, As(kind), cs).Ok? && Resolve(h, op, right, As(kind), cs, false).Ok?
    ensures EvaluateKeys(h, left, right, ResolveKeyComparison(op, As(kind), cs).c)
         == Evaluate(h, left, Resolve(h, op, right, As(kind), cs, false).c)
  {
    var c := ResolveKeyComparison(op, As(kind), cs).c;
    if kind == KDate {
      StampResolves(h, op, cs, right.s);
      StampLiteral(h, op, cs, right.s);
      KeyComparisonIsLiteral(h, op, As(kind), cs, left, right);
      DatesIgnoreCase(h, left, c.(values := [DateKey(right.s)]), right.s);
    } else {
      TypedScalar(h, op, kind, cs, right);
      KeyComparisonIsLiteral(h, op, As(kind), cs, left, right);
    }
  }

  // ---- equality finds what is stored ----

  /** A value a graph can hold and a user can type. */
  predicate IsPlainValue(v: Value) {
    match v
    case Bool(_) => true
    case Int(n) => IsInt64(n)
    case Float(x) => x.Finite?
    case Str(_) => true
    case _ => false
  }

  /** The type a single typed value is compared as when none is declared. */
  function NaturalKind(v: Value): Kind {
    if v.Bool? then KBoolean else if v.Str? then KString else KNumber
  }

  lemma PlainCoerces(h: Host, v: Value)
    requires IsPlainValue(v)
    ensures IsScalar(v) && Coerce(h, NaturalKind(v), v).Some? && NaturalKind(v) != KDate
  {
  }

  lemma NaturalResolves(h: Host, v: Value)
    requires IsPlainValue(v)
    ensures ResolveKind(h, Eq, [v], Auto) == TypedAs(NaturalKind(v))
  {
    assert [v][0] == v;
  }

  lemma PlainResolves(h: Host, v: Value, cs: bool, im: bool)
    requires IsPlainValue(v)
    ensures Coerce(h, NaturalKind(v), v).Some?
    ensures Resolve(h, Eq, v, Auto, cs, im) == Ok(EqTo(Coerce(h, NaturalKind(v), v).value, NaturalKind(v), cs, im))
  {
    PlainCoerces(h, v);
    NaturalResolves(h, v);
    OneResolves(h, Eq, v, Auto, NaturalKind(v), cs, im, Coerce(h, NaturalKind(v), v).value);
  }

  lemma {:induction false} KeyIsAmong(h: Host, vs: seq<Value>, c: Comparison, v: Value, k: Key)
    requires v in vs && KeyOf(h, v, c) == Some(k)
    ensures k in KeysOf(h, vs, c)
    decreases |vs|
  {
    if vs[0] != v {
      KeyIsAmong(h, vs[1..], c, v, k);
    }
  }

  /** Equality with a typed value matches wherever that value is stored, alone or in a list. */
  lemma EqFindsItself(h: Host, v: Value, cs: bool, im: bool, stored: Value)
    requires IsPlainValue(v) && (stored == v || (stored.List? && v in stored.items))
    ensures Resolve(h, Eq, v, Auto, cs, im).Ok?
    ensures Evaluate(h, stored, Resolve(h, Eq, v, Auto, cs, im).c) == Sure(true)
  {
    PlainResolves(h, v, cs, im);
    var kind := NaturalKind(v);
    var k := Coerce(h, kind, v).value;
    var c := EqTo(k, kind, cs, im);
    CoercedKind(h, kind, v);
    EqMeans(h, stored, k, kind, cs, im, c);
    assert KeyOf(h, v, c) == Some(Cased(h, k, cs));
    KeyIsAmong(h, Elements(stored), c, v, Cased(h, k, cs));
  }

  // ---- an integer and its text ----

  lemma IntegerKeys(h: Host, n: int, c: Comparison)
    requires IsInt64(n) && (c.kind == Some(KNumber) || c.kind == Some(KString))
    ensures KeyOf(h, Int(n), c) == KeyOf(h, Str(PrintInt(n)), c)
  {
    PrintedNumber(n);
  }

  lemma ScalarKeys(h: Host, a: Value, b: Value, c: Comparison)
    requires !a.List? && !b.List? && KeyOf(h, a, c) == KeyOf(h, b, c)
    ensures KeysOf(h, Elements(a), c) == KeysOf(h, Elements(b), c)
  {
    assert Elements(a)[1..] == [] && Elements(b)[1..] == [];
  }

  /** A stored integer and its printed text satisfy the same number and text comparisons. */
  lemma IntegerComparesAsItsText(h: Host, n: int, c: Comparison)
    requires IsInt64(n) && (c.kind == Some(KNumber) || c.kind == Some(KString))
    ensures Evaluate(h, Int(n), c) == Evaluate(h, Str(PrintInt(n)), c)
  {
    IntegerKeys(h, n, c);
    ScalarKeys(h, Int(n), Str(PrintInt(n)), c);
    PrintedShape(n);
    assert PrintInt(n)[0] != ' ';
  }

  lemma {:induction false} ListKeys(h: Host, vs: seq<Value>, ws: seq<Value>, c: Comparison)
    requires |vs| == |ws| && forall i :: 0 <= i < |vs| ==> KeyOf(h, vs[i], c) == KeyOf(h, ws[i], c)
    ensures KeysOf(h, vs, c) == KeysOf(h, ws, c)
    decreases |vs|
  {
    if vs != [] {
      ListKeys(h, vs[1..], ws[1..], c);
    }
  }

  /** Also inside a list, element by element. */
  lemma ListComparesAsItsTexts(h: Host, vs: seq<Value>, ws: seq<Value>, c: Comparison)
    requires |vs| == |ws| && (c.kind == Some(KNumber) || c.kind == Some(KString))
    requires forall i :: 0 <= i < |vs| ==>
      ws[i] == vs[i] || (vs[i].Int? && IsInt64(vs[i].n) && ws[i] == Str(PrintInt(vs[i].n)))
    ensures Evaluate(h, List(vs), c) == Evaluate(h, List(ws), c)
  {
    forall i | 0 <= i < |vs| ensures KeyOf(h, vs[i], c) == KeyOf(h, ws[i], c) {
      if ws[i] != vs[i] {
        IntegerKeys(h, vs[i].n, c);
      }
    }
    ListKeys(h, vs, ws, c);
  }
}
