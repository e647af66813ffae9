/** Which values a comparison does not take, and why; and truth values, which are read from words too. */
module SearchRefusals {
  import opened Options
  import opened SearchNumbers
  import opened StoredType
  import opened SearchSemantics
  import opened SearchLaws
  import opened SearchKeys

  predicate IsMissing(v: Value) {
    v == Null || v == Str("")
  }

  /** Not one of text, number and truth value. */
  predicate IsCompound(v: Value) {
    v == Null || v.List? || v.Dict?
  }

  /** The operators that take a list: it must name something, and single values only. */
  lemma ListIsRefusedExactlyWhen(h: Host, op: Op, v: Value, declared: Declared, cs: bool, im: bool)
    requires ArityOf(op) == ManyValues && declared != UnknownKind
    ensures var r := Resolve(h, op, v, declared, cs, im);
            && (r == Err(NothingChosen) <==> forall x :: x in Elements(v) ==> IsMissing(x))
            && (r == Err(NotSingle) <==> exists x :: x in Elements(v) && !IsMissing(x) && IsCompound(x))
            && r != Err(ValueMissing) && r != Err(PairMissing)
  {
    var given := Given(Elements(v));
    if given != [] {
      assert given[0] in given;
    }
    if x :| x in Elements(v) && !IsMissing(x) && IsCompound(x) {
      assert x in given;
    }
    if !AllScalar(given) {
      var i :| 0 <= i < |given| && !IsScalar(given[i]);
      assert given[i] in given;
    }
    if RawValues(ArityOf(op), v).Raws? {
      OnlyReadingFails(h, op, v, declared, cs, im);
    }
  }

  /** `between` takes a list of exactly two values, both there. */
  lemma PairIsRefusedExactlyWhen(h: Host, v: Value, declared: Declared, cs: bool, im: bool)
    requires declared != UnknownKind
    ensures var r := Resolve(h, Between, v, declared, cs, im);
            && (r == Err(PairMissing) <==>
                  !(v.List? && |v.items| == 2 && !IsMissing(v.items[0]) && !IsMissing(v.items[1])))
            && (r == Err(NotSingle) <==>
                  && v.List? && |v.items| == 2 && !IsMissing(v.items[0]) && !IsMissing(v.items[1])
                  && (IsCompound(v.items[0]) || IsCompound(v.items[1])))
            && r != Err(ValueMissing) && r != Err(NothingChosen)
  {
    if RawValues(PairOfValues, v).Raws? {
      OnlyReadingFails(h, Between, v, declared, cs, im);
    }
  }

  lemma SameRawSameAnswer(h: Host, op: Op, v: Value, w: Value, declared: Declared, cs: bool, im: bool)
    requires RawValues(ArityOf(op), v) == RawValues(ArityOf(op), w)
    ensures Resolve(h, op, v, declared, cs, im) == Resolve(h, op, w, declared, cs, im)
  {
  }

  lemma OneRawInAList(arity: Arity, v: Value)
    requires (arity == OneValue || arity == Duration) && !v.List?
    ensures RawValues(arity, List([v])) == RawValues(arity, v)
  {
    assert List([v]).items[0] == v;
  }

  /** A list of one value is that value, to an operator that takes one. */
  lemma OneInAList(h: Host, op: Op, v: Value, declared: Declared, cs: bool, im: bool)
    requires (ArityOf(op) == OneValue || ArityOf(op) == Duration) && !v.List?
    ensures Resolve(h, op, List([v]), declared, cs, im) == Resolve(h, op, v, declared, cs, im)
  {
    OneRawInAList(ArityOf(op), v);
    SameRawSameAnswer(h, op, List([v]), v, declared, cs, im);
  }

  /** One value: there has to be one, and it has to be single. */
  lemma ValueIsRefusedExactlyWhen(h: Host, op: Op, v: Value, declared: Declared, cs: bool, im: bool)
    requires ArityOf(op) == OneValue && declared != UnknownKind && !v.List?
    ensures var r := Resolve(h, op, v, declared, cs, im);
            && (r == Err(ValueMissing) <==> v == Null)
            && (r == Err(NotSingle) <==> v.Dict?)
            && r != Err(PairMissing) && r != Err(NothingChosen)
  {
    if RawValues(ArityOf(op), v).Raws? {
      OnlyReadingFails(h, op, v, declared, cs, im);
    }
  }

  lemma KindProblems(h: Host, op: Op, raw: seq<Value>, declared: Declared)
    ensures var t := ResolveKind(h, op, raw, declared);
            t.BadType? ==> t.problem == NotComparedAs || t.problem == NoOrder
  {
  }

  lemma ReadingProblems(h: Host, op: Op, raw: seq<Value>, kind: Kind, cs: bool, im: bool)
    requires raw != [] && (ArityOf(op) == PairOfValues ==> |raw| == 2)
    ensures var r := ResolveValues(h, op, raw, kind, cs, im);
            r.Err? ==> r.problem == NotReadable || r.problem == NoText
  {
  }

  /** Once the values have the right shape, only their type or their reading can fail. */
  lemma OnlyReadingFails(h: Host, op: Op, v: Value, declared: Declared, cs: bool, im: bool)
    requires ArityOf(op) != NoValue && declared != UnknownKind && RawValues(ArityOf(op), v).Raws?
    ensures var r := Resolve(h, op, v, declared, cs, im);
            r.Ok? || r.problem == NotComparedAs || r.problem == NoOrder || r.problem == NotReadable
            || r.problem == NoText
  {
    RawIsEnough(ArityOf(op), v);
    var raw := RawValues(ArityOf(op), v).values;
    KindProblems(h, op, raw, declared);
    if ResolveKind(h, op, raw, declared).TypedAs? {
      ReadingProblems(h, op, raw, ResolveKind(h, op, raw, declared).kind, cs, im);
    }
  }

  // ---- values that do not read ----

  /** A value that is no number a graph can hold, or not one that can be typed. */
  predicate IsNoNumber(v: Value) {
    || v.Bool?
    || (v.Int? && !IsInt64(v.n))
    || (v.Float? && !v.x.Finite?)
  }

  lemma NoNumberIsRefused(h: Host, op: Op, v: Value, cs: bool, im: bool)
    requires ArityOf(op) == OneValue && KNumber in KindsOf(op) && IsNoNumber(v)
    ensures Resolve(h, op, v, As(KNumber), cs, im) == Err(NotReadable)
  {
    OneRaw(op, v);
    DeclaredKind(h, op, [v], KNumber);
    CoerceOne(h, KNumber, v);
  }

  lemma EmptyTextIsRefused(h: Host, op: Op, declared: Declared, cs: bool, im: bool)
    requires KindsOf(op) == [KString] && declared != UnknownKind
    ensures Resolve(h, op, Str(""), declared, cs, im) == Err(NoText)
  {
    OneRaw(op, Str(""));
    CoerceOne(h, KString, Str(""));
  }

  // ---- truth values ----

  /** A truth value, or a word the host reads as one; a typed word may have blanks around it. */
  predicate Says(h: Host, v: Value, b: bool, typed: bool) {
    v == Bool(b) || (v.Str? && h.truthOf(if typed then h.strip(v.s) else v.s) == Some(b))
  }

  /** Compared as true or false, a stored truth value or word equals a typed one exactly if both say the same. */
  lemma TruthsCompareAsTruths(h: Host, v: Value, a: bool, cs: bool, im: bool, stored: Value, b: bool)
    requires Says(h, v, a, true) && Says(h, stored, b, false)
    ensures Resolve(h, Eq, v, As(KBoolean), cs, im).Ok?
    ensures Evaluate(h, stored, Resolve(h, Eq, v, As(KBoolean), cs, im).c) == Sure(a == b)
  {
    var c := EqTo(TruthKey(a), KBoolean, cs, im);
    EqResolves(h, v, KBoolean, cs, im, TruthKey(a));
    EqMeans(h, stored, TruthKey(a), KBoolean, cs, im, c);
    OneReadable(h, stored, c, TruthKey(b));
  }
}
