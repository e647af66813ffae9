/** What an order, a look-back and an emptiness test mean for values typed with no declared type. */
module SearchOrders {
  import opened Options
  import opened Texts
  import opened IsoDates
  import opened SearchNumbers
  import opened StoredType
  import opened SearchSemantics
  import opened SearchSoundness
  import opened SearchLaws
  import opened SearchRanges
  import opened SearchTexts
  import opened SearchDates
  import opened SearchKeys

  predicate IsSingleOrder(op: Op) {
    op == Gt || op == Gte || op == Lt || op == Lte
  }

  /** What an order says of a stored value that is less than the typed one, or more, or neither. */
  predicate Orders(op: Op, less: bool, more: bool) {
    match op
    case Gt => more
    case Gte => !less
    case Lt => less
    case Lte => !more
    case _ => false
  }

  // ---- the kind a value is compared as ----

  predicate AllTrueOrFalse(raw: seq<Value>) {
    forall i :: 0 <= i < |raw| ==> raw[i].Bool?
  }

  predicate AllNumbers(raw: seq<Value>) {
    forall i :: 0 <= i < |raw| ==> raw[i].Int? || raw[i].Float?
  }

  predicate AllTexts(raw: seq<Value>) {
    forall i :: 0 <= i < |raw| ==> raw[i].Str?
  }

  predicate AllSpellNumbers(h: Host, raw: seq<Value>) {
    forall i :: 0 <= i < |raw| ==> raw[i].Str? && h.spellsNumber(h.strip(raw[i].s))
  }

  predicate AllReadAsDates(h: Host, raw: seq<Value>) {
    forall i :: 0 <= i < |raw| ==> UserDateOf(h, raw[i]).Some?
  }

  /** With no declared type the values decide: truth values have no order, and only numbers are numbers ... */
  lemma UndeclaredKind(h: Host, op: Op, raw: seq<Value>)
    requires raw != [] && |KindsOf(op)| > 1 && !AllTexts(raw)
    ensures ResolveKind(h, op, raw, Auto)
         == if AllTrueOrFalse(raw) then (if IsOrder(op) then BadType(NoOrder) else TypedAs(KBoolean))
            else TypedAs(if AllNumbers(raw) then KNumber else KString)
  {
  }

  /**
   ... while text is compared as text, save by an order: there texts that all spell numbers are numbers,
   and texts that all read as dates are dates.
   */
  lemma UndeclaredTexts(h: Host, op: Op, raw: seq<Value>)
    requires raw != [] && |KindsOf(op)| > 1 && AllTexts(raw)
    ensures ResolveKind(h, op, raw, Auto)
         == TypedAs(if !IsOrder(op) then KString
                    else if AllSpellNumbers(h, raw) then KNumber
                    else if AllReadAsDates(h, raw) then KDate else KString)
  {
    assert raw[0].Str?;
  }

  /** The types an operator that has a choice of types compares as. */
  predicate Offers(op: Op, kind: Kind) {
    match op
    case Eq | Neq => true
    case Gt | Gte | Lt | Lte | Between => kind != KBoolean
    case In | NotIn | ContainsAll => kind != KDate
    case _ => false
  }

  /** A declared type is taken, if the operator offers it; text, date and presence operators have no choice. */
  lemma DeclaredKindExactly(h: Host, op: Op, raw: seq<Value>, kind: Kind)
    ensures Offers(op, KString) ==>
              ResolveKind(h, op, raw, As(kind)) == if Offers(op, kind) then TypedAs(kind) else BadType(NotComparedAs)
    ensures op == Contains || op == NotContains || op == StartsWith || op == EndsWith ==>
              ResolveKind(h, op, raw, As(kind)) == TypedAs(KString)
    ensures op == WithinLast ==> ResolveKind(h, op, raw, As(kind)) == TypedAs(KDate)
  {
  }

  lemma OneKind(h: Host, op: Op, v: Value)
    requires IsSingleOrder(op) && (v.Int? || v.Float? || v.Str?)
    ensures ResolveKind(h, op, [v], Auto)
         == TypedAs(if !v.Str? || h.spellsNumber(h.strip(v.s)) then KNumber
                    else if UserDateOf(h, v).Some? then KDate else KString)
  {
    assert [v][0] == v;
    if v.Str? {
      UndeclaredTexts(h, op, [v]);
    } else {
      UndeclaredKind(h, op, [v]);
    }
  }

  lemma PairKind(h: Host, v: Value, w: Value)
    requires AllNumbers([v, w]) || AllSpellNumbers(h, [v, w])
    ensures ResolveKind(h, Between, [v, w], Auto) == TypedAs(KNumber)
  {
    assert [v, w][0] == v && [v, w][1] == w;
    if v.Str? {
      UndeclaredTexts(h, Between, [v, w]);
    } else {
      UndeclaredKind(h, Between, [v, w]);
    }
  }

  // ---- an order of one key ----

  lemma OneOfKind(c: Comparison, v: Key)
    requires c.kind.Some? && c.values == [v] && HasKind(v, c.kind.value)
    ensures |c.values| == 1 && AllOfKind(c.values, c.kind.value)
  {
  }

  lemma OrderOfKeys(h: Host, stored: Value, c: Comparison, v: Key, k: Key)
    requires IsSingleOrder(c.op) && c.kind.Some? && c.kind.value in KindsOf(c.op) && c.values == [v]
    requires HasKind(v, c.kind.value) && !stored.List? && KeyOf(h, stored, c) == Some(k)
    ensures var v' := Cased(h, v, c.caseSensitive);
            Evaluate(h, stored, c) == Sure(Orders(c.op, KeyLess(k, v'), KeyLess(v', k)))
  {
    OneOfKind(c, v);
    SingleMeans(h, stored, c, k, c.op);
    OneComparable(h, c);
    assert Under(c, c.op) == c;
  }

  // ---- numbers ----

  /** The host reads what an integer prints as a number. */
  ghost predicate ReadsIntegers(h: Host) {
    forall n {:trigger PrintInt(n)} :: IsInt64(n) ==> h.strip(PrintInt(n)) == PrintInt(n) && h.spellsNumber(PrintInt(n))
  }

  /** A number, or the text of an integer, that stands for `x`. */
  predicate Spells(v: Value, x: real) {
    match v
    case Int(n) => IsInt64(n) && x == n as real
    case Float(y) => y == Finite(x)
    case Str(s) => x == x.Floor as real && IsInt64(x.Floor) && s == PrintInt(x.Floor)
    case _ => false
  }

  lemma PrintedUserInteger(n: int)
    requires IsInt64(n)
    ensures UserInteger(PrintInt(n)) == Some(n)
  {
    PrintedShape(n);
    ReadBack(if n < 0 then -n else n);
  }

  function NumberOf(x: real): Key {
    NumberKey(Exactly(x))
  }

  lemma TypedNumber(h: Host, v: Value, x: real)
    requires ReadsIntegers(h) && Spells(v, x)
    ensures Coerce(h, KNumber, v) == Some(NumberOf(x)) && IsScalar(v) && IsGiven(v)
    ensures v.Str? ==> h.spellsNumber(h.strip(v.s))
  {
    if v.Str? {
      PrintedUserInteger(x.Floor);
      PrintedShape(x.Floor);
    }
  }

  /** Typed text that is an optional sign and digits is that integer, if 64 bits hold it, and else no number. */
  lemma TypedDigits(h: Host, s: string, sign: string, digits: string)
    requires h.strip(s) == sign + digits && IsSign(sign) && digits != "" && AllDigits(digits)
    ensures var n := if sign == "-" then 0 - ReadNat(digits) else ReadNat(digits);
            Coerce(h, KNumber, Str(s)) == if IsInt64(n) then Some(NumberOf(n as real)) else None
  {
    var t := h.strip(s);
    assert sign == "" ==> t == digits && IsDigit(t[0]);
    assert sign != "" ==> t[0] == sign[0] && t[1..] == digits;
  }

  lemma StoredNumberIs(h: Host, stored: Value, y: real, c: Comparison)
    requires Spells(stored, y) && c.kind == Some(KNumber)
    ensures KeyOf(h, stored, c) == Some(NumberOf(y)) && !stored.List?
  {
    if stored.Str? {
      PrintedNumber(y.Floor);
    }
  }

  lemma NumberResolves(h: Host, op: Op, v: Value, x: real, cs: bool, im: bool)
    requires ReadsIntegers(h) && IsSingleOrder(op) && Spells(v, x)
    ensures Resolve(h, op, v, Auto, cs, im) == Ok(Comparison(op, Some(KNumber), [NumberOf(x)], None, cs, im))
  {
    TypedNumber(h, v, x);
    OneKind(h, op, v);
    OneResolves(h, op, v, Auto, KNumber, cs, im, NumberOf(x));
  }

  /**
   End to end, with no declared type: an order against a number, typed as one or as an integer's text,
   is the order of the numbers, whether the stored one is a number or an integer's text.
   */
  lemma NumbersCompareAsNumbers(h: Host, op: Op, v: Value, x: real, cs: bool, im: bool, stored: Value, y: real)
    requires ReadsIntegers(h) && IsSingleOrder(op) && Spells(v, x) && Spells(stored, y)
    ensures Resolve(h, op, v, Auto, cs, im).Ok?
    ensures Evaluate(h, stored, Resolve(h, op, v, Auto, cs, im).c) == Sure(Orders(op, y < x, x < y))
  {
    var c := Comparison(op, Some(KNumber), [NumberOf(x)], None, cs, im);
    NumberResolves(h, op, v, x, cs, im);
    StoredNumberIs(h, stored, y, c);
    OrderOfKeys(h, stored, c, NumberOf(x), NumberOf(y));
  }

  /** A stored infinity lies beyond every number that can be typed. */
  lemma InfinitiesAreBeyond(h: Host, op: Op, v: Value, x: real, cs: bool, im: bool, negative: bool)
    requires ReadsIntegers(h) && IsSingleOrder(op) && Spells(v, x)
    ensures Resolve(h, op, v, Auto, cs, im).Ok?
    ensures Evaluate(h, Float(Infinite(negative)), Resolve(h, op, v, Auto, cs, im).c)
         == Sure(Orders(op, negative, !negative))
  {
    var c := Comparison(op, Some(KNumber), [NumberOf(x)], None, cs, im);
    NumberResolves(h, op, v, x, cs, im);
    OrderOfKeys(h, Float(Infinite(negative)), c, NumberOf(x),
                NumberKey(if negative then MinusInfinity else PlusInfinity));
  }

  function NumbersBetween(lo: real, hi: real, cs: bool, im: bool): Comparison {
    Comparison(Between, Some(KNumber), [NumberOf(lo), NumberOf(hi)], None, cs, im)
  }

  lemma OneMeets(k: Key, op: Op, vs: seq<Key>)
    requires vs != []
    ensures SomeMeets([k], op, vs) <==> Meets(k, op, vs)
  {
    assert [k][0] == k;
  }

  lemma RangeOfNumbers(h: Host, stored: Value, y: real, lo: real, hi: real, cs: bool, im: bool)
    requires Spells(stored, y)
    ensures Evaluate(h, stored, NumbersBetween(lo, hi, cs, im)) == Sure(lo <= y <= hi)
  {
    var c := NumbersBetween(lo, hi, cs, im);
    StoredNumberIs(h, stored, y, c);
    MeansOnKeys(h, stored, c, c);
    OneReadable(h, stored, c, NumberOf(y));
    OneMeets(NumberOf(y), Between, Comparable(h, c));
    assert Comparable(h, c)[0] == c.values[0] && Comparable(h, c)[1] == c.values[1];
  }

  lemma NumberPair(h: Host, v: Value, w: Value, a: real, b: real, cs: bool, im: bool)
    requires ReadsIntegers(h) && Spells(v, a) && Spells(w, b) && (v.Str? <==> w.Str?)
    ensures ResolvePair(h, v, w, Auto, cs, im)
         == Ok(if b < a then NumbersBetween(b, a, cs, im) else NumbersBetween(a, b, cs, im))
  {
    TypedNumber(h, v, a);
    TypedNumber(h, w, b);
    PairKind(h, v, w);
    RangeOrdered(h, v, w, KNumber, cs, im, NumberOf(a), NumberOf(b));
  }

  /** And `between` two numbers is between them, in either order. */
  lemma BetweenNumbersMeansBetween(h: Host, v: Value, w: Value, a: real, b: real, cs: bool, im: bool, stored: Value,
                                   y: real)
    requires ReadsIntegers(h) && Spells(v, a) && Spells(w, b) && (v.Str? <==> w.Str?) && Spells(stored, y)
    ensures Resolve(h, Between, List([v, w]), Auto, cs, im).Ok?
    ensures Evaluate(h, stored, Resolve(h, Between, List([v, w]), Auto, cs, im).c)
         == Sure(a <= y <= b || b <= y <= a)
  {
    TypedNumber(h, v, a);
    TypedNumber(h, w, b);
    PairResolves(h, v, w, Auto, cs, im);
    NumberPair(h, v, w, a, b, cs, im);
    RangeOfNumbers(h, stored, y, a, b, cs, im);
    RangeOfNumbers(h, stored, y, b, a, cs, im);
  }

  lemma PropertyOfNumber(h: Host, op: Op, cs: bool, right: Value, x: real)
    requires IsSingleOrder(op) && Spells(right, x)
    ensures ResolveKeyComparison(op, Auto, cs) == Ok(Comparison(op, Some(KNumber), [], None, cs, false))
    ensures Literal(h, right, ResolveKeyComparison(op, Auto, cs).c) == Some(NumberOf(x))
  {
    StoredNumberIs(h, right, x, ResolveKeyComparison(op, Auto, cs).c);
  }

  /** Two properties under an order with no declared type: numbers, and integers' texts, compare as numbers. */
  lemma PropertiesCompareAsNumbers(h: Host, op: Op, cs: bool, left: Value, y: real, right: Value, x: real)
    requires IsSingleOrder(op) && Spells(left, y) && Spells(right, x)
    ensures ResolveKeyComparison(op, Auto, cs).Ok?
    ensures EvaluateKeys(h, left, right, ResolveKeyComparison(op, Auto, cs).c) == Sure(Orders(op, y < x, x < y))
  {
    PropertyOfNumber(h, op, cs, right, x);
    var c := ResolveKeyComparison(op, Auto, cs).c.(values := [NumberOf(x)]);
    StoredNumberIs(h, right, x, c);
    KeyComparisonIsLiteral(h, op, Auto, cs, left, right);
    StoredNumberIs(h, left, y, c);
    OrderOfKeys(h, left, c, NumberOf(x), NumberOf(y));
  }

  // ---- texts ----

  /** Text that is neither a number nor a date is ordered as text, under the case rule asked for. */
  lemma TextsCompareAsTexts(h: Host, op: Op, v: string, cs: bool, im: bool, stored: string)
    requires IsSingleOrder(op) && !h.spellsNumber(h.strip(v)) && UserDateOf(h, Str(v)).None?
    ensures Resolve(h, op, Str(v), Auto, cs, im).Ok?
    ensures var s, t := Read(h, stored, cs), Read(h, v, cs);
            Evaluate(h, Str(stored), Resolve(h, op, Str(v), Auto, cs, im).c)
            == Sure(Orders(op, LexLess(s, t), LexLess(t, s)))
  {
    OneKind(h, op, Str(v));
    OneResolves(h, op, Str(v), Auto, KString, cs, im, TextKey(v));
    var c := Resolve(h, op, Str(v), Auto, cs, im).c;
    OrderOfKeys(h, Str(stored), c, TextKey(v), TextKey(Read(h, stored, cs)));
  }

  lemma EqualTexts(h: Host, left: string, right: string, cs: bool)
    ensures Evaluate(h, Str(left), EqTo(TextKey(right), KString, cs, false))
         == Sure(Read(h, left, cs) == Read(h, right, cs))
  {
    var c := EqTo(TextKey(right), KString, cs, false);
    EqMeans(h, Str(left), TextKey(right), KString, cs, false, c);
    OneReadable(h, Str(left), c, TextKey(Read(h, left, cs)));
  }

  /** And under equality with none declared, texts compare as texts: "15" is not "15.0". */
  lemma PropertiesEqualAsTexts(h: Host, cs: bool, left: string, right: string)
    ensures ResolveKeyComparison(Eq, Auto, cs).Ok?
    ensures EvaluateKeys(h, Str(left), Str(right), ResolveKeyComparison(Eq, Auto, cs).c)
         == Sure(Read(h, left, cs) == Read(h, right, cs))
  {
    KeyComparisonIsLiteral(h, Eq, Auto, cs, Str(left), Str(right));
    EqualTexts(h, left, right, cs);
  }

  // ---- dates ----

  /** Typed text is a day exactly if it is a calendar day's ISO text, and a moment only if the host reads one. */
  lemma TypedDateExactly(h: Host, s: string, u: UserDate)
    ensures UserDateOf(h, Str(s)) == Some(u) <==>
              match u
              case OnDay(d) => ValidDay(d) && h.strip(s) == IsoDay(d)
              case At(t) =>
                && (forall d :: ValidDay(d) ==> h.strip(s) != IsoDay(d))
                && |h.strip(s)| > 10 && h.momentOf(h.strip(s)) == Some(t) && ValidStamp(t)
  {
    var text := h.strip(s);
    if ReadDay(text).Some? {
      DayRoundTrip(text, ReadDay(text).value);
    }
    forall d | ValidDay(d) && text == IsoDay(d) ensures ReadDay(text) == Some(d) {
      DayRoundTrip(text, d);
    }
  }

  /** A stored day, compared to the second, is its first second. */
  lemma StoredDayReads(d: Day)
    requires ValidDay(d) && d.year >= 1000
    ensures StoredDate(Str(IsoDay(d)), Some(ByDay)) == Some(DateKey(IsoDay(d)))
    ensures StoredDate(Str(IsoDay(d)), Some(BySecond)) == Some(DateKey(IsoSecond(FirstSecond(d))))
  {
    var e := IsoDay(d);
    assert e[..10] == e;
    Slices(e, d);
    DigitsAreCanonical(d);
    NoSpaces(FirstSecond(d));
    assert forall i :: 0 <= i < 10 ==> IsoSecond(FirstSecond(d))[i] == e[i];
    BlankedIsSame(e);
    assert Cut(e, 0, 19) == e && TEMPLATE[10..] == "T00:00:00";
    EdgeTexts(d);
  }

  /** A stored moment before everything a typed date names. */
  predicate Earlier(x: Stamp, u: UserDate) {
    match u
    case OnDay(d) => DayBefore(x.day, d)
    case At(t) => StampBefore(x, t)
  }

  predicate Later(x: Stamp, u: UserDate) {
    match u
    case OnDay(d) => DayBefore(d, x.day)
    case At(t) => StampBefore(t, x)
  }

  function DateOrder(op: Op, u: UserDate, im: bool): Comparison
    requires ValidDate(u)
  {
    Comparison(op, Some(KDate), [DateKey(DateText(u))], Some(if u.OnDay? then ByDay else BySecond), false, im)
  }

  lemma DateValue(h: Host, op: Op, v: string, cs: bool, im: bool)
    requires IsSingleOrder(op) && UserDateOf(h, Str(v)).Some?
    ensures ResolveValues(h, op, [Str(v)], KDate, cs, im) == Ok(DateOrder(op, UserDateOf(h, Str(v)).value, im))
  {
    var u := UserDateOf(h, Str(v)).value;
    assert ResolveDates(h, op, [Str(v)]) == Some(OneDate(u));
    assert DateKeys([DateText(u)]) == [DateKey(DateText(u))];
  }

  lemma DateResolves(h: Host, op: Op, v: string, cs: bool, im: bool)
    requires IsSingleOrder(op) && !h.spellsNumber(h.strip(v)) && UserDateOf(h, Str(v)).Some?
    ensures Resolve(h, op, Str(v), Auto, cs, im) == Ok(DateOrder(op, UserDateOf(h, Str(v)).value, im))
  {
    OneKind(h, op, Str(v));
    OneRaw(op, Str(v));
    DateValue(h, op, v, cs, im);
  }

  lemma DateOrderMeans(h: Host, op: Op, u: UserDate, im: bool, x: Stamp)
    requires IsSingleOrder(op) && ValidDate(u) && ValidStamp(x) && x.day.year >= 1000
    ensures Evaluate(h, Str(IsoSecond(x)), DateOrder(op, u, im)) == Sure(Orders(op, Earlier(x, u), Later(x, u)))
  {
    var c := DateOrder(op, u, im);
    StoredStampReads(x, c.grain.value);
    OrderOfKeys(h, Str(IsoSecond(x)), c, c.values[0], KeyAt(x, c.grain.value));
    match u
    case OnDay(d) =>
      IsoDayOrder(x.day, d);
      IsoDayOrder(d, x.day);
    case At(t) =>
      IsoOrderIsTimeOrder(x, t);
      IsoOrderIsTimeOrder(t, x);
  }

  /**
   With no declared type: a stored date-time is ordered against text that reads as a date as it is in
   time, by the day where a day was typed.
   */
  lemma DatesCompareAsTime(h: Host, op: Op, v: string, cs: bool, im: bool, x: Stamp)
    requires IsSingleOrder(op) && !h.spellsNumber(h.strip(v)) && UserDateOf(h, Str(v)).Some?
    requires ValidStamp(x) && x.day.year >= 1000
    ensures var u := UserDateOf(h, Str(v)).value;
            && Resolve(h, op, Str(v), Auto, cs, im).Ok?
            && Evaluate(h, Str(IsoSecond(x)), Resolve(h, op, Str(v), Auto, cs, im).c)
               == Sure(Orders(op, Earlier(x, u), Later(x, u)))
  {
    DateResolves(h, op, v, cs, im);
    DateOrderMeans(h, op, UserDateOf(h, Str(v)).value, im, x);
  }

  // ---- looking back ----

  /** From the start of the look-back to now, in whole days or to the second. */
  predicate WithinLookback(x: Stamp, b: Lookback) {
    if b.toSecond then !StampBefore(x, b.start) && !StampBefore(b.end, x)
    else !DayBefore(x.day, b.start.day) && !DayBefore(b.end.day, x.day)
  }

  function LookingBack(b: Lookback, im: bool): Comparison
    requires ValidStamp(b.start) && ValidStamp(b.end)
  {
    Comparison(WithinLast, Some(KDate), DateKeys(LookbackDates(b).keys), Some(LookbackDates(b).grain), false, im)
  }

  lemma LookbackResolves(h: Host, v: string, declared: Declared, cs: bool, im: bool, b: Lookback)
    requires v != "" && declared != UnknownKind && h.lookback(v) == Some(b) && ValidStamp(b.start) && ValidStamp(b.end)
    ensures Resolve(h, WithinLast, Str(v), declared, cs, im) == Ok(LookingBack(b, im))
  {
    assert RawValues(ArityOf(WithinLast), Str(v)) == Raws([Str(v)]);
    assert ResolveDates(h, WithinLast, [Str(v)]) == Some(LookbackDates(b));
  }

  lemma LookbackTyped(h: Host, b: Lookback, im: bool)
    requires ValidStamp(b.start) && ValidStamp(b.end)
    ensures var c := LookingBack(b, im);
            && WellTyped(c) && |Comparable(h, c)| == 2
            && Comparable(h, c)[0] == DateKey(LookbackDates(b).keys[0])
            && Comparable(h, c)[1] == DateKey(LookbackDates(b).keys[1])
  {
  }

  lemma LookbackKeys(h: Host, b: Lookback, im: bool, x: Stamp)
    requires ValidStamp(b.start) && ValidStamp(b.end) && ValidStamp(x) && x.day.year >= 1000
    ensures KeysOf(h, Elements(Str(IsoSecond(x))), LookingBack(b, im)) == [KeyAt(x, LookbackDates(b).grain)]
  {
    var grain := LookbackDates(b).grain;
    StoredStampReads(x, grain);
    OneDateKey(h, Str(IsoSecond(x)), LookingBack(b, im), KeyAt(x, grain).iso);
  }

  lemma OneKeyMeans(h: Host, stored: Value, c: Comparison, k: Key)
    requires WellTyped(c) && c.op == WithinLast && KeysOf(h, Elements(stored), c) == [k]
    ensures Comparable(h, c) != [] && Evaluate(h, stored, c) == Sure(Meets(k, WithinLast, Comparable(h, c)))
  {
    WellTypedMeans(h, stored, c);
    OneMeets(k, WithinLast, Comparable(h, c));
  }

  lemma MeetsLookback(vs: seq<Key>, k: string, lo: string, hi: string)
    requires |vs| == 2 && vs[0] == DateKey(lo) && vs[1] == DateKey(hi)
    ensures Meets(DateKey(k), WithinLast, vs) <==> !LexLess(k, lo) && !LexLess(hi, k)
  {
  }

  lemma LookbackMeans(h: Host, b: Lookback, im: bool, x: Stamp)
    requires ValidStamp(b.start) && ValidStamp(b.end) && ValidStamp(x) && x.day.year >= 1000
    ensures Evaluate(h, Str(IsoSecond(x)), LookingBack(b, im)) == Sure(WithinLookback(x, b))
  {
    var c := LookingBack(b, im);
    LookbackTyped(h, b, im);
    LookbackKeys(h, b, im, x);
    var k := KeyAt(x, LookbackDates(b).grain);
    OneKeyMeans(h, Str(IsoSecond(x)), c, k);
    MeetsLookback(Comparable(h, c), k.iso, LookbackDates(b).keys[0], LookbackDates(b).keys[1]);
    LookbackOrder(b, x);
  }

  lemma LookbackOrder(b: Lookback, x: Stamp)
    requires ValidStamp(b.start) && ValidStamp(b.end) && ValidStamp(x)
    ensures var ds := LookbackDates(b);
            var k := KeyAt(x, ds.grain).iso;
            |ds.keys| == 2 && (!LexLess(k, ds.keys[0]) && !LexLess(ds.keys[1], k) <==> WithinLookback(x, b))
  {
    if b.toSecond {
      IsoOrderIsTimeOrder(x, b.start);
      IsoOrderIsTimeOrder(b.end, x);
    } else {
      IsoDayOrder(x.day, b.start.day);
      IsoDayOrder(b.end.day, x.day);
    }
  }

  /** `withinLast` a readable duration: a stored date-time matches exactly when it lies in the look-back, in time. */
  lemma WithinLastMeansTime(h: Host, v: string, declared: Declared, cs: bool, im: bool, b: Lookback, x: Stamp)
    requires v != "" && declared != UnknownKind && h.lookback(v) == Some(b) && ValidStamp(b.start) && ValidStamp(b.end)
    requires ValidStamp(x) && x.day.year >= 1000
    ensures Resolve(h, WithinLast, Str(v), declared, cs, im).Ok?
    ensures Evaluate(h, Str(IsoSecond(x)), Resolve(h, WithinLast, Str(v), declared, cs, im).c)
         == Sure(WithinLookback(x, b))
  {
    LookbackResolves(h, v, declared, cs, im, b);
    LookbackMeans(h, b, im, x);
  }

  // ---- emptiness ----

  /** Nothing there: no value, a list of none, or a text of spaces alone. A tab is content, and so is 0. */
  predicate Blank(v: Value) {
    match v
    case Null => true
    case List(items) => |items| == 0
    case Str(s) => forall ch :: ch in s ==> ch == ' '
    case _ => false
  }

  /** The four presence tests resolve whatever value comes with them, and say this. */
  lemma PresenceMeans(h: Host, v: Value, declared: Declared, cs: bool, im: bool, stored: Value, op: Op)
    requires declared != UnknownKind && IsPresence(op)
    ensures Resolve(h, op, v, declared, cs, im).Ok?
    ensures Evaluate(h, stored, Resolve(h, op, v, declared, cs, im).c)
         == Sure(match op
                 case IsSet => stored != Null
                 case IsNotSet => stored == Null
                 case IsEmpty => Blank(stored)
                 case _ => !Blank(stored))
  {
    if stored.Str? {
      assert forall i :: 0 <= i < |stored.s| ==> stored.s[i] in stored.s;
    }
  }
}
