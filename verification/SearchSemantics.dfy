/**
 What a property comparison means: the operator table, turning a user's value into typed
 comparable values, and the reference evaluator. The evaluator is written as the untyped
 program it is: comparing values of different types, or indexing a missing value, is a fault.
 */
module SearchSemantics {
  import opened Options
  import opened Texts
  import opened IsoDates
  import opened SearchNumbers
  import opened StoredType

  datatype Op =
    | Eq | Neq | Gt | Gte | Lt | Lte | Between | In | NotIn | ContainsAll
    | Contains | NotContains | StartsWith | EndsWith | WithinLast
    | IsSet | IsNotSet | IsEmpty | IsNotEmpty | UnknownOp

  datatype Kind = KString | KNumber | KBoolean | KDate

  datatype Declared = Auto | As(kind: Kind) | UnknownKind

  datatype Arity = NoValue | OneValue | ManyValues | PairOfValues | Duration

  function ArityOf(op: Op): Arity {
    match op
    case Between => PairOfValues
    case In | NotIn | ContainsAll => ManyValues
    case WithinLast => Duration
    case IsSet | IsNotSet | IsEmpty | IsNotEmpty | UnknownOp => NoValue
    case _ => OneValue
  }

  function KindsOf(op: Op): seq<Kind> {
    match op
    case Eq | Neq => [KString, KNumber, KBoolean, KDate]
    case Gt | Gte | Lt | Lte | Between => [KNumber, KDate, KString]
    case In | NotIn | ContainsAll => [KString, KNumber, KBoolean]
    case Contains | NotContains | StartsWith | EndsWith => [KString]
    case WithinLast => [KDate]
    case _ => []
  }

  predicate IsOrder(op: Op) {
    op == Gt || op == Gte || op == Lt || op == Lte || op == Between
  }

  predicate IsKeyOp(op: Op) {
    op == Eq || op == Neq || op == Gt || op == Gte || op == Lt || op == Lte
  }

  function PositiveOf(op: Op): Option<Op> {
    match op
    case Neq => Some(Eq)
    case NotIn => Some(In)
    case NotContains => Some(Contains)
    case _ => None
  }

  /** A stored or typed value as one comparable key. No number key is a NaN. */
  datatype Number = MinusInfinity | Exactly(x: real) | PlusInfinity

  datatype Key = TextKey(s: string) | NumberKey(n: Number) | TruthKey(b: bool) | DateKey(iso: string)

  predicate HasKind(k: Key, kind: Kind) {
    match kind
    case KString => k.TextKey?
    case KNumber => k.NumberKey?
    case KBoolean => k.TruthKey?
    case KDate => k.DateKey?
  }

  datatype Comparison = Comparison(
    op: Op, kind: Option<Kind>, values: seq<Key>, grain: Option<Grain>, caseSensitive: bool, includeMissing: bool)

  /** From `now` minus a duration up to `now`. */
  datatype Lookback = Lookback(start: Stamp, end: Stamp, toSecond: bool)

  /**
   What the host supplies: case folding of one character, stripping, truth words, the text of a
   float, decimal spellings, date-time spellings (as a moment in UTC) and look-back durations.
   */
  datatype Host = Host(
    fold: char -> char, strip: string -> string, truthOf: string -> Option<bool>, floatText: Double -> string,
    spellsNumber: string -> bool, floatOf: string -> Option<real>, momentOf: string -> Option<Stamp>,
    lookback: string -> Option<Lookback>)

  // ---- a user's value ----

  datatype Problem =
    | NotAnOperator | NotAType | ValueMissing | NothingChosen | PairMissing | NotSingle | NotADuration
    | NotComparedAs | NoOrder | NotReadable | NoText

  datatype Raw = Raws(values: seq<Value>) | BadRaw(problem: Problem)

  datatype Typed = TypedAs(kind: Kind) | BadType(problem: Problem)

  datatype Resolved = Ok(c: Comparison) | Err(problem: Problem)

  predicate IsScalar(v: Value) {
    v.Bool? || v.Int? || v.Float? || v.Str?
  }

  predicate IsGiven(v: Value) {
    v != Null && v != Str("")
  }

  function Given(items: seq<Value>): (r: seq<Value>)
    ensures forall v :: v in r <==> v in items && IsGiven(v)
  {
    if items == [] then []
    else if IsGiven(items[0]) then [items[0]] + Given(items[1..]) else Given(items[1..])
  }

  predicate AllScalar(vs: seq<Value>) {
    forall i :: 0 <= i < |vs| ==> IsScalar(vs[i])
  }

  function RawValues(arity: Arity, v: Value): Raw {
    match arity
    case ManyValues =>
      var items := Given(if v.List? then v.items else [v]);
      if items == [] then BadRaw(NothingChosen) else if !AllScalar(items) then BadRaw(NotSingle) else Raws(items)
    case PairOfValues =>
      if !v.List? || |v.items| != 2 || !IsGiven(v.items[0]) || !IsGiven(v.items[1]) then BadRaw(PairMissing)
      else if !AllScalar(v.items) then BadRaw(NotSingle) else Raws(v.items)
    case _ =>
      var one := if v.List? && |v.items| == 1 then v.items[0] else v;
      if one == Null || (arity == Duration && one == Str("")) then BadRaw(ValueMissing)
      else if !IsScalar(one) then BadRaw(NotSingle)
      else if arity == Duration && !one.Str? then BadRaw(NotADuration)
      else Raws([one])
  }

  predicate IsNumeric(v: Value) {
    v.Int? || v.Float?
  }

  function ResolveKind(h: Host, op: Op, raw: seq<Value>, declared: Declared): Typed {
    if |KindsOf(op)| == 1 then TypedAs(KindsOf(op)[0])
    else if declared.As? then (if declared.kind in KindsOf(op) then TypedAs(declared.kind) else BadType(NotComparedAs))
    else if forall i :: 0 <= i < |raw| ==> raw[i].Bool? then
      if KBoolean in KindsOf(op) then TypedAs(KBoolean) else BadType(NoOrder)
    else if forall i :: 0 <= i < |raw| ==> IsNumeric(raw[i]) then TypedAs(KNumber)
    else if IsOrder(op) && forall i :: 0 <= i < |raw| ==> raw[i].Str? then
      if forall i :: 0 <= i < |raw| ==> raw[i].Str? && h.spellsNumber(h.strip(raw[i].s)) then TypedAs(KNumber)
      else if forall i :: 0 <= i < |raw| ==> UserDateOf(h, raw[i]).Some? then TypedAs(KDate)
      else TypedAs(KString)
    else TypedAs(KString)
  }

  function TextOf(h: Host, v: Value): Option<string> {
    match v
    case Bool(b) => Some(if b then "true" else "false")
    case Int(n) => Some(PrintInt(n))
    case Float(x) => Some(h.floatText(x))
    case Str(s) => Some(s)
    case _ => None
  }

  /** Text that is an optional sign and digits. */
  function UserInteger(s: string): Option<int> {
    var signed := s != "" && (s[0] == '-' || s[0] == '+');
    var digits := if signed then s[1..] else s;
    if digits == "" || !AllDigits(digits) then None else Some(SignedValue(signed && s[0] == '-', digits))
  }

  function UserNumber(h: Host, v: Value): Option<Key> {
    match v
    case Int(n) => if IsInt64(n) then Some(NumberKey(Exactly(n as real))) else None
    case Float(x) => if x.Finite? then Some(NumberKey(Exactly(x.value))) else None
    case Str(t) =>
      var s := h.strip(t);
      if UserInteger(s).Some? then
        if IsInt64(UserInteger(s).value) then Some(NumberKey(Exactly(UserInteger(s).value as real))) else None
      else if h.spellsNumber(s) && h.floatOf(s).Some? then Some(NumberKey(Exactly(h.floatOf(s).value)))
      else None
    case _ => None
  }

  function UserTruth(h: Host, v: Value): Option<Key> {
    match v
    case Bool(b) => Some(TruthKey(b))
    case Str(t) => (match h.truthOf(h.strip(t)) case Some(b) => Some(TruthKey(b)) case None => None)
    case _ => None
  }

  function UserDateOf(h: Host, v: Value): (r: Option<UserDate>)
    ensures r.Some? ==> ValidDate(r.value)
  {
    if !v.Str? then None
    else
      var s := h.strip(v.s);
      if ReadDay(s).Some? then Some(OnDay(ReadDay(s).value))
      else if |s| > 10 && h.momentOf(s).Some? && ValidStamp(h.momentOf(s).value) then Some(At(h.momentOf(s).value))
      else None
  }

  /** A value as a key of a kind other than date. */
  function Coerce(h: Host, kind: Kind, v: Value): Option<Key> {
    match kind
    case KString => (match TextOf(h, v) case Some(s) => Some(TextKey(s)) case None => None)
    case KNumber => UserNumber(h, v)
    case KBoolean => UserTruth(h, v)
    case KDate => None
  }

  function CoerceAll(h: Host, kind: Kind, vs: seq<Value>): (r: Option<seq<Key>>)
    ensures r.Some? ==> |r.value| == |vs| && forall i :: 0 <= i < |vs| ==> Coerce(h, kind, vs[i]) == Some(r.value[i])
    ensures r.None? ==> exists i :: 0 <= i < |vs| && Coerce(h, kind, vs[i]).None?
  {
    if vs == [] then Some([])
    else
      var n := |vs| - 1;
      match CoerceAll(h, kind, vs[..n])
      case None => None
      case Some(front) => (match Coerce(h, kind, vs[n]) case None => None case Some(k) => Some(front + [k]))
  }

  /** The values without repeats, in the order they first came. */
  function Distinct(ks: seq<Key>): (r: seq<Key>)
    ensures forall k :: k in r <==> k in ks
  {
    if ks == [] then []
    else
      var n := |ks| - 1;
      var front := Distinct(ks[..n]);
      if ks[n] in front then front else front + [ks[n]]
  }

  function Folded(h: Host, s: string): (t: string)
    ensures |t| == |s| && forall i :: 0 <= i < |s| ==> t[i] == h.fold(s[i])
  {
    if s == "" then "" else [h.fold(s[0])] + Folded(h, s[1..])
  }

  function Cased(h: Host, k: Key, caseSensitive: bool): Key {
    if k.TextKey? && !caseSensitive then TextKey(Folded(h, k.s)) else k
  }

  function CasedAll(h: Host, ks: seq<Key>, caseSensitive: bool): (r: seq<Key>)
    ensures |r| == |ks| && forall i :: 0 <= i < |ks| ==> r[i] == Cased(h, ks[i], caseSensitive)
  {
    if ks == [] then [] else CasedAll(h, ks[..|ks| - 1], caseSensitive) + [Cased(h, ks[|ks| - 1], caseSensitive)]
  }

  function Comparable(h: Host, c: Comparison): seq<Key> {
    CasedAll(h, c.values, c.caseSensitive)
  }

  // ---- order of keys ----

  predicate NumberLess(a: Number, b: Number) {
    match (a, b)
    case (Exactly(x), Exactly(y)) => x < y
    case (MinusInfinity, _) => b != MinusInfinity
    case (_, PlusInfinity) => a != PlusInfinity
    case _ => false
  }

  predicate KeyLess(a: Key, b: Key) {
    match (a, b)
    case (TextKey(s), TextKey(t)) => LexLess(s, t)
    case (NumberKey(x), NumberKey(y)) => NumberLess(x, y)
    case (TruthKey(x), TruthKey(y)) => !x && y
    case (DateKey(s), DateKey(t)) => LexLess(s, t)
    case _ => false
  }

  // ---- resolving ----

  function Ordered(h: Host, values: seq<Key>, caseSensitive: bool): seq<Key>
    requires |values| == 2
  {
    if KeyLess(Cased(h, values[1], caseSensitive), Cased(h, values[0], caseSensitive))
    then [values[1], values[0]] else values
  }

  /** A pair in order, a list without repeats. */
  function Arranged(h: Host, op: Op, values: seq<Key>, caseSensitive: bool): seq<Key>
    requires ArityOf(op) == PairOfValues ==> |values| == 2
  {
    if ArityOf(op) == PairOfValues then Ordered(h, values, caseSensitive)
    else if ArityOf(op) == ManyValues then Distinct(values) else values
  }

  function DateKeys(texts: seq<string>): (r: seq<Key>)
    ensures |r| == |texts| && forall i :: 0 <= i < |r| ==> r[i] == DateKey(texts[i])
  {
    if texts == [] then [] else DateKeys(texts[..|texts| - 1]) + [DateKey(texts[|texts| - 1])]
  }

  function LookbackDates(b: Lookback): Dates
    requires ValidStamp(b.start) && ValidStamp(b.end)
  {
    if b.toSecond then Dates([IsoSecond(b.start), IsoSecond(b.end)], BySecond)
    else Dates([IsoDay(b.start.day), IsoDay(b.end.day)], ByDay)
  }

  function ResolveDates(h: Host, op: Op, raw: seq<Value>): Option<Dates>
    requires raw != []
  {
    if op == WithinLast then
      if !raw[0].Str? then None
      else
        match h.lookback(raw[0].s)
        case Some(b) => if ValidStamp(b.start) && ValidStamp(b.end) then Some(LookbackDates(b)) else None
        case None => None
    else if ArityOf(op) == PairOfValues && |raw| == 2 then
      match (UserDateOf(h, raw[0]), UserDateOf(h, raw[1]))
      case (Some(u), Some(v)) => Some(PairDates(u, v))
      case _ => None
    else
      match UserDateOf(h, raw[0])
      case Some(u) => Some(OneDate(u))
      case None => None
  }

  function ResolveValues(h: Host, op: Op, raw: seq<Value>, kind: Kind, caseSensitive: bool,
                         includeMissing: bool): Resolved
    requires raw != [] && (ArityOf(op) == PairOfValues ==> |raw| == 2)
  {
    if kind == KDate then
      match ResolveDates(h, op, raw)
      case None => Err(NotReadable)
      case Some(ds) => Ok(Comparison(op, Some(KDate), DateKeys(ds.keys), Some(ds.grain), false, includeMissing))
    else
      match CoerceAll(h, kind, raw)
      case None => Err(NotReadable)
      case Some(values) =>
        if KindsOf(op) == [KString] && values[0] == TextKey("") then Err(NoText)
        else
          Ok(Comparison(op, Some(kind), Arranged(h, op, values, caseSensitive), None, caseSensitive, includeMissing))
  }

  lemma RawIsEnough(arity: Arity, v: Value)
    ensures RawValues(arity, v).Raws? ==> RawValues(arity, v).values != []
    ensures RawValues(arity, v).Raws? && arity == PairOfValues ==> |RawValues(arity, v).values| == 2
  {
  }

  function Resolve(h: Host, op: Op, v: Value, declared: Declared, caseSensitive: bool, includeMissing: bool): Resolved {
    if op == UnknownOp then Err(NotAnOperator)
    else if declared == UnknownKind then Err(NotAType)
    else if ArityOf(op) == NoValue then Ok(Comparison(op, None, [], None, false, includeMissing))
    else
      RawIsEnough(ArityOf(op), v);
      match RawValues(ArityOf(op), v)
      case BadRaw(p) => Err(p)
      case Raws(raw) =>
        match ResolveKind(h, op, raw, declared)
        case BadType(p) => Err(p)
        case TypedAs(kind) => ResolveValues(h, op, raw, kind, caseSensitive, includeMissing)
  }

  /** One property against another: an order reads numbers and equality reads text, unless declared. */
  function ResolveKeyComparison(op: Op, declared: Declared, caseSensitive: bool): Resolved {
    if !IsKeyOp(op) then Err(NotAnOperator)
    else if declared == UnknownKind then Err(NotAType)
    else if declared.As? && declared.kind !in KindsOf(op) then Err(NotComparedAs)
    else
      var kind := if declared.As? then declared.kind else if IsOrder(op) then KNumber else KString;
      Ok(Comparison(op, Some(kind), [], if kind == KDate then Some(BySecond) else None, caseSensitive, false))
  }

  // ---- a stored value ----

  function StoredNumber(v: Value): Option<Key> {
    match v
    case Int(n) => Some(NumberKey(Exactly(n as real)))
    case Float(Finite(x)) => Some(NumberKey(Exactly(x)))
    case Float(Infinite(negative)) => Some(NumberKey(if negative then MinusInfinity else PlusInfinity))
    case Float(NotANumber) => None
    case Str(s) => (match TextNumber(s) case Some(x) => Some(NumberKey(Exactly(x))) case None => None)
    case _ => None
  }

  function StoredTruth(h: Host, v: Value): Option<Key> {
    match v
    case Bool(b) => Some(TruthKey(b))
    case Str(s) => (match h.truthOf(s) case Some(b) => Some(TruthKey(b)) case None => None)
    case _ => None
  }

  /** A slice that stops where the text does. */
  function Cut(s: string, i: nat, j: nat): string
    requires i <= j
  {
    s[Min(i, |s|)..Min(j, |s|)]
  }

  const TEMPLATE: string := "0000-00-00T00:00:00"

  function Blanked(s: string): (t: string)
    ensures |t| == |s| && forall i :: 0 <= i < |s| ==> t[i] == if s[i] == ' ' then 'T' else s[i]
  {
    if s == "" then "" else [if s[0] == ' ' then 'T' else s[0]] + Blanked(s[1..])
  }

  function StoredDate(v: Value, grain: Option<Grain>): Option<Key> {
    if !v.Str? then None
    else
      var e := v.s;
      if Cut(e, 4, 5) != "-" || Cut(e, 7, 8) != "-" then None
      else if !IsInt64Text(Cut(e, 0, 4) + Cut(e, 5, 7) + Cut(e, 8, 10)) then None
      else if grain == Some(ByDay) then Some(DateKey(Cut(e, 0, 10)))
      else
        var t := Blanked(Cut(e, 0, 19));
        Some(DateKey(t + TEMPLATE[|t|..]))
  }

  function KeyOf(h: Host, v: Value, c: Comparison): Option<Key> {
    match c.kind
    case Some(KString) =>
      (match TextOf(h, v) case Some(s) => Some(Cased(h, TextKey(s), c.caseSensitive)) case None => None)
    case Some(KNumber) => StoredNumber(v)
    case Some(KBoolean) => StoredTruth(h, v)
    case _ => StoredDate(v, c.grain)
  }

  function Elements(v: Value): seq<Value> {
    if v.List? then v.items else [v]
  }

  /** The readable elements, as keys. */
  function KeysOf(h: Host, vs: seq<Value>, c: Comparison): seq<Key> {
    if vs == [] then []
    else
      match KeyOf(h, vs[0], c)
      case None => KeysOf(h, vs[1..], c)
      case Some(k) => [k] + KeysOf(h, vs[1..], c)
  }

  predicate IsAllSpaces(s: string) {
    forall i :: 0 <= i < |s| ==> s[i] == ' '
  }

  predicate IsVoid(v: Value) {
    v == Null || v == List([]) || (v.Str? && IsAllSpaces(v.s))
  }

  // ---- the evaluator ----

  datatype Answer = Sure(b: bool) | Fault

  function Not(a: Answer): Answer {
    if a.Sure? then Sure(!a.b) else Fault
  }

  /** A number is compared as a number, so its partner must be one; other values just differ. */
  function Same(a: Key, b: Key): Answer {
    if a.NumberKey? && !b.NumberKey? then Fault else Sure(a == b)
  }

  predicate Alike(a: Key, b: Key) {
    || (a.TextKey? && b.TextKey?)
    || (a.NumberKey? && b.NumberKey?)
    || (a.TruthKey? && b.TruthKey?)
    || (a.DateKey? && b.DateKey?)
  }

  function Less(a: Key, b: Key): Answer {
    if Alike(a, b) then Sure(KeyLess(a, b)) else Fault
  }

  predicate Occurs(v: string, k: string) {
    exists i, j :: 0 <= i <= j <= |k| && k[i..j] == v
  }

  predicate Begins(v: string, k: string) {
    |v| <= |k| && k[..|v|] == v
  }

  predicate Ends(v: string, k: string) {
    |v| <= |k| && k[|k| - |v|..] == v
  }

  function AnySame(k: Key, values: seq<Key>): Answer {
    if values == [] then Sure(false)
    else
      match Same(k, values[0])
      case Fault => Fault
      case Sure(b) => if b then Sure(true) else AnySame(k, values[1..])
  }

  function Both(a: Answer, b: Answer): Answer {
    if a.Fault? then Fault else if !a.b then Sure(false) else b
  }

  function Test(k: Key, op: Op, values: seq<Key>): Answer {
    if values == [] then Fault
    else
      var v := values[0];
      match op
      case Eq => Same(k, v)
      case In => AnySame(k, values)
      case Gt => Less(v, k)
      case Gte => Not(Less(k, v))
      case Lt => Less(k, v)
      case Lte => Not(Less(v, k))
      case Between | WithinLast => Both(Not(Less(k, v)), if |values| < 2 then Fault else Not(Less(values[1], k)))
      case Contains => if v.TextKey? && k.TextKey? then Sure(Occurs(v.s, k.s)) else Fault
      case StartsWith => if v.TextKey? && k.TextKey? then Sure(Begins(v.s, k.s)) else Fault
      case EndsWith => if v.TextKey? && k.TextKey? then Sure(Ends(v.s, k.s)) else Fault
      case _ => Fault
  }

  function AnyTest(ks: seq<Key>, op: Op, values: seq<Key>): Answer {
    if ks == [] then Sure(false)
    else
      match Test(ks[0], op, values)
      case Fault => Fault
      case Sure(b) => if b then Sure(true) else AnyTest(ks[1..], op, values)
  }

  /** Is some key the value? Keys are asked first to last. */
  function AnyIs(ks: seq<Key>, v: Key): Answer {
    if ks == [] then Sure(false)
    else
      match Same(ks[0], v)
      case Fault => Fault
      case Sure(b) => if b then Sure(true) else AnyIs(ks[1..], v)
  }

  function AllFound(values: seq<Key>, ks: seq<Key>): Answer {
    if values == [] then Sure(true)
    else
      match AnyIs(ks, values[0])
      case Fault => Fault
      case Sure(b) => if b then AllFound(values[1..], ks) else Sure(false)
  }

  function Matches(h: Host, stored: Value, op: Op, c: Comparison): Answer {
    var ks := KeysOf(h, Elements(stored), c);
    if op == ContainsAll then AllFound(Comparable(h, c), ks) else AnyTest(ks, op, Comparable(h, c))
  }

  function Evaluate(h: Host, stored: Value, c: Comparison): Answer {
    match c.op
    case IsSet => Sure(stored != Null)
    case IsNotSet => Sure(stored == Null)
    case IsEmpty => Sure(IsVoid(stored))
    case IsNotEmpty => Sure(!IsVoid(stored))
    case _ =>
      match PositiveOf(c.op)
      case Some(positive) => if stored == Null then Sure(c.includeMissing) else Not(Matches(h, stored, positive, c))
      case None => Matches(h, stored, c.op, c)
  }

  function Pairs(ls: seq<Key>, rs: seq<Key>, op: Op): Answer {
    if ls == [] then Sure(false)
    else
      match AnyRight(ls[0], rs, op)
      case Fault => Fault
      case Sure(b) => if b then Sure(true) else Pairs(ls[1..], rs, op)
  }

  function AnyRight(l: Key, rs: seq<Key>, op: Op): Answer {
    if rs == [] then Sure(false)
    else
      match Test(l, op, [rs[0]])
      case Fault => Fault
      case Sure(b) => if b then Sure(true) else AnyRight(l, rs[1..], op)
  }

  function EvaluateKeys(h: Host, left: Value, right: Value, c: Comparison): Answer {
    var ls, rs := KeysOf(h, Elements(left), c), KeysOf(h, Elements(right), c);
    match PositiveOf(c.op)
    case None => Pairs(ls, rs, c.op)
    case Some(positive) => if left == Null || right == Null then Sure(false) else Not(Pairs(ls, rs, positive))
  }
}
