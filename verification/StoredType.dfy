/** Which of two spellings of one property value a save keeps. */
module StoredType {
  import opened Options

  datatype Double = Finite(value: real) | Infinite(negative: bool) | NotANumber

  datatype Value =
    | Null
    | Bool(b: bool)
    | Int(n: int)
    | Float(x: Double)
    | Str(s: string)
    | List(items: seq<Value>)
    | Dict(entries: map<string, Value>)

  const PROP_DELETE := Str("__nx_prop_delete__")

  /**
   How the host language reads scalars: the double nearest an integer, and the stripped text
   as a double, as a plain integer, and as a truth word.
   */
  datatype Reader = Reader(
    double: int -> Double, floatOf: string -> Option<Double>, intOf: string -> Option<int>,
    truthOf: string -> Option<bool>)

  /** Reading digits as a double is reading them as an integer and rounding; no word is both. */
  ghost predicate Coherent(d: Reader) {
    && (forall s :: d.intOf(s).Some? ==> d.floatOf(s) == Some(d.double(d.intOf(s).value)))
    && (forall s :: d.truthOf(s).Some? ==> d.floatOf(s).None?)
    && (forall s :: Str(s) == PROP_DELETE ==> d.floatOf(s).None? && d.truthOf(s).None?)
  }

  predicate SameDouble(x: Double, y: Double) {
    x == y && x != NotANumber
  }

  predicate ReadsAs(t: Option<Double>, x: Double) {
    t.Some? && SameDouble(t.value, x)
  }

  /** The stored scalar, sent back in a lossier or retyped form. */
  predicate Same(d: Reader, stored: Value, incoming: Value) {
    match stored
    case Bool(b) => incoming.Str? && d.truthOf(incoming.s) == Some(b)
    case Int(n) =>
      || (incoming.Str? && d.intOf(incoming.s) == Some(n))
      || (incoming.Float? && incoming.x.Finite? && d.double(n) == incoming.x)
    case Float(x) =>
      || (incoming.Str? && ReadsAs(d.floatOf(incoming.s), x))
      || (incoming.Int? && SameDouble(d.double(incoming.n), x))
    case Str(s) =>
      || (incoming.Int? && ReadsAs(d.floatOf(s), d.double(incoming.n)))
      || (incoming.Float? && ReadsAs(d.floatOf(s), incoming.x))
    case Null => false
    case List(_) => false
    case Dict(_) => false
  }

  /** Compared part by part. */
  predicate Blends(stored: Value, incoming: Value) {
    || (stored.List? && incoming.List? && |stored.items| == |incoming.items|)
    || (stored.Dict? && incoming.Dict?)
  }

  function Preserve(d: Reader, stored: Value, incoming: Value): Value
    decreases incoming
  {
    if Same(d, stored, incoming) then stored
    else if !Blends(stored, incoming) then incoming
    else if stored.List? then
      List(seq(|incoming.items|,
               i requires 0 <= i < |incoming.items| => Preserve(d, stored.items[i], incoming.items[i])))
    else
      Dict(map k | k in incoming.entries ::
        if k in stored.entries then Preserve(d, stored.entries[k], incoming.entries[k]) else incoming.entries[k])
  }

  // ---- the value behind its spelling ----

  datatype Form =
    | Nothing
    | Truth(b: bool)
    | Number(x: Double)
    | Text(s: string)
    | Forms(items: seq<Form>)
    | Bag(entries: map<string, Form>)

  /** One form for every spelling a client may send back. */
  function FormOf(d: Reader, v: Value): Form {
    match v
    case Null => Nothing
    case Bool(b) => Truth(b)
    case Int(n) => Number(d.double(n))
    case Float(x) => Number(x)
    case Str(s) =>
      if d.floatOf(s).Some? then Number(d.floatOf(s).value)
      else if d.truthOf(s).Some? then Truth(d.truthOf(s).value)
      else Text(s)
    case List(items) => Forms(seq(|items|, i requires 0 <= i < |items| => FormOf(d, items[i])))
    case Dict(entries) => Bag(map k | k in entries :: FormOf(d, entries[k]))
  }

  lemma SameForm(d: Reader, stored: Value, incoming: Value)
    requires Coherent(d) && Same(d, stored, incoming)
    ensures FormOf(d, stored) == FormOf(d, incoming)
  {
  }

  /** Keeping the stored spelling never changes the value that was sent. */
  lemma {:induction false} PreserveKeepsForm(d: Reader, stored: Value, incoming: Value)
    requires Coherent(d)
    ensures FormOf(d, Preserve(d, stored, incoming)) == FormOf(d, incoming)
    decreases incoming
  {
    if Same(d, stored, incoming) {
      SameForm(d, stored, incoming);
    } else if Blends(stored, incoming) {
      if stored.List? {
        forall i | 0 <= i < |incoming.items|
          ensures FormOf(d, Preserve(d, stored.items[i], incoming.items[i])) == FormOf(d, incoming.items[i])
        {
          PreserveKeepsForm(d, stored.items[i], incoming.items[i]);
        }
        assert FormOf(d, Preserve(d, stored, incoming)).items == FormOf(d, incoming).items;
      } else {
        forall k | k in incoming.entries && k in stored.entries
          ensures FormOf(d, Preserve(d, stored.entries[k], incoming.entries[k])) == FormOf(d, incoming.entries[k])
        {
          PreserveKeepsForm(d, stored.entries[k], incoming.entries[k]);
        }
        assert FormOf(d, Preserve(d, stored, incoming)).entries == FormOf(d, incoming).entries;
      }
    }
  }

  lemma MarkerIsNeverSame(d: Reader, v: Value)
    requires Coherent(d)
    ensures !Same(d, PROP_DELETE, v) && !Same(d, v, PROP_DELETE)
  {
  }

  /** A removal stays a removal, and nothing else becomes one. */
  lemma PreserveKeepsMarker(d: Reader, stored: Value, incoming: Value)
    requires Coherent(d)
    ensures Preserve(d, stored, incoming) == PROP_DELETE <==> incoming == PROP_DELETE
  {
    MarkerIsNeverSame(d, stored);
    MarkerIsNeverSame(d, incoming);
  }

  // ---- which values are taken for the stored one, sent back ----

  /** The ways a scalar may come back in another type: through a double, or as text and back. */
  predicate Retyped(stored: Value, incoming: Value) {
    || (stored.Bool? && incoming.Str?)
    || (stored.Int? && (incoming.Str? || (incoming.Float? && incoming.x.Finite?)))
    || (stored.Float? && (incoming.Str? || incoming.Int?))
    || (stored.Str? && (incoming.Int? || incoming.Float?))
  }

  /** One value in two types, not-a-number being none; the text of a stored integer has to be an integer's. */
  predicate OneValue(d: Reader, stored: Value, incoming: Value) {
    if stored.Int? && incoming.Str? then d.intOf(incoming.s) == Some(stored.n)
    else FormOf(d, stored) == FormOf(d, incoming) && FormOf(d, stored) != Number(NotANumber)
  }

  /** The stored value, sent back, part by part. */
  predicate SentBack(d: Reader, stored: Value, incoming: Value)
    decreases incoming
  {
    if !Blends(stored, incoming) then
      stored == incoming || (Retyped(stored, incoming) && OneValue(d, stored, incoming))
    else if stored.List? then
      forall i :: 0 <= i < |incoming.items| ==> SentBack(d, stored.items[i], incoming.items[i])
    else
      && stored.entries.Keys == incoming.entries.Keys
      && forall k :: k in incoming.entries ==> SentBack(d, stored.entries[k], incoming.entries[k])
  }

  lemma ScalarKeptExactly(d: Reader, stored: Value, incoming: Value)
    requires Coherent(d) && !Blends(stored, incoming)
    ensures Preserve(d, stored, incoming) == (if SentBack(d, stored, incoming) then stored else incoming)
  {
    if Same(d, stored, incoming) {
      SameForm(d, stored, incoming);
    }
  }

  /** The stored spelling is kept whole if and only if every part of it was sent back. */
  lemma {:induction false} KeptExactlyWhenSentBack(d: Reader, stored: Value, incoming: Value)
    requires Coherent(d)
    ensures Preserve(d, stored, incoming) == stored <==> SentBack(d, stored, incoming)
    decreases incoming
  {
    var out := Preserve(d, stored, incoming);
    if !Blends(stored, incoming) {
      ScalarKeptExactly(d, stored, incoming);
    } else if stored.List? {
      forall i | 0 <= i < |incoming.items|
        ensures out.items[i] == stored.items[i] <==> SentBack(d, stored.items[i], incoming.items[i])
      {
        KeptExactlyWhenSentBack(d, stored.items[i], incoming.items[i]);
      }
      assert out == stored <==> out.items == stored.items;
    } else {
      forall k | k in incoming.entries && k in stored.entries
        ensures out.entries[k] == stored.entries[k] <==> SentBack(d, stored.entries[k], incoming.entries[k])
      {
        KeptExactlyWhenSentBack(d, stored.entries[k], incoming.entries[k]);
      }
      assert out == stored <==> out.entries == stored.entries;
      assert out.entries.Keys == incoming.entries.Keys;
    }
  }

  /** Lists of one length and objects are taken part by part; what is new in them is taken as sent. */
  lemma PartByPart(d: Reader, stored: Value, incoming: Value)
    requires Blends(stored, incoming)
    ensures var out := Preserve(d, stored, incoming);
            && (incoming.List? ==>
                  && out.List? && |out.items| == |incoming.items|
                  && forall i :: 0 <= i < |out.items| ==>
                       out.items[i] == Preserve(d, stored.items[i], incoming.items[i]))
            && (incoming.Dict? ==>
                  && out.Dict? && out.entries.Keys == incoming.entries.Keys
                  && forall k :: k in out.entries ==>
                       out.entries[k] == if k in stored.entries then Preserve(d, stored.entries[k], incoming.entries[k])
                                         else incoming.entries[k])
  {
  }

  /**
   An integer that a client read into a double comes back as another integer when the double is
   printed without a point. It is the same value as far as the client could tell, and is saved.
   */
  lemma RoundedIntegerIsSaved(d: Reader, n: int, m: int)
    requires Coherent(d) && n != m && d.double(n) == d.double(m)
    ensures FormOf(d, Int(n)) == FormOf(d, Int(m)) && Preserve(d, Int(n), Int(m)) == Int(m)
    ensures d.double(n).Finite? ==> Preserve(d, Int(n), Float(d.double(n))) == Int(n)
  {
  }

  // ---- when two saves in turn and one composed save keep the same spelling ----

  /** No part of the stored value survives the incoming one. */
  predicate Overrides(d: Reader, stored: Value, incoming: Value)
    decreases incoming
  {
    if Same(d, stored, incoming) then stored == incoming
    else if !Blends(stored, incoming) then true
    else if stored.List? then
      forall i :: 0 <= i < |incoming.items| ==> Overrides(d, stored.items[i], incoming.items[i])
    else
      forall k :: k in incoming.entries && k in stored.entries ==> Overrides(d, stored.entries[k], incoming.entries[k])
  }

  /** The base value, the first edit and the second: does their grouping not matter? */
  predicate Settled(d: Reader, base: Value, first: Value, second: Value)
    decreases second
  {
    if Same(d, first, second) then
      Same(d, base, first) ==> Same(d, base, second) || base == second
    else if !Blends(first, second) then
      Same(d, base, first) || Overrides(d, base, second)
    else if !Blends(base, first) then true
    else if first.List? then
      forall i :: 0 <= i < |second.items| ==> Settled(d, base.items[i], first.items[i], second.items[i])
    else
      forall k :: k in second.entries && k in base.entries ==>
        if k in first.entries then Settled(d, base.entries[k], first.entries[k], second.entries[k])
        else Overrides(d, base.entries[k], second.entries[k])
  }

  lemma {:induction false} OverridesExactly(d: Reader, stored: Value, incoming: Value)
    ensures Overrides(d, stored, incoming) <==> Preserve(d, stored, incoming) == incoming
    decreases incoming
  {
    if !Same(d, stored, incoming) && Blends(stored, incoming) {
      var out := Preserve(d, stored, incoming);
      if stored.List? {
        forall i | 0 <= i < |incoming.items|
          ensures Overrides(d, stored.items[i], incoming.items[i]) <==> out.items[i] == incoming.items[i]
        {
          OverridesExactly(d, stored.items[i], incoming.items[i]);
        }
        assert out == incoming <==> out.items == incoming.items;
      } else {
        forall k | k in incoming.entries && k in stored.entries
          ensures Overrides(d, stored.entries[k], incoming.entries[k]) <==> out.entries[k] == incoming.entries[k]
        {
          OverridesExactly(d, stored.entries[k], incoming.entries[k]);
        }
        assert out == incoming <==> out.entries == incoming.entries;
      }
    }
  }

  function InTurn(d: Reader, base: Value, first: Value, second: Value): Value {
    Preserve(d, Preserve(d, base, first), second)
  }

  function AtOnce(d: Reader, base: Value, first: Value, second: Value): Value {
    Preserve(d, base, Preserve(d, first, second))
  }

  predicate GroupsAlike(d: Reader, base: Value, first: Value, second: Value) {
    InTurn(d, base, first, second) == AtOnce(d, base, first, second)
  }

  lemma SettledLists(d: Reader, base: Value, first: Value, second: Value)
    requires base.List? && first.List? && second.List? && |base.items| == |first.items| == |second.items|
    requires forall i :: 0 <= i < |second.items| ==>
      (Settled(d, base.items[i], first.items[i], second.items[i])
       <==> GroupsAlike(d, base.items[i], first.items[i], second.items[i]))
    ensures Settled(d, base, first, second) <==> GroupsAlike(d, base, first, second)
  {
    var l, r := InTurn(d, base, first, second), AtOnce(d, base, first, second);
    assert l == r <==> l.items == r.items;
    forall i | 0 <= i < |second.items|
      ensures l.items[i] == InTurn(d, base.items[i], first.items[i], second.items[i])
      ensures r.items[i] == AtOnce(d, base.items[i], first.items[i], second.items[i])
    {
    }
  }

  predicate KeySettled(d: Reader, base: Value, first: Value, second: Value, k: string)
    requires base.Dict? && first.Dict? && second.Dict?
  {
    k in second.entries && k in base.entries ==>
      if k in first.entries then Settled(d, base.entries[k], first.entries[k], second.entries[k])
      else Overrides(d, base.entries[k], second.entries[k])
  }

  lemma SettledDicts(d: Reader, base: Value, first: Value, second: Value)
    requires base.Dict? && first.Dict? && second.Dict?
    requires forall k :: k in second.entries && k in base.entries && k in first.entries ==>
      (Settled(d, base.entries[k], first.entries[k], second.entries[k])
       <==> GroupsAlike(d, base.entries[k], first.entries[k], second.entries[k]))
    ensures Settled(d, base, first, second) <==> GroupsAlike(d, base, first, second)
  {
    var l, r := InTurn(d, base, first, second), AtOnce(d, base, first, second);
    assert l == r <==> l.entries == r.entries;
    forall k | k in second.entries
      ensures KeySettled(d, base, first, second, k) <==> l.entries[k] == r.entries[k]
    {
      if k in base.entries && k !in first.entries {
        OverridesExactly(d, base.entries[k], second.entries[k]);
      }
    }
    assert Settled(d, base, first, second)
      <==> forall k :: k in second.entries ==> KeySettled(d, base, first, second, k);
  }

  /** Two saves in turn keep the same spelling as the composed save exactly when `Settled`. */
  lemma {:induction false} SettledExactly(d: Reader, base: Value, first: Value, second: Value)
    ensures Settled(d, base, first, second) <==> InTurn(d, base, first, second) == AtOnce(d, base, first, second)
    decreases second
  {
    if Blends(base, first) && Blends(first, second) {
      if first.List? {
        forall i | 0 <= i < |second.items|
          ensures Settled(d, base.items[i], first.items[i], second.items[i])
             <==> GroupsAlike(d, base.items[i], first.items[i], second.items[i])
        {
          SettledExactly(d, base.items[i], first.items[i], second.items[i]);
        }
        SettledLists(d, base, first, second);
      } else {
        forall k | k in second.entries && k in base.entries && k in first.entries
          ensures Settled(d, base.entries[k], first.entries[k], second.entries[k])
             <==> GroupsAlike(d, base.entries[k], first.entries[k], second.entries[k])
        {
          SettledExactly(d, base.entries[k], first.entries[k], second.entries[k]);
        }
        SettledDicts(d, base, first, second);
      }
    } else {
      OverridesExactly(d, base, second);
    }
  }
}
