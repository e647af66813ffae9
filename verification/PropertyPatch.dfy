/** Partial updates to an entity: removal markers, applying a patch, composing two. */
module PropertyPatch {
  import opened Options
  import opened StoredType

  type Properties = map<string, Value>

  /** The `properties` entry of a payload: missing, null, or an object. */
  datatype Props = Absent | NullProps | Holds(bag: Properties)

  /** A payload's other top-level fields, and its properties. */
  datatype Payload = Payload(fields: map<string, Value>, props: Props)

  const EMPTY := Payload(map[], Absent)

  function BagOf(p: Props): Properties {
    if p.Holds? then p.bag else map[]
  }

  /** Later top-level fields win, `properties` like any other. */
  function Overlaid(base: Payload, patch: Payload): Payload {
    Payload(base.fields + patch.fields, if patch.props.Absent? then base.props else patch.props)
  }

  function Merged(d: Reader, before: Properties, patch: Properties): Properties {
    map k | k in before.Keys + patch.Keys ::
      if k !in patch then before[k] else if k in before then Preserve(d, before[k], patch[k]) else patch[k]
  }

  function Unmarked(bag: Properties): Properties {
    map k | k in bag && bag[k] != PROP_DELETE :: bag[k]
  }

  function Apply(d: Reader, base: Payload, patch: Payload): Payload {
    var out := Overlaid(base, patch);
    if patch.props.Holds? || base.props.Holds?
    then out.(props := Holds(Unmarked(Merged(d, BagOf(base.props), BagOf(patch.props)))))
    else out
  }

  function Compose(d: Reader, first: Payload, second: Payload): Payload {
    var out := Overlaid(first, second);
    if first.props.Holds? || second.props.Holds?
    then out.(props := Holds(Merged(d, BagOf(first.props), BagOf(second.props))))
    else out
  }

  /** A create's payload: a marker in it has nothing to remove. */
  function StripDeletes(p: Payload): Payload {
    if !p.props.Holds? || (forall k :: k in p.props.bag ==> p.props.bag[k] != PROP_DELETE) then p
    else p.(props := Holds(Unmarked(p.props.bag)))
  }

  function ValueAt(m: Properties, k: string): Option<Value> {
    if k in m then Some(m[k]) else None
  }

  function SentOver(d: Reader, stored: Option<Value>, v: Value): Value {
    if stored.Some? then Preserve(d, stored.value, v) else v
  }

  /** What a key holds after the merge. */
  function MergedAt(d: Reader, before: Properties, sent: Properties, k: string): Option<Value> {
    if k in sent then Some(SentOver(d, ValueAt(before, k), sent[k])) else ValueAt(before, k)
  }

  lemma MergedPointwise(d: Reader, before: Properties, sent: Properties, merged: Properties)
    requires forall k :: ValueAt(merged, k) == MergedAt(d, before, sent, k)
    ensures merged == Merged(d, before, sent)
  {
    var expected := Merged(d, before, sent);
    forall k
      ensures k in merged <==> k in expected
      ensures k in merged ==> merged[k] == expected[k]
    {
      assert ValueAt(merged, k) == MergedAt(d, before, sent, k);
    }
  }

  /** The merge as it is carried out, one key of the patch at a time. */
  method MergeProps(d: Reader, base: Payload, patch: Payload) returns (merged: Properties)
    ensures merged == Merged(d, BagOf(base.props), BagOf(patch.props))
  {
    var before, sent := BagOf(base.props), BagOf(patch.props);
    merged := before;
    var left := sent.Keys;
    while left != {}
      invariant left <= sent.Keys
      invariant forall k :: ValueAt(merged, k) == if k in left then ValueAt(before, k) else MergedAt(d, before, sent, k)
      decreases |left|
    {
      var k :| k in left;
      left := left - {k};
      merged := merged[k := SentOver(d, ValueAt(before, k), sent[k])];
    }
    MergedPointwise(d, before, sent, merged);
  }

  // ---- the boundary: `unsetProperties` beside a payload ----

  const MAX_UNSET: nat := 1000
  const MAX_PROPERTY_NAME: nat := 512

  datatype Normalized =
    | Patch(patch: Payload)
    | TooMany
    | BadName(name: Value)
    | SetAndUnset(names: set<string>)

  predicate ValidName(v: Value) {
    v.Str? && 1 <= |v.s| <= 512
  }

  /** `name` is the first of `names` that is not a property name. */
  ghost predicate FirstBad(names: seq<Value>, name: Value) {
    !ValidName(name)
    && exists i :: 0 <= i < |names| && names[i] == name && forall j :: 0 <= j < i ==> ValidName(names[j])
  }

  ghost predicate NameIn(names: seq<Value>, k: string) {
    Str(k) in names
  }

  /** Properties the payload sets although the request also removes them. */
  ghost function Conflicts(bag: Properties, names: seq<Value>): set<string> {
    set k | k in bag && NameIn(names, k) && bag[k] != PROP_DELETE
  }

  method NormalizeUpdate(payload: Option<Payload>, unset: Option<seq<Value>>) returns (r: Normalized)
    ensures var p := if payload.Some? then payload.value else EMPTY;
            var names := if unset.Some? then unset.value else [];
            && (r.TooMany? <==> |names| > 1000)
            && (r.BadName? <==> |names| <= 1000 && exists i :: 0 <= i < |names| && !ValidName(names[i]))
            && (r.BadName? ==> FirstBad(names, r.name))
            && (r.SetAndUnset? <==> && |names| <= 1000 && (forall i :: 0 <= i < |names| ==> ValidName(names[i]))
                                    && Conflicts(BagOf(p.props), names) != {})
            && (r.SetAndUnset? ==> r.names == Conflicts(BagOf(p.props), names))
            && (r.Patch? ==> FoldsRemovals(p, names, r.patch))
  {
    var p := if payload.Some? then payload.value else EMPTY;
    var names := if unset.Some? then unset.value else [];
    if names == [] {
      return Patch(p);
    }
    if |names| > MAX_UNSET {
      return TooMany;
    }
    var seen: set<string> := {};
    for i := 0 to |names|
      invariant forall j :: 0 <= j < i ==> ValidName(names[j])
      invariant forall k :: k in seen <==> Str(k) in names[..i]
    {
      if !names[i].Str? || names[i].s == "" || |names[i].s| > MAX_PROPERTY_NAME {
        return BadName(names[i]);
      }
      seen := seen + {names[i].s};
    }
    assert names[..|names|] == names;
    var props := BagOf(p.props);
    var both := set k | k in seen && k in props && props[k] != PROP_DELETE;
    assert both == Conflicts(props, names);
    if both != {} {
      return SetAndUnset(both);
    }
    var out := RemoveAll(props, seen);
    r := Patch(p.(props := Holds(out)));
  }

  /** The patch is the payload with a removal for every name, and nothing else changed. */
  ghost predicate FoldsRemovals(p: Payload, names: seq<Value>, patch: Payload) {
    if names == [] then patch == p
    else
      && patch.fields == p.fields && patch.props.Holds?
      && forall k ::
           ValueAt(patch.props.bag, k) == if NameIn(names, k) then Some(PROP_DELETE) else ValueAt(BagOf(p.props), k)
  }

  method RemoveAll(props: Properties, seen: set<string>) returns (out: Properties)
    ensures forall k :: ValueAt(out, k) == if k in seen then Some(PROP_DELETE) else ValueAt(props, k)
  {
    out := props;
    var left := seen;
    while left != {}
      invariant left <= seen
      invariant forall k :: ValueAt(out, k) == if k in seen && k !in left then Some(PROP_DELETE) else ValueAt(props, k)
      decreases |left|
    {
      var k :| k in left;
      left := left - {k};
      out := out[k := PROP_DELETE];
    }
  }

  /** Applying a normalised update is applying its payload, then dropping the named properties. */
  lemma UnsetRemovesExactly(d: Reader, base: Payload, p: Payload, names: seq<Value>, patch: Payload, k: string)
    requires Coherent(d) && names != [] && FoldsRemovals(p, names, patch)
    ensures ValueAt(BagOf(Apply(d, base, patch).props), k)
         == if NameIn(names, k) then None else ValueAt(BagOf(Apply(d, base, p).props), k)
    ensures Apply(d, base, patch).fields == Apply(d, base, p).fields
  {
    assert ValueAt(patch.props.bag, k) == if NameIn(names, k) then Some(PROP_DELETE) else ValueAt(BagOf(p.props), k);
    var b := BagOf(base.props);
    if NameIn(names, k) {
      MergedMarker(d, b, patch.props.bag, k);
    }
  }

  // ---- what applying and composing mean ----

  ghost predicate SameBag(d: Reader, a: Properties, b: Properties) {
    a.Keys == b.Keys && forall k :: k in a ==> FormOf(d, a[k]) == FormOf(d, b[k])
  }

  /** Equal, but for property values that are one value in two spellings. */
  ghost predicate SamePayload(d: Reader, a: Payload, b: Payload) {
    && a.fields == b.fields
    && (a.props.Holds? <==> b.props.Holds?)
    && (if a.props.Holds? then SameBag(d, a.props.bag, b.props.bag) else a.props == b.props)
  }

  /** Where all three mention a property, the grouping of the two edits does not matter. */
  predicate SettledBags(d: Reader, b: Properties, p: Properties, q: Properties) {
    forall k :: k in b && k in p && k in q ==> Settled(d, b[k], p[k], q[k])
  }

  lemma MergedMarker(d: Reader, a: Properties, b: Properties, k: string)
    requires Coherent(d) && k in a.Keys + b.Keys
    ensures Merged(d, a, b)[k] == PROP_DELETE <==> (if k in b then b[k] else a[k]) == PROP_DELETE
    ensures k in b ==> FormOf(d, Merged(d, a, b)[k]) == FormOf(d, b[k])
  {
    if k in a && k in b {
      PreserveKeepsMarker(d, a[k], b[k]);
      PreserveKeepsForm(d, a[k], b[k]);
    }
  }

  function AppliedInTurn(d: Reader, b: Properties, p: Properties, q: Properties): Properties {
    Unmarked(Merged(d, Unmarked(Merged(d, b, p)), q))
  }

  function AppliedAtOnce(d: Reader, b: Properties, p: Properties, q: Properties): Properties {
    Unmarked(Merged(d, b, Merged(d, p, q)))
  }

  lemma MarkerIsOverridden(d: Reader, v: Value)
    requires Coherent(d)
    ensures Preserve(d, PROP_DELETE, v) == v
  {
    MarkerIsNeverSame(d, v);
  }

  /** The value one key ends with: applied in turn, and applied at once. */
  lemma AtOneKey(d: Reader, b: Properties, p: Properties, q: Properties, k: string)
    requires Coherent(d)
    ensures k in AppliedInTurn(d, b, p, q) <==> k in AppliedAtOnce(d, b, p, q)
    ensures k in AppliedInTurn(d, b, p, q) && k in b && k in p && k in q ==>
      && AppliedInTurn(d, b, p, q)[k] == InTurn(d, b[k], p[k], q[k])
      && AppliedAtOnce(d, b, p, q)[k] == AtOnce(d, b[k], p[k], q[k])
    ensures k in AppliedInTurn(d, b, p, q) && !(k in b && k in p && k in q) ==>
      AppliedInTurn(d, b, p, q)[k] == AppliedAtOnce(d, b, p, q)[k]
  {
    if k in b.Keys + p.Keys {
      MergedMarker(d, b, p, k);
    }
    if k in p.Keys + q.Keys {
      MergedMarker(d, p, q, k);
    }
    if k in q {
      MergedMarker(d, Unmarked(Merged(d, b, p)), q, k);
      MarkerIsOverridden(d, q[k]);
    }
    if k in b.Keys + Merged(d, p, q).Keys {
      MergedMarker(d, b, Merged(d, p, q), k);
    }
  }

  lemma AtOneKeySameForm(d: Reader, b: Properties, p: Properties, q: Properties, k: string)
    requires Coherent(d) && k in AppliedInTurn(d, b, p, q)
    ensures k in AppliedAtOnce(d, b, p, q)
    ensures FormOf(d, AppliedInTurn(d, b, p, q)[k]) == FormOf(d, AppliedAtOnce(d, b, p, q)[k])
  {
    AtOneKey(d, b, p, q, k);
    if k in b && k in p && k in q {
      PreserveKeepsForm(d, Preserve(d, b[k], p[k]), q[k]);
      PreserveKeepsForm(d, b[k], Preserve(d, p[k], q[k]));
      PreserveKeepsForm(d, p[k], q[k]);
    }
  }

  /** A settled key that a removal takes away in both groupings has nothing to differ in. */
  lemma RemovedIsSettled(d: Reader, b: Properties, p: Properties, q: Properties, k: string)
    requires Coherent(d) && k in b && k in p && k in q && k !in AppliedInTurn(d, b, p, q)
    ensures Settled(d, b[k], p[k], q[k])
  {
    MergedMarker(d, Unmarked(Merged(d, b, p)), q, k);
    MarkerIsNeverSame(d, p[k]);
    MarkerIsNeverSame(d, b[k]);
  }

  lemma BagsEqualExactly(d: Reader, b: Properties, p: Properties, q: Properties)
    requires Coherent(d)
    ensures AppliedInTurn(d, b, p, q) == AppliedAtOnce(d, b, p, q) <==> SettledBags(d, b, p, q)
  {
    var l, r := AppliedInTurn(d, b, p, q), AppliedAtOnce(d, b, p, q);
    forall k
      ensures k in l <==> k in r
      ensures k in l && !(k in b && k in p && k in q) ==> l[k] == r[k]
      ensures k in b && k in p && k in q ==> (Settled(d, b[k], p[k], q[k]) <==> (k in l ==> l[k] == r[k]))
    {
      AtOneKey(d, b, p, q, k);
      if k in b && k in p && k in q {
        SettledExactly(d, b[k], p[k], q[k]);
        if k !in l {
          RemovedIsSettled(d, b, p, q, k);
        }
      }
    }
    assert l.Keys == r.Keys;
    assert l == r <==> forall k :: k in l ==> l[k] == r[k];
  }

  /**
   Applying two patches in turn and applying their composition give the same payload, up to
   the spelling of a value.
   */
  lemma ComposeMeansInTurn(d: Reader, base: Payload, first: Payload, second: Payload)
    requires Coherent(d)
    ensures SamePayload(d, Apply(d, Apply(d, base, first), second), Apply(d, base, Compose(d, first, second)))
  {
    var b, p, q := BagOf(base.props), BagOf(first.props), BagOf(second.props);
    AppliedFields(d, base, first, second);
    forall k
      ensures k in AppliedInTurn(d, b, p, q) <==> k in AppliedAtOnce(d, b, p, q)
      ensures k in AppliedInTurn(d, b, p, q) ==>
        FormOf(d, AppliedInTurn(d, b, p, q)[k]) == FormOf(d, AppliedAtOnce(d, b, p, q)[k])
    {
      AtOneKey(d, b, p, q, k);
      if k in AppliedInTurn(d, b, p, q) {
        AtOneKeySameForm(d, b, p, q, k);
      }
    }
    InTurnBags(d, base, first, second);
  }

  /** Both sides, in terms of the three property bags. */
  lemma InTurnBags(d: Reader, base: Payload, first: Payload, second: Payload)
    requires Coherent(d)
    ensures var l := Apply(d, Apply(d, base, first), second);
            var r := Apply(d, base, Compose(d, first, second));
            if base.props.Holds? || first.props.Holds? || second.props.Holds?
            then && l.props == Holds(AppliedInTurn(d, BagOf(base.props), BagOf(first.props), BagOf(second.props)))
                 && r.props == Holds(AppliedAtOnce(d, BagOf(base.props), BagOf(first.props), BagOf(second.props)))
            else l.props == r.props && !l.props.Holds?
  {
    var b, p, q := BagOf(base.props), BagOf(first.props), BagOf(second.props);
    if !base.props.Holds? && !first.props.Holds? && second.props.Holds? {
      assert Unmarked(Merged(d, b, p)) == map[];
    }
    if !first.props.Holds? && !second.props.Holds? {
      assert Merged(d, p, q) == map[];
    }
  }

  lemma AppliedFields(d: Reader, base: Payload, first: Payload, second: Payload)
    ensures Apply(d, Apply(d, base, first), second).fields == Apply(d, base, Compose(d, first, second)).fields
  {
    assert (base.fields + first.fields) + second.fields == base.fields + (first.fields + second.fields);
  }

  /** They are equal outright exactly when every property all three mention is settled. */
  lemma ComposeIsExactWhenSettled(d: Reader, base: Payload, first: Payload, second: Payload)
    requires Coherent(d)
    ensures Apply(d, Apply(d, base, first), second) == Apply(d, base, Compose(d, first, second))
       <==> SettledBags(d, BagOf(base.props), BagOf(first.props), BagOf(second.props))
  {
    AppliedFields(d, base, first, second);
    InTurnBags(d, base, first, second);
    BagsEqualExactly(d, BagOf(base.props), BagOf(first.props), BagOf(second.props));
    if !base.props.Holds? || !first.props.Holds? || !second.props.Holds? {
      NothingToSettle(d, base, first, second);
    }
  }

  lemma NothingToSettle(d: Reader, base: Payload, first: Payload, second: Payload)
    requires !base.props.Holds? || !first.props.Holds? || !second.props.Holds?
    ensures SettledBags(d, BagOf(base.props), BagOf(first.props), BagOf(second.props))
  {
  }

  lemma MergedTwice(d: Reader, p: Properties, q: Properties, r: Properties, k: string)
    requires k in p.Keys + q.Keys + r.Keys
    ensures var l, s := Merged(d, Merged(d, p, q), r)[k], Merged(d, p, Merged(d, q, r))[k];
            if k in p && k in q && k in r
            then l == InTurn(d, p[k], q[k], r[k]) && s == AtOnce(d, p[k], q[k], r[k])
            else l == s
  {
  }

  lemma ComposedBags(d: Reader, p: Payload, q: Payload, r: Payload)
    ensures var x := Compose(d, Compose(d, p, q), r);
            var y := Compose(d, p, Compose(d, q, r));
            if p.props.Holds? || q.props.Holds? || r.props.Holds?
            then && x.props == Holds(Merged(d, Merged(d, BagOf(p.props), BagOf(q.props)), BagOf(r.props)))
                 && y.props == Holds(Merged(d, BagOf(p.props), Merged(d, BagOf(q.props), BagOf(r.props))))
            else x.props == y.props && !x.props.Holds?
  {
    if !p.props.Holds? && !q.props.Holds? {
      assert Merged(d, BagOf(p.props), BagOf(q.props)) == map[];
    }
    if !q.props.Holds? && !r.props.Holds? {
      assert Merged(d, BagOf(q.props), BagOf(r.props)) == map[];
    }
  }

  lemma ComposedFields(d: Reader, p: Payload, q: Payload, r: Payload)
    ensures Compose(d, Compose(d, p, q), r).fields == Compose(d, p, Compose(d, q, r)).fields
  {
    assert (p.fields + q.fields) + r.fields == p.fields + (q.fields + r.fields);
  }

  /** Composition is associative up to spelling ... */
  lemma ComposeAssociates(d: Reader, p: Payload, q: Payload, r: Payload)
    requires Coherent(d)
    ensures SamePayload(d, Compose(d, Compose(d, p, q), r), Compose(d, p, Compose(d, q, r)))
  {
    ComposedFields(d, p, q, r);
    ComposedBags(d, p, q, r);
    MergesAssociate(d, BagOf(p.props), BagOf(q.props), BagOf(r.props));
  }

  /** ... and outright exactly when settled. */
  lemma ComposeAssociatesExactlyWhenSettled(d: Reader, p: Payload, q: Payload, r: Payload)
    requires Coherent(d)
    ensures Compose(d, Compose(d, p, q), r) == Compose(d, p, Compose(d, q, r))
       <==> SettledBags(d, BagOf(p.props), BagOf(q.props), BagOf(r.props))
  {
    ComposedFields(d, p, q, r);
    ComposedBags(d, p, q, r);
    MergesAssociate(d, BagOf(p.props), BagOf(q.props), BagOf(r.props));
  }

  function LeftGrouped(d: Reader, p: Properties, q: Properties, r: Properties): (m: Properties)
    ensures m.Keys == p.Keys + q.Keys + r.Keys
  {
    Merged(d, Merged(d, p, q), r)
  }

  function RightGrouped(d: Reader, p: Properties, q: Properties, r: Properties): (m: Properties)
    ensures m.Keys == p.Keys + q.Keys + r.Keys
  {
    Merged(d, p, Merged(d, q, r))
  }

  lemma GroupedAt(d: Reader, p: Properties, q: Properties, r: Properties, k: string)
    requires Coherent(d) && k in p.Keys + q.Keys + r.Keys
    ensures FormOf(d, LeftGrouped(d, p, q, r)[k]) == FormOf(d, RightGrouped(d, p, q, r)[k])
    ensures LeftGrouped(d, p, q, r)[k] == RightGrouped(d, p, q, r)[k]
       <==> (k in p && k in q && k in r ==> Settled(d, p[k], q[k], r[k]))
  {
    MergedTwice(d, p, q, r, k);
    if k in p && k in q && k in r {
      SettledExactly(d, p[k], q[k], r[k]);
      PreserveKeepsForm(d, Preserve(d, p[k], q[k]), r[k]);
      PreserveKeepsForm(d, p[k], Preserve(d, q[k], r[k]));
      PreserveKeepsForm(d, q[k], r[k]);
    }
  }

  lemma EqualWhereSettled(d: Reader, p: Properties, q: Properties, r: Properties, x: Properties, y: Properties)
    requires x.Keys == y.Keys == p.Keys + q.Keys + r.Keys
    requires forall k :: k in x ==> (x[k] == y[k] <==> (k in p && k in q && k in r ==> Settled(d, p[k], q[k], r[k])))
    ensures x == y <==> SettledBags(d, p, q, r)
  {
    assert x == y <==> forall k :: k in x ==> x[k] == y[k];
  }

  lemma MergesAssociate(d: Reader, p: Properties, q: Properties, r: Properties)
    requires Coherent(d)
    ensures SameBag(d, LeftGrouped(d, p, q, r), RightGrouped(d, p, q, r))
    ensures LeftGrouped(d, p, q, r) == RightGrouped(d, p, q, r) <==> SettledBags(d, p, q, r)
  {
    var x, y := LeftGrouped(d, p, q, r), RightGrouped(d, p, q, r);
    forall k | k in x
      ensures FormOf(d, x[k]) == FormOf(d, y[k])
      ensures x[k] == y[k] <==> (k in p && k in q && k in r ==> Settled(d, p[k], q[k], r[k]))
    {
      GroupedAt(d, p, q, r, k);
    }
    EqualWhereSettled(d, p, q, r, x, y);
  }

  /** No applied result carries a removal, and every property it holds was named by one side. */
  lemma AppliedHasNoMarker(d: Reader, base: Payload, patch: Payload, k: string)
    requires Coherent(d)
    ensures k in BagOf(Apply(d, base, patch).props)
       <==> (if k in BagOf(patch.props) then BagOf(patch.props)[k] != PROP_DELETE
             else k in BagOf(base.props) && BagOf(base.props)[k] != PROP_DELETE)
    ensures k in BagOf(Apply(d, base, patch).props) ==> BagOf(Apply(d, base, patch).props)[k] != PROP_DELETE
  {
    var b, p := BagOf(base.props), BagOf(patch.props);
    if k in b.Keys + p.Keys {
      MergedMarker(d, b, p, k);
    }
  }

  // ---- who wins ----

  /** What becomes of one property when `sent` is saved over `stored`: a removal is for the caller. */
  ghost predicate Wins(d: Reader, stored: Option<Value>, sent: Value, result: Value) {
    && FormOf(d, result) == FormOf(d, sent)
    && (result == PROP_DELETE <==> sent == PROP_DELETE)
    && (stored.None? ==> result == sent)
    && (stored.Some? ==> (result == stored.value <==> SentBack(d, stored.value, sent)))
    && (stored.Some? && !Blends(stored.value, sent) ==> result == stored.value || result == sent)
  }

  lemma SentWins(d: Reader, before: Properties, sent: Properties, k: string)
    requires Coherent(d) && k in sent
    ensures Wins(d, ValueAt(before, k), sent[k], Merged(d, before, sent)[k])
  {
    if k in before {
      PreserveKeepsForm(d, before[k], sent[k]);
      PreserveKeepsMarker(d, before[k], sent[k]);
      KeptExactlyWhenSentBack(d, before[k], sent[k]);
    }
  }

  /** The `properties` entry is an object as soon as one side has one; else the later side's, if it has any. */
  predicate PropsShape(base: Props, patch: Props, out: Props) {
    && (out.Holds? <==> base.Holds? || patch.Holds?)
    && (!out.Holds? ==> out == if patch.Absent? then base else patch)
  }

  /** A field the patch sends is the patch's, any other the base's; properties one level deeper. */
  lemma PatchWins(d: Reader, base: Payload, patch: Payload, k: string)
    requires Coherent(d)
    ensures var out := Apply(d, base, patch);
            var b, p, r := ValueAt(BagOf(base.props), k), ValueAt(BagOf(patch.props), k), ValueAt(BagOf(out.props), k);
            && ValueAt(out.fields, k) == (if k in patch.fields then Some(patch.fields[k]) else ValueAt(base.fields, k))
            && PropsShape(base.props, patch.props, out.props)
            && (p.None? ==> r == if b == Some(PROP_DELETE) then None else b)
            && (p == Some(PROP_DELETE) ==> r.None?)
            && (p.Some? && p.value != PROP_DELETE ==> r.Some? && Wins(d, b, p.value, r.value))
  {
    if k in BagOf(patch.props) {
      SentWins(d, BagOf(base.props), BagOf(patch.props), k);
    }
  }

  /** Of two patches the second wins, and a removal of either is kept as one. */
  lemma SecondWins(d: Reader, first: Payload, second: Payload, k: string)
    requires Coherent(d)
    ensures var out := Compose(d, first, second);
            var a, b := ValueAt(BagOf(first.props), k), ValueAt(BagOf(second.props), k);
            var f, r := ValueAt(out.fields, k), ValueAt(BagOf(out.props), k);
            && f == (if k in second.fields then Some(second.fields[k]) else ValueAt(first.fields, k))
            && PropsShape(first.props, second.props, out.props)
            && (b.None? ==> r == a)
            && (b.Some? ==> r.Some? && Wins(d, a, b.value, r.value))
  {
    if k in BagOf(second.props) {
      SentWins(d, BagOf(first.props), BagOf(second.props), k);
    }
  }

  /** Stripping a create is applying it to nothing, so stripping again changes nothing. */
  lemma StripIsApplyToNothing(d: Reader, p: Payload)
    ensures StripDeletes(p) == Apply(d, EMPTY, p) && StripDeletes(StripDeletes(p)) == StripDeletes(p)
  {
    assert map[] + p.fields == p.fields;
    if p.props.Holds? {
      assert Merged(d, map[], p.props.bag) == p.props.bag;
      if forall k :: k in p.props.bag ==> p.props.bag[k] != PROP_DELETE {
        assert Unmarked(p.props.bag) == p.props.bag;
      }
    }
  }

  function Only(v: Value): Payload {
    Payload(map[], Holds(map["n" := v]))
  }

  lemma MergedOnly(d: Reader, v: Value, w: Value)
    ensures Merged(d, map["n" := v], map["n" := w]) == map["n" := Preserve(d, v, w)]
    ensures v != PROP_DELETE ==> Unmarked(map["n" := v]) == map["n" := v]
  {
  }

  /**
   Where the two readings part: 5 is stored, 7 saved over it, then "5" saved. In turn the text
   "5" stays; composed first, the stored 5 comes back.
   */
  lemma SpellingCanDiffer(d: Reader)
    requires d.intOf("5") == Some(5)
    ensures Apply(d, Apply(d, Only(Int(5)), Only(Int(7))), Only(Str("5"))).props == Only(Str("5")).props
    ensures Apply(d, Only(Int(5)), Compose(d, Only(Int(7)), Only(Str("5")))).props == Only(Int(5)).props
  {
    assert "5" != PROP_DELETE.s;
    MergedOnly(d, Int(5), Int(7));
    MergedOnly(d, Int(7), Str("5"));
    MergedOnly(d, Str("5"), Null);
    MergedOnly(d, Int(5), Str("5"));
  }
}
