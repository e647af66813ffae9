/** The text operators: what they find, and that they find nothing else. */
module SearchTexts {
  import opened Options
  import opened StoredType
  import opened SearchSemantics
  import opened SearchSoundness
  import opened SearchLaws

  predicate IsTextOp(op: Op) {
    op == Contains || op == StartsWith || op == EndsWith
  }

  /** Text as a comparison reads it. */
  function Read(h: Host, s: string, cs: bool): string {
    if cs then s else Folded(h, s)
  }

  lemma FoldedConcat(h: Host, a: string, b: string)
    ensures Folded(h, a + b) == Folded(h, a) + Folded(h, b)
  {
  }

  lemma FoldedSlice(h: Host, s: string, i: nat, j: nat)
    requires i <= j <= |s|
    ensures Folded(h, s[i..j]) == Folded(h, s)[i..j]
  {
  }

  function LookingFor(op: Op, v: string, cs: bool, im: bool): Comparison {
    Comparison(op, Some(KString), [TextKey(v)], None, cs, im)
  }

  lemma TextResolves(h: Host, op: Op, v: string, declared: Declared, cs: bool, im: bool)
    requires IsTextOp(op) && v != "" && declared != UnknownKind
    ensures Resolve(h, op, Str(v), declared, cs, im) == Ok(LookingFor(op, v, cs, im))
  {
    assert Coerce(h, KString, Str(v)) == Some(TextKey(v));
    OneResolves(h, op, Str(v), declared, KString, cs, im, TextKey(v));
  }

  predicate Finds(op: Op, v: string, k: string) {
    (op == Contains && Occurs(v, k)) || (op == StartsWith && Begins(v, k)) || (op == EndsWith && Ends(v, k))
  }

  lemma LookingMeans(h: Host, op: Op, v: string, k: string, cs: bool, im: bool)
    requires IsTextOp(op)
    ensures Evaluate(h, Str(k), LookingFor(op, v, cs, im))
         == Sure(Finds(op, Read(h, v, cs), Read(h, k, cs)))
  {
    var c := LookingFor(op, v, cs, im);
    WellTypedMeans(h, Str(k), c);
    assert Elements(Str(k))[1..] == [];
    var ks := KeysOf(h, Elements(Str(k)), c);
    assert ks == [TextKey(Read(h, k, cs))] + KeysOf(h, [], c);
    assert Comparable(h, c)[0] == TextKey(Read(h, v, cs));
    assert ks[0] == TextKey(Read(h, k, cs));
  }

  lemma Spread(front: string, v: string, rest: string)
    ensures Begins(v, v + rest) && Ends(v, front + v) && Occurs(v, front + v + rest)
  {
    assert (v + rest)[..|v|] == v;
    assert (front + v)[|front + v| - |v|..] == v;
    assert (front + v + rest)[|front|..|front| + |v|] == v;
  }

  lemma ReadConcat(h: Host, a: string, b: string, cs: bool)
    ensures Read(h, a + b, cs) == Read(h, a, cs) + Read(h, b, cs)
  {
    FoldedConcat(h, a, b);
  }

  /** The evaluator finds the text at the start, at the end and anywhere, whatever the case rule. */
  lemma TextIsFound(h: Host, front: string, v: string, rest: string, cs: bool, im: bool)
    ensures Evaluate(h, Str(v + rest), LookingFor(StartsWith, v, cs, im)) == Sure(true)
    ensures Evaluate(h, Str(front + v), LookingFor(EndsWith, v, cs, im)) == Sure(true)
    ensures Evaluate(h, Str(front + v + rest), LookingFor(Contains, v, cs, im)) == Sure(true)
  {
    LookingMeans(h, StartsWith, v, v + rest, cs, im);
    LookingMeans(h, EndsWith, v, front + v, cs, im);
    LookingMeans(h, Contains, v, front + v + rest, cs, im);
    ReadConcat(h, v, rest, cs);
    ReadConcat(h, front, v, cs);
    ReadConcat(h, front + v, rest, cs);
    Spread(Read(h, front, cs), Read(h, v, cs), Read(h, rest, cs));
  }

  /** Where the text was found. */
  lemma FoundAt(op: Op, v: string, k: string) returns (i: nat, j: nat)
    requires Finds(op, v, k)
    ensures i <= j <= |k| && k[i..j] == v && (op == StartsWith ==> i == 0) && (op == EndsWith ==> j == |k|)
  {
    if op == Contains {
      i, j :| 0 <= i <= j <= |k| && k[i..j] == v;
    } else if op == StartsWith {
      i, j := 0, |v|;
    } else {
      i, j := |k| - |v|, |k|;
    }
  }

  lemma ReadSlice(h: Host, s: string, cs: bool, i: nat, j: nat)
    requires i <= j <= |s|
    ensures |Read(h, s, cs)| == |s| && Read(h, s[i..j], cs) == Read(h, s, cs)[i..j]
  {
    FoldedSlice(h, s, i, j);
  }

  /** Whatever it finds is there: a stretch of the stored text that reads as the text looked for. */
  lemma FoundIsText(h: Host, op: Op, v: string, k: string, cs: bool, im: bool)
    returns (front: string, found: string, rest: string)
    requires IsTextOp(op) && Evaluate(h, Str(k), LookingFor(op, v, cs, im)) == Sure(true)
    ensures k == front + found + rest && Read(h, found, cs) == Read(h, v, cs)
    ensures (op == StartsWith ==> front == "") && (op == EndsWith ==> rest == "")
  {
    LookingMeans(h, op, v, k, cs, im);
    front, found, rest := FoundInText(h, op, v, k, cs);
  }

  lemma FoundInText(h: Host, op: Op, v: string, k: string, cs: bool)
    returns (front: string, found: string, rest: string)
    requires Finds(op, Read(h, v, cs), Read(h, k, cs))
    ensures k == front + found + rest && Read(h, found, cs) == Read(h, v, cs)
    ensures (op == StartsWith ==> front == "") && (op == EndsWith ==> rest == "")
  {
    var i, j := FoundAt(op, Read(h, v, cs), Read(h, k, cs));
    ReadSlice(h, k, cs, 0, 0);
    ReadSlice(h, k, cs, i, j);
    ThreeParts(k, i, j);
    front, found, rest := k[..i], k[i..j], k[j..];
  }

  lemma ThreeParts(k: string, i: nat, j: nat)
    requires i <= j <= |k|
    ensures k == k[..i] + k[i..j] + k[j..]
  {
  }
}
