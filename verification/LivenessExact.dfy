/** Exactly which probes of the upstream let a refresh return its tokens. */
module LivenessExact {
  import opened Options
  import opened SessionPolicy
  import opened RotationProtocol
  import opened SessionLiveness

  /** Nobody to ask, a yes, or no answer while the last confirmation on record is recent enough. */
  predicate MayReturn(lastChecked: Option<int>, resolved: Option<int>, answer: Answer, now: int) {
    || resolved.None?
    || answer.SaidYes?
    || (answer.NoAnswer? && lastChecked.Some?
        && now / 1_000_000 - lastChecked.value <= if resolved.value > 0 then resolved.value else 0)
  }

  predicate RightBasis(resolved: Option<int>, answer: Answer, b: Basis) {
    match b
    case NotChecked => resolved.None?
    case ConfirmedNow => resolved.Some? && answer.SaidYes?
    case WithinAllowance(g) => resolved == Some(g) && answer.NoAnswer?
  }

  /** The tokens are returned for the right reason, a yes still to be stamped; or the family is to be revoked. */
  ghost predicate ProbeVerdict(s: Sys, a: Action, s': Sys)
    requires a.Probe? && a.id in s.flights && s.flights[a.id].phase.Probing?
  {
    var fl := s.flights[a.id];
    if MayReturn(fl.phase.lastChecked, a.resolved, a.answer, s.now) then
      && |s'.events| == |s.events| + 1 && s'.events[..|s.events|] == s.events
      && var e := s'.events[|s.events|];
         && e.EvReturned? && e.family == fl.claims.family && e.at == s.now && RightBasis(a.resolved, a.answer, e.basis)
         && s'.flights == if e.basis.ConfirmedNow? then s.flights[a.id := fl.(phase := Stamping(s.now / 1_000_000))]
                          else s.flights - {a.id}
    else s'.events == s.events && s'.flights == s.flights[a.id := fl.(phase := Owing)]
  }

  lemma ProbeDecides(s: Sys, a: Action)
    requires a.Probe? && a.id in s.flights && s.flights[a.id].phase.Probing?
    requires s.flights[a.id].claims.family in s.lastReal
    ensures ProbeVerdict(s, a, ProbeStep(s, a))
  {
    if MayReturn(s.flights[a.id].phase.lastChecked, a.resolved, a.answer, s.now) {
      ProbeReturns(s, a);
    }
  }

  lemma ProbeReturns(s: Sys, a: Action)
    requires a.Probe? && a.id in s.flights && s.flights[a.id].phase.Probing?
    requires s.flights[a.id].claims.family in s.lastReal
    requires MayReturn(s.flights[a.id].phase.lastChecked, a.resolved, a.answer, s.now)
    ensures ProbeVerdict(s, a, ProbeStep(s, a))
  {
  }

  lemma ReturnedExactlyWhen(lim: Limits, s: Sys, a: Action)
    requires a.Probe? && Enabled(lim, s, a)
    ensures ProbeVerdict(s, a, Step(lim, s, a))
  {
    ProbeDecides(s, a);
  }

  /** Step `n` of the run is the probe that return `e` reports. */
  ghost predicate ProbedAt(lim: Limits, acts: seq<Action>, n: nat, e: Event) {
    && n < |acts| && acts[n].Probe? && e.EvReturned?
    && var s := Play(lim, acts[..n]);
       && Enabled(lim, s, acts[n]) && e.family == s.flights[acts[n].id].claims.family && e.at == s.now
       && MayReturn(s.flights[acts[n].id].phase.lastChecked, acts[n].resolved, acts[n].answer, s.now)
       && RightBasis(acts[n].resolved, acts[n].answer, e.basis)
  }

  /** Returns are reported by probes alone. */
  lemma NewReturns(lim: Limits, s: Sys, a: Action)
    ensures var s' := Step(lim, s, a);
            && |s.events| <= |s'.events| && s'.events[..|s.events|] == s.events
            && forall i :: |s.events| <= i < |s'.events| && s'.events[i].EvReturned? ==> Enabled(lim, s, a) && a.Probe?
  {
    if Enabled(lim, s, a) {
      match a
      case Judge(_, _, _) => JudgeReturnsNothing(lim, s, a);
      case Commit(_) =>
      case Probe(_, _, _) => ReturnedExactlyWhen(lim, s, a);
      case _ =>
    }
  }

  lemma NewReturnHadItsReason(lim: Limits, acts: seq<Action>, i: nat)
    requires acts != [] && i < |Play(lim, acts).events| && Play(lim, acts).events[i].EvReturned?
    requires i >= |Play(lim, acts[..|acts| - 1]).events|
    ensures ProbedAt(lim, acts, |acts| - 1, Play(lim, acts).events[i])
  {
    var s, a := Play(lim, acts[..|acts| - 1]), acts[|acts| - 1];
    NewReturns(lim, s, a);
    ReturnedExactlyWhen(lim, s, a);
  }

  /**
   Every return of tokens in every run follows a probe with a reason: unchecked only where the
   provider does not resolve, never after a no or without the upstream's own token.
   */
  lemma {:induction false} EveryReturnHadItsReason(lim: Limits, acts: seq<Action>, i: nat)
    requires i < |Play(lim, acts).events| && Play(lim, acts).events[i].EvReturned?
    ensures exists n :: ProbedAt(lim, acts, n, Play(lim, acts).events[i])
    decreases |acts|
  {
    if acts != [] {
      var k := |acts| - 1;
      var s := Play(lim, acts[..k]);
      NewReturns(lim, s, acts[k]);
      if i < |s.events| {
        EveryReturnHadItsReason(lim, acts[..k], i);
        var n: nat :| ProbedAt(lim, acts[..k], n, s.events[i]);
        assert acts[..k][..n] == acts[..n];
        assert ProbedAt(lim, acts, n, Play(lim, acts).events[i]);
      } else {
        NewReturnHadItsReason(lim, acts, i);
      }
    }
  }
}
