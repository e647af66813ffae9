/** The other half of the outage allowance: an outage does not end a session before its time. */
module LivenessAllowance {
  import opened Options
  import opened RefreshRows
  import opened SessionPolicy
  import opened RotationProtocol
  import opened RotationInvariant
  import opened LivenessExact

  /** There is a check on record, not older than the family's sign-in. */
  ghost predicate SinceSignIn(s: Sys, f: Family, checked: Option<int>) {
    checked.Some? && f in s.signIns && s.signIns[f].startMs / 1000 <= checked.value
  }

  ghost predicate RowAnchored(s: Sys, r: Record) {
    r.provider.Some? ==> SinceSignIn(s, r.family, r.checkedAt)
  }

  ghost predicate PhaseAnchored(s: Sys, fl: Flight) {
    match fl.phase
    case Loaded(r) => r.family == fl.claims.family && RowAnchored(s, r)
    case Holding(r, _) => r.family == fl.claims.family && RowAnchored(s, r)
    case Probing(last) => SinceSignIn(s, fl.claims.family, last)
    case _ => true
  }

  ghost predicate StartsPast(s: Sys) {
    forall f :: f in s.signIns ==> s.signIns[f].startMs * 1000 <= s.now
  }

  ghost predicate RowsAnchored(s: Sys) {
    forall j :: j in s.log ==> RowAnchored(s, s.log[j])
  }

  ghost predicate AnchorsOk(s: Sys) {
    StartsPast(s) && RowsAnchored(s) && forall id :: id in s.flights ==> PhaseAnchored(s, s.flights[id])
  }

  ghost predicate SignInsKept(s: Sys, s': Sys) {
    forall f :: f in s.signIns ==> f in s'.signIns && s'.signIns[f] == s.signIns[f]
  }

  lemma PhaseStaysAnchored(s: Sys, s': Sys, fl: Flight)
    requires PhaseAnchored(s, fl) && SignInsKept(s, s')
    ensures PhaseAnchored(s', fl)
  {
  }

  /** A step that moves at most one flight. */
  lemma Framed(s: Sys, s': Sys, id: nat)
    requires AnchorsOk(s) && SignInsKept(s, s') && StartsPast(s') && RowsAnchored(s')
    requires forall k {:trigger SameFlight(s, s', k)} :: k != id ==> SameFlight(s, s', k)
    requires id in s'.flights ==> PhaseAnchored(s', s'.flights[id])
    ensures AnchorsOk(s')
  {
    forall k | k in s'.flights ensures PhaseAnchored(s', s'.flights[k]) {
      if k != id {
        assert SameFlight(s, s', k);
        PhaseStaysAnchored(s, s', s.flights[k]);
      }
    }
  }

  lemma SignInAnchored(lim: Limits, s: Sys, a: Action)
    requires Inv(lim, s) && AnchorsOk(s) && a.DoSignIn? && Enabled(lim, s, a)
    ensures AnchorsOk(SignInStep(lim, s, a))
  {
    var s' := SignInStep(lim, s, a);
    SignInLog(lim, s, a);
    forall j | j in s'.log ensures RowAnchored(s', s'.log[j]) {
      if j in s.log {
        assert RowAnchored(s, s.log[j]);
      }
    }
    forall k | k in s'.flights ensures PhaseAnchored(s', s'.flights[k]) {
      PhaseStaysAnchored(s, s', s.flights[k]);
    }
  }

  lemma LoadAnchored(lim: Limits, s: Sys, id: nat)
    requires Inv(lim, s) && AnchorsOk(s) && id in s.flights
    ensures AnchorsOk(LoadStep(s, id))
  {
    assert TokenOk(s, s.flights[id].claims) by {
      assert FlightOk(lim, s, s.flights[id]);
    }
    Framed(s, LoadStep(s, id), id);
  }

  /** The row a verdict goes by, as it is or as it was read. */
  lemma VerdictAnchored(lim: Limits, s: Sys, a: Action)
    requires Inv(lim, s) && AnchorsOk(s) && CanJudge(s, a) && a.id in JudgeStep(lim, s, a).flights
    ensures PhaseAnchored(s, JudgeStep(lim, s, a).flights[a.id])
  {
    var fl := s.flights[a.id];
    assert PhaseAnchored(s, fl) && FlightOk(lim, s, fl) && TokenOk(s, fl.claims);
    if !Consumable(s.rows, fl.claims.jti) {
      var o := Loser(s.rows, fl.phase.record, lim.grace, s.now);
      if o.Replay? {
        ReplayAnchored(lim, s, a, o);
      }
    }
  }

  lemma ReplayAnchored(lim: Limits, s: Sys, a: Action, o: Outcome)
    requires CanJudge(s, a) && o.Replay? && o.record.family == s.flights[a.id].claims.family && RowAnchored(s, o.record)
    ensures var s' := ReplayStep(lim, s, a.id, s.flights[a.id], o, a);
            a.id in s'.flights ==> PhaseAnchored(s, s'.flights[a.id])
  {
  }

  lemma JudgeAnchored(lim: Limits, s: Sys, a: Action)
    requires Inv(lim, s) && AnchorsOk(s) && CanJudge(s, a)
    ensures AnchorsOk(JudgeStep(lim, s, a))
  {
    var s' := JudgeStep(lim, s, a);
    if a.id in s'.flights {
      VerdictAnchored(lim, s, a);
      PhaseStaysAnchored(s, s', s'.flights[a.id]);
    }
    Framed(s, s', a.id);
  }

  lemma CommitRowsAnchored(lim: Limits, s: Sys, id: nat)
    requires Inv(lim, s) && AnchorsOk(s) && id in s.flights && s.flights[id].phase.Holding?
    ensures RowsAnchored(CommitStep(s, id))
  {
    var fl := s.flights[id];
    var s' := CommitStep(s, id);
    assert PhaseAnchored(s, fl);
    ClaimLog(lim, s, id, Ended(WithRows(s, AfterClaim(s.rows, fl, fl.phase.held, fl.phase.stamp)), id));
    forall j | j in s'.log ensures RowAnchored(s', s'.log[j]) {
      if j != fl.next.jti {
        assert RowAnchored(s, s.log[j]);
      }
    }
  }

  lemma CommitFlightAnchored(s: Sys, id: nat)
    requires AnchorsOk(s) && id in s.flights && s.flights[id].phase.Holding?
    ensures id in CommitStep(s, id).flights ==> PhaseAnchored(CommitStep(s, id), CommitStep(s, id).flights[id])
  {
    assert PhaseAnchored(s, s.flights[id]);
  }

  lemma CommitAnchored(lim: Limits, s: Sys, id: nat)
    requires Inv(lim, s) && AnchorsOk(s) && id in s.flights && s.flights[id].phase.Holding?
    ensures AnchorsOk(CommitStep(s, id))
  {
    CommitRowsAnchored(lim, s, id);
    CommitFlightAnchored(s, id);
    Framed(s, CommitStep(s, id), id);
  }

  lemma StampAnchored(lim: Limits, s: Sys, id: nat)
    requires Inv(lim, s) && AnchorsOk(s) && id in s.flights && s.flights[id].phase.Stamping?
    ensures AnchorsOk(StampStep(s, id))
  {
    var s' := StampStep(s, id);
    forall j | j in s'.log ensures RowAnchored(s', s'.log[j]) {
      assert RowAnchored(s, s.log[j]);
    }
    Framed(s, s', id);
  }

  lemma RevokeAnchored(s: Sys, f: Family)
    requires TableOk(s) && AnchorsOk(s)
    ensures AnchorsOk(RevokeStep(s, f))
  {
    var s' := RevokeStep(s, f);
    forall j | j in s'.log ensures RowAnchored(s', s'.log[j]) {
      assert RowAnchored(s, s.log[j]);
    }
    forall k | k in s'.flights ensures PhaseAnchored(s', s'.flights[k]) {
      PhaseStaysAnchored(s, s', s.flights[k]);
    }
  }

  lemma EndedAnchored(s: Sys, id: nat)
    requires AnchorsOk(s)
    ensures AnchorsOk(Ended(s, id))
  {
    Framed(s, Ended(s, id), id);
  }

  lemma ProbeAnchored(lim: Limits, s: Sys, a: Action)
    requires AnchorsOk(s) && a.Probe? && Enabled(lim, s, a)
    ensures AnchorsOk(ProbeStep(s, a))
  {
    Framed(s, ProbeStep(s, a), a.id);
  }

  lemma BeginAnchored(lim: Limits, s: Sys, a: Action)
    requires AnchorsOk(s) && a.Begin?
    ensures AnchorsOk(BeginStep(lim, s, a))
  {
    Framed(s, BeginStep(lim, s, a), a.id);
  }

  lemma ClockAnchored(s: Sys, now: int, rows: Rows)
    requires AnchorsOk(s) && s.now <= now
    ensures AnchorsOk(s.(now := now, rows := rows))
  {
    Framed(s, s.(now := now, rows := rows), 0);
  }

  lemma EarlyAnchored(lim: Limits, s: Sys, a: Action)
    requires Inv(lim, s) && AnchorsOk(s) && Enabled(lim, s, a) && IsEarly(a)
    ensures AnchorsOk(Apply(lim, s, a))
  {
    match a
    case Begin(_, _, _, _) => BeginAnchored(lim, s, a);
    case Load(id) => LoadAnchored(lim, s, id);
    case Judge(_, _, _) => JudgeAnchored(lim, s, a);
    case Commit(id) => CommitAnchored(lim, s, id);
  }

  lemma LateAnchored(lim: Limits, s: Sys, a: Action)
    requires Inv(lim, s) && AnchorsOk(s) && Enabled(lim, s, a) && !IsEarly(a)
    ensures AnchorsOk(Apply(lim, s, a))
  {
    match a
    case Tick(to) => ClockAnchored(s, to, s.rows);
    case DoSignIn(_, _, _, _, _, _, _) => SignInAnchored(lim, s, a);
    case Abort(id) => EndedAnchored(s, id);
    case SettleRejection(id) =>
      RevokeAnchored(s, s.flights[id].claims.family);
      EndedAnchored(RevokeStep(s, s.flights[id].claims.family), id);
    case Probe(_, _, _) => ProbeAnchored(lim, s, a);
    case Stamp(id) => StampAnchored(lim, s, id);
    case RevokeAll(f) => RevokeAnchored(s, f);
    case Purge(doomed) => ClockAnchored(s, s.now, s.rows - doomed);
  }

  /** In every reachable state each row of a session with a provider has been checked since its sign-in. */
  lemma {:induction false} AnchorsReachable(lim: Limits, acts: seq<Action>)
    ensures AnchorsOk(Play(lim, acts))
    decreases |acts|
  {
    if acts != [] {
      var n := |acts| - 1;
      var s, a := Play(lim, acts[..n]), acts[n];
      AnchorsReachable(lim, acts[..n]);
      Reachable(lim, acts[..n]);
      if Enabled(lim, s, a) {
        if IsEarly(a) {
          EarlyAnchored(lim, s, a);
        } else {
          LateAnchored(lim, s, a);
        }
      }
    }
  }

  /**
   However often a session has been rotated or replayed, and whatever stamps were lost: while less than
   the allowance has passed since its sign-in, no answer from the upstream does not end it.
   */
  lemma OutageSparesNewSessions(lim: Limits, acts: seq<Action>, a: Action)
    requires a.Probe? && Enabled(lim, Play(lim, acts), a) && a.resolved.Some? && a.answer.NoAnswer?
    ensures var s := Play(lim, acts);
            var f := s.flights[a.id].claims.family;
            var allowance := if a.resolved.value > 0 then a.resolved.value else 0;
            && f in s.signIns
            && (s.now / 1_000_000 - s.signIns[f].startMs / 1000 <= allowance ==>
                  Step(lim, s, a).events != s.events && Step(lim, s, a).events[|s.events|].EvReturned?)
  {
    var s := Play(lim, acts);
    AnchorsReachable(lim, acts);
    assert PhaseAnchored(s, s.flights[a.id]);
    ReturnedExactlyWhen(lim, s, a);
  }
}
