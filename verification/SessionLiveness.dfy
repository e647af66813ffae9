/** An outage of the identity provider cannot extend a session it backs. */
module SessionLiveness {
  import opened Options
  import opened RefreshRows
  import opened SessionPolicy
  import opened RotationProtocol
  import opened RotationInvariant
  import opened SessionCeilings

  /** `checked` is no later than the family's last real confirmation, up to the delay with
      which confirmations have been stamped. */
  ghost predicate Vouched(s: Sys, f: Family, checked: Option<int>) {
    checked.Some? ==> f in s.lastReal && checked.value <= s.lastReal[f] + LagOf(s.lag, f)
  }

  ghost predicate PhaseVouched(s: Sys, fl: Flight) {
    var f := fl.claims.family;
    match fl.phase
    case Loaded(r) => Vouched(s, f, r.checkedAt)
    case Holding(r, _) => Vouched(s, f, r.checkedAt)
    case Probing(last) => Vouched(s, f, last)
    case Stamping(at) => f in s.lastReal && at <= s.lastReal[f]
    case _ => true
  }

  ghost predicate ReturnOk(s: Sys, e: Event) {
    match e
    case EvReturned(f, at, ConfirmedNow, last) => last == Seconds(at)
    case EvReturned(f, at, WithinAllowance(g), last) => last <= Seconds(at) <= last + Max(0, g) + LagOf(s.lag, f)
    case _ => true
  }

  ghost predicate RealOk(s: Sys) {
    && (forall f :: LagOf(s.lag, f) >= 0)
    && (forall f :: f in s.signIns ==> f in s.lastReal)
    && (forall f :: f in s.lastReal ==> s.lastReal[f] <= Seconds(s.now))
  }

  ghost predicate LivenessOk(s: Sys) {
    && RealOk(s)
    && (forall j :: j in s.log ==> Vouched(s, s.log[j].family, s.log[j].checkedAt))
    && (forall id :: id in s.flights ==> PhaseVouched(s, s.flights[id]))
    && (forall i :: 0 <= i < |s.events| ==> ReturnOk(s, s.events[i]))
  }

  /** Confirmations and stamping delays only move forward. */
  ghost predicate Later(s: Sys, s': Sys) {
    && (forall f :: LagOf(s.lag, f) <= LagOf(s'.lag, f)) && s.now <= s'.now
    && forall f :: f in s.lastReal ==> f in s'.lastReal && s.lastReal[f] <= s'.lastReal[f]
  }

  lemma PhaseStaysVouched(s: Sys, s': Sys, fl: Flight)
    requires PhaseVouched(s, fl) && Later(s, s')
    ensures PhaseVouched(s', fl)
  {
  }

  /** A step that writes no anchor and moves at most one flight. */
  lemma Unstamped(s: Sys, s': Sys, id: nat)
    requires LivenessOk(s) && Later(s, s') && RealOk(s')
    requires forall j :: j in s'.log ==> Vouched(s', s'.log[j].family, s'.log[j].checkedAt)
    requires forall k :: k != id ==> SameFlight(s, s', k)
    requires id in s'.flights ==> PhaseVouched(s', s'.flights[id])
    requires |s.events| <= |s'.events| && s'.events[..|s.events|] == s.events
    requires forall i :: |s.events| <= i < |s'.events| ==> ReturnOk(s', s'.events[i])
    ensures LivenessOk(s')
  {
    forall k | k in s'.flights ensures PhaseVouched(s', s'.flights[k]) {
      if k != id {
        assert SameFlight(s, s', k);
        PhaseStaysVouched(s, s', s.flights[k]);
      }
    }
    forall i | 0 <= i < |s'.events| ensures ReturnOk(s', s'.events[i]) {
      assert i < |s.events| ==> s'.events[i] == s.events[i] && ReturnOk(s, s.events[i]);
    }
  }

  lemma RowsStayVouched(s: Sys, s': Sys)
    requires LivenessOk(s) && Later(s, s') && s'.log == s.log
    ensures forall j :: j in s'.log ==> Vouched(s', s'.log[j].family, s'.log[j].checkedAt)
  {
  }

  lemma JudgeVouched(lim: Limits, s: Sys, a: Action)
    requires Inv(lim, s) && LivenessOk(s) && CanJudge(s, a)
    ensures LivenessOk(JudgeStep(lim, s, a))
  {
    var s' := JudgeStep(lim, s, a);
    var fl := s.flights[a.id];
    assert PhaseVouched(s, fl) && FlightOk(lim, s, fl);
    JudgeAppends(lim, s, a);
    JudgeReturnsNothing(lim, s, a);
    if a.id in s'.flights && s'.flights[a.id].phase.Probing? {
      ProbingFrom(lim, s, a);
    }
    Unstamped(s, s', a.id);
  }

  /** The anchor a replay is measured from is the presented row's own. */
  lemma ProbingFrom(lim: Limits, s: Sys, a: Action)
    requires Inv(lim, s) && LivenessOk(s) && CanJudge(s, a)
    requires a.id in JudgeStep(lim, s, a).flights && JudgeStep(lim, s, a).flights[a.id].phase.Probing?
    ensures PhaseVouched(s, JudgeStep(lim, s, a).flights[a.id])
  {
    var fl := s.flights[a.id];
    assert PhaseVouched(s, fl);
    assert FlightOk(lim, s, fl) && TokenOk(s, fl.claims);
    var o := Loser(s.rows, fl.phase.record, lim.grace, s.now);
    assert o.Replay? && JudgeStep(lim, s, a).flights[a.id].phase == Probing(o.record.checkedAt);
  }

  lemma JudgeReturnsNothing(lim: Limits, s: Sys, a: Action)
    requires CanJudge(s, a)
    ensures JudgeStep(lim, s, a).lastReal == s.lastReal && JudgeStep(lim, s, a).lag == s.lag
    ensures forall i :: |s.events| <= i < |JudgeStep(lim, s, a).events| ==> !JudgeStep(lim, s, a).events[i].EvReturned?
    ensures a.id in JudgeStep(lim, s, a).flights ==>
              var p := JudgeStep(lim, s, a).flights[a.id].phase;
              p.Owing? || p.Probing? || p == Holding(s.flights[a.id].phase.record, s.now)
  {
  }

  lemma ConfirmVouched(s: Sys, id: nat)
    requires LivenessOk(s) && id in s.flights && s.flights[id].claims.family in s.lastReal
    ensures LivenessOk(Confirmed(s, id, s.flights[id], Seconds(s.now)))
  {
    var s' := Confirmed(s, id, s.flights[id], Seconds(s.now));
    assert s'.events[|s.events|] == EvReturned(s.flights[id].claims.family, s.now, ConfirmedNow, Seconds(s.now));
    RowsStayVouched(s, s');
    Unstamped(s, s', id);
  }

  /** An answerless probe let through is inside the allowance of a real confirmation. */
  lemma AllowanceVouched(s: Sys, id: nat, grace: int)
    requires LivenessOk(s) && id in s.flights && s.flights[id].phase.Probing?
    requires s.flights[id].claims.family in s.lastReal
    requires !LivenessGraceExpired(s.flights[id].phase.lastChecked, grace, s.now)
    ensures var f := s.flights[id].claims.family;
            ReturnOk(s, EvReturned(f, s.now, WithinAllowance(grace), s.lastReal[f]))
  {
    assert PhaseVouched(s, s.flights[id]);
  }

  lemma OwingVouched(s: Sys, id: nat)
    requires LivenessOk(s) && id in s.flights
    ensures LivenessOk(WithFlight(s, id, s.flights[id].(phase := Owing)))
  {
    Unstamped(s, WithFlight(s, id, s.flights[id].(phase := Owing)), id);
  }

  lemma ReturnedVouched(s: Sys, id: nat, e: Event)
    requires LivenessOk(s) && ReturnOk(s, e)
    ensures LivenessOk(Logged(Ended(s, id), e))
  {
    var s' := Logged(Ended(s, id), e);
    RowsStayVouched(s, s');
    Unstamped(s, s', id);
  }

  lemma ProbeVouched(lim: Limits, s: Sys, a: Action)
    requires LivenessOk(s) && a.Probe? && Enabled(lim, s, a)
    ensures LivenessOk(ProbeStep(s, a))
  {
    var f := s.flights[a.id].claims.family;
    if a.resolved.None? {
      ReturnedVouched(s, a.id, EvReturned(f, s.now, NotChecked, s.lastReal[f]));
    } else if a.answer.SaidYes? {
      ConfirmVouched(s, a.id);
    } else if a.answer.NoAnswer? && !LivenessGraceExpired(s.flights[a.id].phase.lastChecked, a.resolved.value, s.now) {
      AllowanceVouched(s, a.id, a.resolved.value);
      ReturnedVouched(s, a.id, EvReturned(f, s.now, WithinAllowance(a.resolved.value), s.lastReal[f]));
    } else {
      OwingVouched(s, a.id);
    }
  }

  lemma CommitLater(s: Sys, id: nat)
    requires LivenessOk(s) && id in s.flights && s.flights[id].phase.Holding?
    ensures Later(s, CommitStep(s, id)) && RealOk(CommitStep(s, id))
  {
  }

  lemma CommitVouched(lim: Limits, s: Sys, id: nat)
    requires Inv(lim, s) && LivenessOk(s) && id in s.flights && s.flights[id].phase.Holding?
    ensures LivenessOk(CommitStep(s, id))
  {
    CommitRowsVouched(lim, s, id);
    CommitFlightVouched(s, id);
    CommitLater(s, id);
    OneMoreEvent(s, CommitStep(s, id), EvClaimed(s.flights[id].claims.jti, s.flights[id].next), id);
  }

  /** A step that writes no anchor and reports one thing, no return of tokens. */
  lemma OneMoreEvent(s: Sys, s': Sys, e: Event, id: nat)
    requires LivenessOk(s) && Later(s, s') && RealOk(s')
    requires forall j :: j in s'.log ==> Vouched(s', s'.log[j].family, s'.log[j].checkedAt)
    requires forall k {:trigger SameFlight(s, s', k)} :: k != id ==> SameFlight(s, s', k)
    requires id in s'.flights ==> PhaseVouched(s', s'.flights[id])
    requires s'.events == s.events + [e] && !e.EvReturned?
    ensures LivenessOk(s')
  {
    Unstamped(s, s', id);
  }

  lemma CommitFlightVouched(s: Sys, id: nat)
    requires LivenessOk(s) && id in s.flights && s.flights[id].phase.Holding?
    ensures id in CommitStep(s, id).flights ==> PhaseVouched(CommitStep(s, id), CommitStep(s, id).flights[id])
  {
    assert PhaseVouched(s, s.flights[id]);
  }

  lemma CommitRowsVouched(lim: Limits, s: Sys, id: nat)
    requires Inv(lim, s) && LivenessOk(s) && id in s.flights && s.flights[id].phase.Holding?
    ensures var s' := CommitStep(s, id);
            forall j :: j in s'.log ==> Vouched(s', s'.log[j].family, s'.log[j].checkedAt)
  {
    var fl := s.flights[id];
    var s' := CommitStep(s, id);
    assert PhaseVouched(s, fl);
    ClaimLog(lim, s, id, Ended(WithRows(s, AfterClaim(s.rows, fl, fl.phase.held, fl.phase.stamp)), id));
    forall j | j in s'.log ensures Vouched(s', s'.log[j].family, s'.log[j].checkedAt) {
      if j != fl.next.jti {
        assert Vouched(s, s.log[j].family, s.log[j].checkedAt);
      }
    }
  }

  lemma SignInVouched(lim: Limits, s: Sys, a: Action)
    requires Inv(lim, s) && LivenessOk(s) && a.DoSignIn? && Enabled(lim, s, a)
    ensures LivenessOk(SignInStep(lim, s, a))
  {
    var s' := SignInStep(lim, s, a);
    SignInLog(lim, s, a);
    forall j | j in s'.log ensures Vouched(s', s'.log[j].family, s'.log[j].checkedAt) {
      assert j in s.log ==> Vouched(s, s.log[j].family, s.log[j].checkedAt);
    }
    Unstamped(s, s', 0);
  }

  lemma StampRowsVouched(lim: Limits, s: Sys, id: nat)
    requires Inv(lim, s) && LivenessOk(s) && id in s.flights && s.flights[id].phase.Stamping?
    ensures var s' := StampStep(s, id);
            Later(s, s') && forall j :: j in s'.log ==> Vouched(s', s'.log[j].family, s'.log[j].checkedAt)
  {
    var fl := s.flights[id];
    var s' := StampStep(s, id);
    assert PhaseVouched(s, fl) && FlightOk(lim, s, fl);
    forall j | j in s'.log ensures Vouched(s', s'.log[j].family, s'.log[j].checkedAt) {
      assert Vouched(s, s.log[j].family, s.log[j].checkedAt);
    }
  }

  lemma StampVouched(lim: Limits, s: Sys, id: nat)
    requires Inv(lim, s) && LivenessOk(s) && id in s.flights && s.flights[id].phase.Stamping?
    ensures LivenessOk(StampStep(s, id))
  {
    StampRowsVouched(lim, s, id);
    Unstamped(s, StampStep(s, id), id);
  }

  lemma RevokeVouched(s: Sys, f: Family)
    requires TableOk(s) && LivenessOk(s)
    ensures LivenessOk(RevokeStep(s, f))
  {
    var s' := RevokeStep(s, f);
    forall j | j in s'.log ensures Vouched(s', s'.log[j].family, s'.log[j].checkedAt) {
      assert Vouched(s, s.log[j].family, s.log[j].checkedAt);
    }
    Unstamped(s, s', 0);
  }

  lemma EndedVouched(s: Sys, id: nat)
    requires LivenessOk(s)
    ensures LivenessOk(Ended(s, id))
  {
    Unstamped(s, Ended(s, id), id);
  }

  lemma QuietVouched(s: Sys, now: int, rows: Rows)
    requires LivenessOk(s) && s.now <= now
    ensures LivenessOk(s.(now := now, rows := rows))
  {
    Unstamped(s, s.(now := now, rows := rows), 0);
  }

  lemma BeginVouched(lim: Limits, s: Sys, a: Action)
    requires LivenessOk(s) && a.Begin?
    ensures LivenessOk(BeginStep(lim, s, a))
  {
    Unstamped(s, BeginStep(lim, s, a), a.id);
  }

  lemma LoadVouched(lim: Limits, s: Sys, id: nat)
    requires Inv(lim, s) && LivenessOk(s) && id in s.flights
    ensures LivenessOk(LoadStep(s, id))
  {
    assert TokenOk(s, s.flights[id].claims) by {
      assert FlightOk(lim, s, s.flights[id]);
    }
    Unstamped(s, LoadStep(s, id), id);
  }

  lemma SettleVouched(lim: Limits, s: Sys, id: nat)
    requires Inv(lim, s) && LivenessOk(s) && id in s.flights
    ensures LivenessOk(Ended(RevokeStep(s, s.flights[id].claims.family), id))
  {
    RevokeVouched(s, s.flights[id].claims.family);
    EndedVouched(RevokeStep(s, s.flights[id].claims.family), id);
  }

  lemma EarlyVouched(lim: Limits, s: Sys, a: Action)
    requires Inv(lim, s) && LivenessOk(s) && Enabled(lim, s, a) && IsEarly(a)
    ensures LivenessOk(Apply(lim, s, a))
  {
    match a
    case Begin(_, _, _, _) => BeginVouched(lim, s, a);
    case Load(id) => LoadVouched(lim, s, id);
    case Judge(_, _, _) => JudgeVouched(lim, s, a);
    case Commit(id) => CommitVouched(lim, s, id);
  }

  lemma LateVouched(lim: Limits, s: Sys, a: Action)
    requires Inv(lim, s) && LivenessOk(s) && Enabled(lim, s, a) && !IsEarly(a)
    ensures LivenessOk(Apply(lim, s, a))
  {
    match a
    case Tick(to) => QuietVouched(s, to, s.rows);
    case DoSignIn(_, _, _, _, _, _, _) => SignInVouched(lim, s, a);
    case Abort(id) => EndedVouched(s, id);
    case SettleRejection(id) => SettleVouched(lim, s, id);
    case Probe(_, _, _) => ProbeVouched(lim, s, a);
    case Stamp(id) => StampVouched(lim, s, id);
    case RevokeAll(f) => RevokeVouched(s, f);
    case Purge(doomed) => QuietVouched(s, s.now, s.rows - doomed);
  }

  lemma LivenessStep(lim: Limits, s: Sys, a: Action)
    requires Inv(lim, s) && LivenessOk(s)
    ensures LivenessOk(Step(lim, s, a))
  {
    if Enabled(lim, s, a) {
      if IsEarly(a) {
        EarlyVouched(lim, s, a);
      } else {
        LateVouched(lim, s, a);
      }
    }
  }

  lemma {:induction false} LivenessReachable(lim: Limits, acts: seq<Action>)
    ensures LivenessOk(Play(lim, acts))
    decreases |acts|
  {
    if acts != [] {
      var n := |acts| - 1;
      LivenessReachable(lim, acts[..n]);
      Reachable(lim, acts[..n]);
      LivenessStep(lim, Play(lim, acts[..n]), acts[n]);
    }
  }

  /**
   Every refresh whose upstream was asked and whose tokens were returned either was confirmed
   at that moment or lies within the outage allowance of the family's last real confirmation,
   give or take the delay with which its own confirmations were stamped in this run. Rotations,
   replays and lost stamps make no difference.
   */
  lemma OutageCannotExtend(lim: Limits, acts: seq<Action>, i: nat)
    requires i < |Play(lim, acts).events| && Play(lim, acts).events[i].EvReturned?
    requires !Play(lim, acts).events[i].basis.NotChecked?
    ensures var s := Play(lim, acts);
            var e := s.events[i];
            && (e.basis.ConfirmedNow? ==> e.lastReal == Seconds(e.at))
            && (e.basis.WithinAllowance? ==>
                  e.lastReal <= Seconds(e.at) <= e.lastReal + Max(0, e.basis.grace) + LagOf(s.lag, e.family))
  {
    LivenessReachable(lim, acts);
    assert ReturnOk(Play(lim, acts), Play(lim, acts).events[i]);
  }

  /** No row's anchor is later than the last real confirmation, up to the same delay. */
  lemma AnchorsAreReal(lim: Limits, acts: seq<Action>, j: Jti)
    requires j in Play(lim, acts).log && Play(lim, acts).log[j].checkedAt.Some?
    ensures var s := Play(lim, acts);
            var f := s.log[j].family;
            && f in s.lastReal && s.lastReal[f] <= Seconds(s.now)
            && s.log[j].checkedAt.value <= s.lastReal[f] + LagOf(s.lag, f)
  {
    LivenessReachable(lim, acts);
    var s := Play(lim, acts);
    assert Vouched(s, s.log[j].family, s.log[j].checkedAt);
  }
}
