/** How long a session can be renewed, over every run of the rotation protocol. */
module SessionCeilings {
  import opened Options
  import opened RefreshRows
  import opened SessionPolicy
  import opened RotationProtocol
  import opened RotationInvariant
  import opened RotationSafety

  /** The row a renewal was judged on, and the ruling that let it through. */
  ghost predicate JudgedBy(lim: Limits, s: Sys, a: Action, r: Record)
    requires a.Judge? && a.id in s.flights
  {
    var fl := s.flights[a.id];
    && fl.claims.jti in s.log && Advances(r, s.log[fl.claims.jti])
    && Rule(lim, fl.claims, r, a.started, a.account, fl.outage, s.now).Allowed?
  }

  /** A verdict adds a renewal only when the ceilings were cleared, and then exactly one. */
  lemma RenewalIsRuled(lim: Limits, s: Sys, a: Action, i: nat) returns (r: Record)
    requires Inv(lim, s) && CanJudge(s, a)
    requires |s.events| <= i < |JudgeStep(lim, s, a).events| && JudgeStep(lim, s, a).events[i].EvRenewed?
    ensures JudgedBy(lim, s, a, r)
    ensures JudgeStep(lim, s, a).events[i]
         == EvRenewed(s.flights[a.id].claims.family, s.now, a.account, s.flights[a.id].outage)
    ensures !Consumable(s.rows, s.flights[a.id].claims.jti) ==>
              Loser(s.rows, s.flights[a.id].phase.record, lim.grace, s.now).Replay?
  {
    var fl := s.flights[a.id];
    assert FlightOk(lim, s, fl);
    if Consumable(s.rows, fl.claims.jti) {
      r := fl.phase.record;
    } else {
      r := RenewedReplay(lim, s, a, i);
    }
  }

  lemma RenewedReplay(lim: Limits, s: Sys, a: Action, i: nat) returns (r: Record)
    requires Inv(lim, s) && CanJudge(s, a) && !Consumable(s.rows, s.flights[a.id].claims.jti)
    requires |s.events| <= i < |JudgeStep(lim, s, a).events| && JudgeStep(lim, s, a).events[i].EvRenewed?
    ensures JudgedBy(lim, s, a, r)
    ensures JudgeStep(lim, s, a).events[i]
         == EvRenewed(s.flights[a.id].claims.family, s.now, a.account, s.flights[a.id].outage)
    ensures Loser(s.rows, s.flights[a.id].phase.record, lim.grace, s.now).Replay?
  {
    var fl := s.flights[a.id];
    var o := Loser(s.rows, fl.phase.record, lim.grace, s.now);
    assert o.Replay?;
    ReplayIsLinked(lim, s, a.id, lim.grace);
    r := o.record;
  }

  /** Renewals are reported by verdicts alone. */
  lemma OnlyVerdictsRenew(lim: Limits, s: Sys, a: Action)
    requires !(Enabled(lim, s, a) && a.Judge?)
    ensures var s' := Step(lim, s, a);
            && |s.events| <= |s'.events| && s'.events[..|s.events|] == s.events
            && forall i :: |s.events| <= i < |s'.events| ==> !s'.events[i].EvRenewed?
  {
  }

  lemma NewRenewals(lim: Limits, s: Sys, a: Action)
    ensures var s' := Step(lim, s, a);
            && |s.events| <= |s'.events| && s'.events[..|s.events|] == s.events
            && forall i :: |s.events| <= i < |s'.events| && s'.events[i].EvRenewed? ==> Enabled(lim, s, a) && a.Judge?
  {
    if Enabled(lim, s, a) && a.Judge? {
      JudgeAppends(lim, s, a);
    } else {
      OnlyVerdictsRenew(lim, s, a);
    }
  }

  lemma SignInsStay(lim: Limits, s: Sys, a: Action)
    requires Inv(lim, s)
    ensures forall f :: f in s.signIns ==> f in Step(lim, s, a).signIns && Step(lim, s, a).signIns[f] == s.signIns[f]
  {
    if !(Enabled(lim, s, a) && a.DoSignIn?) {
      HistoryMoveKeepsFamilies(lim, s, a);
    }
  }

  lemma JudgeAppends(lim: Limits, s: Sys, a: Action)
    requires CanJudge(s, a)
    ensures |s.events| <= |JudgeStep(lim, s, a).events| && JudgeStep(lim, s, a).events[..|s.events|] == s.events
  {
  }

  /** Every row carries what its sign-in fixed. */
  ghost predicate FieldsOk(s: Sys) {
    forall j :: j in s.log ==> s.log[j].family in s.signIns && SessionFieldsOf(s.log[j], s.signIns[s.log[j].family])
  }

  lemma FieldsReachable(lim: Limits, acts: seq<Action>)
    ensures FieldsOk(Play(lim, acts))
  {
    var s := Play(lim, acts);
    Reachable(lim, acts);
    ChainsReachable(lim, acts);
    forall j | j in s.log ensures SessionFieldsOf(s.log[j], s.signIns[s.log[j].family]) {
      var f := s.log[j].family;
      assert HasChain(s.log, f, s.signIns[f]);
      var c :| IsChain(s.log, f, s.signIns[f], c);
      assert j in c;
    }
  }

  // ---- single sign-on, upstream and fallback ceilings ----

  ghost predicate WithinSignIn(lim: Limits, s: Sys, e: Event)
    requires e.EvRenewed?
  {
    && e.family in s.signIns
    && var si := s.signIns[e.family];
       var t := Seconds(e.at);
       && (si.authTime.Some? ==>
             || t <= si.authTime.value + lim.ssoMax
             || (InOutage(ReauthSlug(e.account, si.provider), e.outage) && t <= si.authTime.value + 2 * lim.ssoMax))
       && (si.idpExp.Some? ==> t <= si.idpExp.value)
       && (si.pwfb.Some? ==> t <= si.pwfb.value)
  }

  ghost predicate AllWithinSignIn(lim: Limits, s: Sys) {
    forall i :: 0 <= i < |s.events| && s.events[i].EvRenewed? ==> WithinSignIn(lim, s, s.events[i])
  }

  lemma SignInLimitsStep(lim: Limits, s: Sys, a: Action)
    requires Inv(lim, s) && FieldsOk(s) && AllWithinSignIn(lim, s)
    ensures AllWithinSignIn(lim, Step(lim, s, a))
  {
    var s' := Step(lim, s, a);
    SignInsStay(lim, s, a);
    NewRenewals(lim, s, a);
    forall i | 0 <= i < |s'.events| && s'.events[i].EvRenewed? ensures WithinSignIn(lim, s', s'.events[i]) {
      if i < |s.events| {
        assert s'.events[i] == s.events[i] && WithinSignIn(lim, s, s.events[i]);
      } else {
        var r := RenewalIsRuled(lim, s, a, i);
        RuledWithinSignIn(lim, s, a, r);
      }
    }
  }

  lemma RuledWithinSignIn(lim: Limits, s: Sys, a: Action, r: Record)
    requires Inv(lim, s) && FieldsOk(s) && CanJudge(s, a) && JudgedBy(lim, s, a, r)
    ensures WithinSignIn(lim, s, EvRenewed(s.flights[a.id].claims.family, s.now, a.account, s.flights[a.id].outage))
  {
    var fl := s.flights[a.id];
    assert TokenOk(s, fl.claims) by {
      assert FlightOk(lim, s, fl);
    }
  }

  lemma {:induction false} SignInReachable(lim: Limits, acts: seq<Action>)
    ensures AllWithinSignIn(lim, Play(lim, acts))
    decreases |acts|
  {
    if acts != [] {
      var n := |acts| - 1;
      SignInReachable(lim, acts[..n]);
      Reachable(lim, acts[..n]);
      FieldsReachable(lim, acts[..n]);
      SignInLimitsStep(lim, Play(lim, acts[..n]), acts[n]);
    }
  }

  /**
   Over any run of rotations and outages: a session signed in through a provider at `a` is
   renewed no later than `a` plus one ceiling, or plus two while the connection it would be
   sent back to, its own provider where the account still has it, is confirmed down, and never
   past the upstream expiry or fallback deadline its sign-in fixed. Rotation cannot shed or
   extend any of them.
   */
  lemma RenewalsRespectSignIn(lim: Limits, acts: seq<Action>, i: nat)
    requires i < |Play(lim, acts).events| && Play(lim, acts).events[i].EvRenewed?
    ensures var s := Play(lim, acts);
            var e := s.events[i];
            && e.family in s.signIns
            && var si := s.signIns[e.family];
               && (si.authTime.Some? && !InOutage(ReauthSlug(e.account, si.provider), e.outage) ==>
                     Seconds(e.at) <= si.authTime.value + lim.ssoMax)
               && (si.authTime.Some? && lim.ssoMax >= 0 ==> Seconds(e.at) <= si.authTime.value + 2 * lim.ssoMax)
               && (si.idpExp.Some? ==> Seconds(e.at) <= si.idpExp.value)
               && (si.pwfb.Some? ==> Seconds(e.at) <= si.pwfb.value)
  {
    SignInReachable(lim, acts);
    assert WithinSignIn(lim, Play(lim, acts), Play(lim, acts).events[i]);
  }

  // ---- the absolute ceiling, measured from the oldest surviving row ----

  /** The ceiling and the longest gap between rotations fit in one refresh lifetime. */
  predicate CeilingFits(lim: Limits) {
    lim.absolute > 0 && lim.absolute + LongestGap(lim) < lim.lifetime
  }

  ghost predicate StartOk(lim: Limits, s: Sys, f: Family)
    requires f in s.signIns
  {
    var si := s.signIns[f];
    && si.root in s.log && s.log[si.root].family == f && s.log[si.root].mintMs == si.startMs
    && (si.root !in s.rows ==> (si.startMs / 1000 + lim.lifetime) * US_PER_SECOND < s.now)
  }

  ghost predicate Within(lim: Limits, s: Sys, f: Family, second: int) {
    f in s.signIns && second <= s.signIns[f].startMs / 1000 + lim.absolute
  }

  ghost predicate StartsOk(lim: Limits, s: Sys) {
    forall f :: f in s.signIns ==> StartOk(lim, s, f)
  }

  ghost predicate MintsOk(lim: Limits, s: Sys) {
    forall j :: j in s.log ==> Within(lim, s, s.log[j].family, s.log[j].MintSecond())
  }

  ghost predicate HoldsOk(lim: Limits, s: Sys) {
    forall id :: id in s.flights && s.flights[id].phase.Holding? ==>
                   Within(lim, s, s.flights[id].claims.family, s.flights[id].next.mintMs / 1000)
  }

  ghost predicate RenewalsOk(lim: Limits, s: Sys) {
    forall i :: 0 <= i < |s.events| && s.events[i].EvRenewed? ==>
                  Within(lim, s, s.events[i].family, Seconds(s.events[i].at))
  }

  /** Mints and renewals so far all lie within the ceiling of their family's true start. */
  ghost predicate CeilingOk(lim: Limits, s: Sys) {
    StartsOk(lim, s) && MintsOk(lim, s) && HoldsOk(lim, s) && RenewalsOk(lim, s)
  }

  /** A surviving row of the family bounds where the session is taken to start. */
  lemma StartedAtMost(lim: Limits, s: Sys, a: Action, j: Jti)
    requires Inv(lim, s) && a.Judge? && Enabled(lim, s, a)
    requires j in s.rows && s.rows[j].family == s.flights[a.id].claims.family
    ensures a.started.Some? && a.started.value <= s.rows[j].mintMs && a.started.value / 1000 <= s.rows[j].MintSecond()
  {
    var rows := JudgedRows(s, s.flights[a.id]);
    assert j in rows && rows[j].family == s.rows[j].family && rows[j].mintMs == s.rows[j].mintMs;
  }

  /** A row of the family that the ruling's start query can see: the presented row of a claim,
      or the successor a replay is handed. */
  lemma VisibleRow(lim: Limits, s: Sys, a: Action) returns (j: Jti)
    requires Inv(lim, s) && a.Judge? && Enabled(lim, s, a)
    requires Consumable(s.rows, s.flights[a.id].claims.jti)
             || Loser(s.rows, s.flights[a.id].phase.record, lim.grace, s.now).Replay?
    ensures j in s.rows && s.rows[j].family == s.flights[a.id].claims.family
  {
    var fl := s.flights[a.id];
    assert TokenOk(s, fl.claims) by {
      assert FlightOk(lim, s, fl);
    }
    if Consumable(s.rows, fl.claims.jti) {
      j := fl.claims.jti;
    } else {
      ReplayIsLinked(lim, s, a.id, lim.grace);
      j := Loser(s.rows, fl.phase.record, lim.grace, s.now).successor.jti;
    }
  }

  /** The arithmetic: an allowed ruling lies within the true ceiling. */
  lemma AllowedWithinCeiling(lim: Limits, s: Sys, a: Action, r: Record)
    requires CeilingFits(lim) && Inv(lim, s) && CeilingOk(lim, s)
    requires a.Judge? && Enabled(lim, s, a) && JudgedBy(lim, s, a, r)
    requires Consumable(s.rows, s.flights[a.id].claims.jti)
             || Loser(s.rows, s.flights[a.id].phase.record, lim.grace, s.now).Replay?
    ensures var f := s.flights[a.id].claims.family;
            f in s.signIns && Seconds(s.now) <= s.signIns[f].startMs / 1000 + lim.absolute
  {
    var fl := s.flights[a.id];
    var f := fl.claims.family;
    assert TokenOk(s, fl.claims) by {
      assert FlightOk(lim, s, fl);
    }
    var start := s.signIns[f].startMs / 1000;
    var root := s.signIns[f].root;
    var j := VisibleRow(lim, s, a);
    StartedAtMost(lim, s, a, j);
    assert Seconds(s.now) <= start + lim.absolute + LongestGap(lim);
    assert StartOk(lim, s, f);
    assert root in s.rows;
    StartedAtMost(lim, s, a, root);
  }

  /** Only purges delete rows, and only the clock moves time. */
  lemma RowsSurvive(lim: Limits, s: Sys, a: Action)
    ensures !a.Purge? ==> s.rows.Keys <= Step(lim, s, a).rows.Keys
    ensures s.now <= Step(lim, s, a).now
  {
  }

  /** A row enters the history at a sign-in or at a commit. */
  lemma NewRows(lim: Limits, s: Sys, a: Action, j: Jti)
    requires Inv(lim, s) && j in Step(lim, s, a).log && j !in s.log
    ensures Enabled(lim, s, a)
    ensures || (a.DoSignIn? && j == a.jti)
            || (a.Commit? && j == s.flights[a.id].next.jti)
  {
    if !Enabled(lim, s, a) {
    } else if a.DoSignIn? {
    } else if a.Commit? {
      CommitLinks(lim, s, a.id);
    } else if Quiet(a) {
      QuietStep(lim, s, a);
    } else {
      MarkStep(lim, s, a);
    }
  }

  lemma HistoryAdvances(lim: Limits, s: Sys, a: Action)
    requires Inv(lim, s)
    ensures LogAdvances(s.log, Step(lim, s, a).log)
  {
    HistoryStep(lim, s, a);
    LinkedAdvances(s, Step(lim, s, a));
  }

  lemma StartsStep(lim: Limits, s: Sys, a: Action)
    requires Inv(lim, s) && StartsOk(lim, s)
    ensures StartsOk(lim, Step(lim, s, a))
  {
    var s' := Step(lim, s, a);
    if Enabled(lim, s, a) && a.Purge? {
      PurgeRoots(lim, s, a.doomed);
    } else {
      RowsSurvive(lim, s, a);
      SignInsStay(lim, s, a);
      HistoryAdvances(lim, s, a);
      forall f | f in s'.signIns ensures StartOk(lim, s', f) {
        if f in s.signIns {
          assert StartOk(lim, s, f);
        } else {
          NewFamily(lim, s, a, f);
        }
      }
    }
  }

  lemma NewFamily(lim: Limits, s: Sys, a: Action, f: Family)
    requires Inv(lim, s) && f in Step(lim, s, a).signIns && f !in s.signIns
    ensures Enabled(lim, s, a) && a.DoSignIn? && a.family == f && StartOk(lim, Step(lim, s, a), f)
  {
    if Enabled(lim, s, a) && a.DoSignIn? {
      SignInLog(lim, s, a);
    } else {
      HistoryMoveKeepsFamilies(lim, s, a);
    }
  }

  lemma HistoryMoveKeepsFamilies(lim: Limits, s: Sys, a: Action)
    requires !(Enabled(lim, s, a) && a.DoSignIn?)
    ensures Step(lim, s, a).signIns == s.signIns
  {
  }

  lemma PurgeRoots(lim: Limits, s: Sys, doomed: set<Jti>)
    requires Inv(lim, s) && StartsOk(lim, s)
    requires forall j :: j in doomed ==> j in s.rows && Expired(s.rows[j], s.now)
    ensures StartsOk(lim, s.(rows := s.rows - doomed))
  {
    var s' := s.(rows := s.rows - doomed);
    forall f | f in s'.signIns ensures StartOk(lim, s', f) {
      var root := s.signIns[f].root;
      assert StartOk(lim, s, f) && RowTimesOk(lim, s, s.log[root]);
      assert root in doomed ==> Expired(s.log[root], s.now);
    }
  }

  lemma MintsStep(lim: Limits, s: Sys, a: Action)
    requires Inv(lim, s) && MintsOk(lim, s) && HoldsOk(lim, s) && lim.absolute >= 0
    ensures MintsOk(lim, Step(lim, s, a))
  {
    var s' := Step(lim, s, a);
    SignInsStay(lim, s, a);
    HistoryAdvances(lim, s, a);
    forall j | j in s'.log ensures Within(lim, s', s'.log[j].family, s'.log[j].MintSecond()) {
      if j in s.log {
        assert Within(lim, s, s.log[j].family, s.log[j].MintSecond());
      } else {
        NewRows(lim, s, a, j);
        if a.Commit? {
          CommitLinks(lim, s, a.id);
          assert Within(lim, s, s.flights[a.id].claims.family, s.flights[a.id].next.mintMs / 1000);
        } else {
          SignInLog(lim, s, a);
        }
      }
    }
  }

  /** A flight starts holding its row at an allowed verdict and at no other step. */
  lemma HoldingBegins(lim: Limits, s: Sys, a: Action, id: nat)
    requires id in Step(lim, s, a).flights && Step(lim, s, a).flights[id].phase.Holding?
    requires !(id in s.flights && s.flights[id] == Step(lim, s, a).flights[id])
    ensures a.Judge? && Enabled(lim, s, a) && a.id == id && Consumable(s.rows, s.flights[id].claims.jti)
    ensures Rule(lim, s.flights[id].claims, s.flights[id].phase.record, a.started, a.account, s.flights[id].outage,
                 s.now).Allowed?
    ensures Step(lim, s, a).flights[id].next == s.flights[id].next
    ensures Step(lim, s, a).flights[id].claims == s.flights[id].claims
  {
    if Mover(a) != Some(id) {
      OthersStay(lim, s, a, id);
    }
  }

  lemma HoldsStep(lim: Limits, s: Sys, a: Action)
    requires CeilingFits(lim) && Inv(lim, s) && CeilingOk(lim, s)
    ensures HoldsOk(lim, Step(lim, s, a))
  {
    var s' := Step(lim, s, a);
    SignInsStay(lim, s, a);
    forall id | id in s'.flights && s'.flights[id].phase.Holding?
      ensures Within(lim, s', s'.flights[id].claims.family, s'.flights[id].next.mintMs / 1000)
    {
      if id in s.flights && s.flights[id] == s'.flights[id] {
        assert Within(lim, s, s.flights[id].claims.family, s.flights[id].next.mintMs / 1000);
      } else {
        HoldingBegins(lim, s, a, id);
        var fl := s.flights[id];
        assert FlightOk(lim, s, fl);
        AllowedWithinCeiling(lim, s, a, fl.phase.record);
      }
    }
  }

  lemma RenewalsStep(lim: Limits, s: Sys, a: Action)
    requires CeilingFits(lim) && Inv(lim, s) && CeilingOk(lim, s)
    ensures RenewalsOk(lim, Step(lim, s, a))
  {
    var s' := Step(lim, s, a);
    SignInsStay(lim, s, a);
    NewRenewals(lim, s, a);
    forall i | 0 <= i < |s'.events| && s'.events[i].EvRenewed?
      ensures Within(lim, s', s'.events[i].family, Seconds(s'.events[i].at))
    {
      if i < |s.events| {
        assert s'.events[i] == s.events[i] && Within(lim, s, s.events[i].family, Seconds(s.events[i].at));
      } else {
        var r := RenewalIsRuled(lim, s, a, i);
        AllowedWithinCeiling(lim, s, a, r);
      }
    }
  }

  lemma {:induction false} CeilingReachable(lim: Limits, acts: seq<Action>)
    requires CeilingFits(lim)
    ensures CeilingOk(lim, Play(lim, acts))
    decreases |acts|
  {
    if acts != [] {
      var n := |acts| - 1;
      var s := Play(lim, acts[..n]);
      CeilingReachable(lim, acts[..n]);
      Reachable(lim, acts[..n]);
      StartsStep(lim, s, acts[n]);
      MintsStep(lim, s, acts[n]);
      HoldsStep(lim, s, acts[n]);
      RenewalsStep(lim, s, acts[n]);
    }
  }

  /**
   When the absolute ceiling plus the longest gap fits in a refresh lifetime, no session is
   ever renewed later than its sign-in plus the ceiling, although the start is read from the
   oldest row a purge has left.
   */
  lemma CeilingSurvivesPurging(lim: Limits, acts: seq<Action>, i: nat)
    requires CeilingFits(lim)
    requires i < |Play(lim, acts).events| && Play(lim, acts).events[i].EvRenewed?
    ensures var s := Play(lim, acts);
            var e := s.events[i];
            e.family in s.signIns && Seconds(e.at) <= s.signIns[e.family].startMs / 1000 + lim.absolute
  {
    CeilingReachable(lim, acts);
    var s := Play(lim, acts);
    assert Within(lim, s, s.events[i].family, Seconds(s.events[i].at));
  }
}
