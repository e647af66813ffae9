/** Who wins a token, what the losers are handed, and what a revocation ends. */
module RotationOutcomes {
  import opened Options
  import opened RefreshRows
  import opened SessionPolicy
  import opened RotationProtocol
  import opened RotationInvariant
  import opened RotationSafety

  /** The successor an outcome names is the row the presented token points at. */
  ghost predicate NamesSuccessor(log: Rows, j: Jti, f: Family, next: Jti, exp: int, mintMs: int) {
    && j in log && log[j].family == f && log[j].consumedAt.Some? && log[j].successor == Some(next)
    && next in log && log[next].expiresAt == exp && log[next].mintMs == mintMs
  }

  ghost predicate EventOk(lim: Limits, log: Rows, e: Event) {
    match e
    case EvClaimed(j, next) => NamesSuccessor(log, j, next.family, next.jti, next.exp, next.mintMs)
    case EvReplayed(j, f, rot, at) =>
      && NamesSuccessor(log, j, f, rot.jti, rot.exp, rot.mintMs)
      && log[j].consumedAt == Some(rot.consumedAt) && lim.grace > 0 && WithinGrace(rot.consumedAt, lim.grace, at)
    case _ => true
  }

  ghost predicate EventsOk(lim: Limits, s: Sys) {
    forall i :: 0 <= i < |s.events| ==> EventOk(lim, s.log, s.events[i])
  }

  predicate ClaimOf(e: Event, j: Jti) {
    e.EvClaimed? && e.jti == j
  }

  ghost predicate Won(s: Sys, j: Jti) {
    exists i :: 0 <= i < |s.events| && ClaimOf(s.events[i], j)
  }

  ghost predicate WinnersOk(s: Sys) {
    && (forall i, k :: 0 <= i < k < |s.events| && s.events[i].EvClaimed? && s.events[k].EvClaimed? ==>
          s.events[i].jti != s.events[k].jti)
    && (forall j :: j in s.log && s.log[j].consumedAt.Some? ==> Won(s, j))
  }

  lemma EventStays(lim: Limits, log: Rows, log': Rows, e: Event)
    requires EventOk(lim, log, e) && LogAdvances(log, log')
    ensures EventOk(lim, log', e)
  {
  }

  /** `s'` adds to the events of `s`, each addition in order and none of them a claim. */
  ghost predicate ReportsNoClaim(lim: Limits, s: Sys, s': Sys) {
    && |s.events| <= |s'.events| && s'.events[..|s.events|] == s.events
    && forall i :: |s.events| <= i < |s'.events| ==> EventOk(lim, s.log, s'.events[i]) && !s'.events[i].EvClaimed?
  }

  lemma JudgeReports(lim: Limits, s: Sys, a: Action)
    requires Inv(lim, s) && CanJudge(s, a)
    ensures ReportsNoClaim(lim, s, JudgeStep(lim, s, a))
  {
    var fl := s.flights[a.id];
    if !Consumable(s.rows, fl.claims.jti) && Loser(s.rows, fl.phase.record, lim.grace, s.now).Replay? {
      ReplayReports(lim, s, a);
    }
  }

  lemma Reports(lim: Limits, s: Sys, a: Action)
    requires Inv(lim, s) && !(Enabled(lim, s, a) && a.Commit?)
    ensures ReportsNoClaim(lim, s, Step(lim, s, a))
  {
    if Enabled(lim, s, a) && a.Judge? {
      JudgeReports(lim, s, a);
    } else {
      OnlyVerdicts(lim, s, a);
    }
  }

  lemma ReplayReports(lim: Limits, s: Sys, a: Action)
    requires Inv(lim, s) && CanJudge(s, a)
    requires !Consumable(s.rows, s.flights[a.id].claims.jti)
    requires Loser(s.rows, s.flights[a.id].phase.record, lim.grace, s.now).Replay?
    ensures var fl := s.flights[a.id];
            var o := Loser(s.rows, fl.phase.record, lim.grace, s.now);
            var e := EvReplayed(fl.claims.jti, fl.claims.family, o.successor, s.now);
            var s' := JudgeStep(lim, s, a);
            && EventOk(lim, s.log, e)
            && (s'.events == s.events + [e] || exists e2: Event :: e2.EvRenewed? && s'.events == s.events + [e] + [e2])
  {
    var fl := s.flights[a.id];
    ReplayIsLinked(lim, s, a.id, lim.grace);
    assert TokenOk(s, fl.claims) && LinkOk(s.log, s.log[fl.claims.jti]) by {
      assert FlightOk(lim, s, fl);
    }
  }

  lemma EventsStep(lim: Limits, s: Sys, a: Action)
    requires Inv(lim, s) && EventsOk(lim, s) && WinnersOk(s)
    ensures EventsOk(lim, Step(lim, s, a)) && WinnersOk(Step(lim, s, a))
  {
    var s' := Step(lim, s, a);
    HistoryStep(lim, s, a);
    LinkedAdvances(s, s');
    if Enabled(lim, s, a) && a.Commit? {
      CommitReports(lim, s, a.id);
    } else {
      Reports(lim, s, a);
      forall i | 0 <= i < |s'.events| ensures EventOk(lim, s'.log, s'.events[i]) {
        assert i < |s.events| ==> s'.events[i] == s.events[i];
        EventStays(lim, s.log, s'.log, s'.events[i]);
      }
      NoClaimNoWinner(lim, s, a);
    }
  }

  lemma CommitReports(lim: Limits, s: Sys, id: nat)
    requires Inv(lim, s) && EventsOk(lim, s) && WinnersOk(s) && id in s.flights && s.flights[id].phase.Holding?
    ensures EventsOk(lim, CommitStep(s, id)) && WinnersOk(CommitStep(s, id))
  {
    var s' := CommitStep(s, id);
    var fl := s.flights[id];
    CommitLinks(lim, s, id);
    LinkWins(lim, s, s', fl.claims.jti, At(fl.phase.stamp), fl.next);
  }

  lemma LinkWins(lim: Limits, s: Sys, s': Sys, j: Jti, stamp: RefreshRows.Stamp, next: Claims)
    requires EventsOk(lim, s) && WinnersOk(s)
    requires next.jti in s'.log && Linked(s, s', j, stamp, s'.log[next.jti])
    requires s'.log[next.jti].jti == next.jti && s.log[j].family == next.family
    requires s'.log[next.jti].expiresAt == next.exp && s'.log[next.jti].mintMs == next.mintMs
    requires s'.events == s.events + [EvClaimed(j, next)]
    ensures EventsOk(lim, s') && WinnersOk(s')
  {
    var n := |s.events|;
    forall i | 0 <= i < |s'.events| ensures EventOk(lim, s'.log, s'.events[i]) {
      if i < n {
        EventStays(lim, s.log, s'.log, s.events[i]);
      }
    }
    forall i | 0 <= i < n && s'.events[i].EvClaimed? ensures s'.events[i].jti != j {
      assert EventOk(lim, s.log, s.events[i]);
    }
    forall k | k in s'.log && s'.log[k].consumedAt.Some? ensures Won(s', k) {
      if k == j {
        assert ClaimOf(s'.events[n], j);
      } else {
        var i :| 0 <= i < n && ClaimOf(s.events[i], k);
        assert ClaimOf(s'.events[i], k);
      }
    }
  }

  /** No new claim and no new link: the winners are those there were. */
  lemma SameWinners(s: Sys, s': Sys)
    requires WinnersOk(s) && |s.events| <= |s'.events| && s'.events[..|s.events|] == s.events
    requires forall i :: |s.events| <= i < |s'.events| ==> !s'.events[i].EvClaimed?
    requires forall j :: j in s'.log && s'.log[j].consumedAt.Some? ==> j in s.log && s.log[j].consumedAt.Some?
    ensures WinnersOk(s')
  {
    forall i, k | 0 <= i < k < |s'.events| && s'.events[i].EvClaimed? && s'.events[k].EvClaimed?
      ensures s'.events[i].jti != s'.events[k].jti
    {
      assert s'.events[i] == s.events[i] && s'.events[k] == s.events[k];
    }
    forall j | j in s'.log && s'.log[j].consumedAt.Some? ensures Won(s', j) {
      var i :| 0 <= i < |s.events| && ClaimOf(s.events[i], j);
      assert s'.events[i] == s.events[i];
    }
  }

  lemma NoClaimNoWinner(lim: Limits, s: Sys, a: Action)
    requires Inv(lim, s) && WinnersOk(s) && !(Enabled(lim, s, a) && a.Commit?)
    ensures WinnersOk(Step(lim, s, a))
  {
    Reports(lim, s, a);
    NoCommitNoLink(lim, s, a);
    SameWinners(s, Step(lim, s, a));
  }

  lemma NoCommitNoLink(lim: Limits, s: Sys, a: Action)
    requires Inv(lim, s) && !(Enabled(lim, s, a) && a.Commit?)
    ensures forall j :: j in Step(lim, s, a).log && Step(lim, s, a).log[j].consumedAt.Some? ==>
                          j in s.log && s.log[j].consumedAt.Some?
  {
    if !Enabled(lim, s, a) {
    } else if a.DoSignIn? {
      SignInLog(lim, s, a);
    } else if Quiet(a) {
      QuietStep(lim, s, a);
    } else {
      MarkStep(lim, s, a);
    }
  }

  lemma {:induction false} EventsReachable(lim: Limits, acts: seq<Action>)
    ensures EventsOk(lim, Play(lim, acts)) && WinnersOk(Play(lim, acts))
    decreases |acts|
  {
    if acts != [] {
      var n := |acts| - 1;
      EventsReachable(lim, acts[..n]);
      Reachable(lim, acts[..n]);
      EventsStep(lim, Play(lim, acts[..n]), acts[n]);
    }
  }

  /** However many refreshes present one token, and whichever of them abort, at most one
      commits a claim on it. */
  lemma OneWinner(lim: Limits, acts: seq<Action>, i: nat, k: nat)
    requires i < |Play(lim, acts).events| && k < |Play(lim, acts).events|
    requires Play(lim, acts).events[i].EvClaimed? && Play(lim, acts).events[k].EvClaimed?
    requires Play(lim, acts).events[i].jti == Play(lim, acts).events[k].jti
    ensures i == k
  {
    EventsReachable(lim, acts);
  }

  /** Every replay is handed exactly the successor of the one claim that committed, while the
      consumption is at most the grace window old. */
  lemma ReplayCarriesWinner(lim: Limits, acts: seq<Action>, i: nat) returns (k: nat)
    requires i < |Play(lim, acts).events| && Play(lim, acts).events[i].EvReplayed?
    ensures var events := Play(lim, acts).events;
            var e := events[i];
            && k < |events| && ClaimOf(events[k], e.jti)
            && e.rotation.jti == events[k].next.jti && e.rotation.exp == events[k].next.exp
            && e.rotation.mintMs == events[k].next.mintMs && e.family == events[k].next.family
            && e.rotation.consumedAt.At?
            && 0 <= e.at - e.rotation.consumedAt.us <= lim.grace * US_PER_SECOND
  {
    EventsReachable(lim, acts);
    var s := Play(lim, acts);
    var e := s.events[i];
    assert EventOk(lim, s.log, e) && Won(s, e.jti);
    var w :| 0 <= w < |s.events| && ClaimOf(s.events[w], e.jti);
    assert EventOk(lim, s.log, s.events[w]);
    k := w;
  }

  // ---- revocation ----

  /** No live row and no half-done claim is left in the family. */
  ghost predicate Dead(s: Sys, f: Family) {
    && (forall j :: j in s.rows && s.rows[j].family == f ==> s.rows[j].revokedAt.Some?)
    && !FamilyLocked(s, f)
  }

  predicate ReadIn(fl: Flight, f: Family) {
    fl.phase.Loaded? && fl.claims.family == f
  }

  /** Only refreshes that had read their row in `s0` are still between read and verdict. */
  ghost predicate OnlyOldReads(s0: Sys, s: Sys, f: Family) {
    forall id :: id in s.flights && ReadIn(s.flights[id], f) ==> id in s0.flights && s0.flights[id] == s.flights[id]
  }

  /** Families are only born at sign-in. */
  ghost predicate Known(s: Sys, f: Family) {
    f in s.signIns
  }

  lemma RevokedFamilyIsDead(lim: Limits, s: Sys, f: Family)
    requires Inv(lim, s) && !FamilyLocked(s, f)
    ensures Dead(RevokeStep(s, f), f)
  {
  }

  predicate OutcomeIn(e: Event, f: Family) {
    (e.EvClaimed? && e.next.family == f) || (e.EvReplayed? && e.family == f)
  }

  /** A refresh that reads a dead family's row finds it revoked or gone, so it never reaches
      a verdict. */
  lemma DeadLoadEnds(lim: Limits, s: Sys, id: nat, f: Family)
    requires Inv(lim, s) && Dead(s, f) && id in s.flights && s.flights[id].claims.family == f
    ensures LoadStep(s, id) == Ended(s, id)
  {
    assert FlightOk(lim, s, s.flights[id]) && TokenOk(s, s.flights[id].claims);
  }

  /** In a dead family nothing is consumable, so a refresh still in flight can only lose; it
      is replayed only if its own row has been purged since it read it. */
  lemma DeadVerdict(lim: Limits, s: Sys, id: nat, f: Family)
    requires Inv(lim, s) && Dead(s, f) && id in s.flights && ReadIn(s.flights[id], f)
    ensures !Consumable(s.rows, s.flights[id].claims.jti)
    ensures s.flights[id].claims.jti in s.rows ==>
      Loser(s.rows, s.flights[id].phase.record, lim.grace, s.now).FamilyDead?
  {
    assert FlightOk(lim, s, s.flights[id]) && TokenOk(s, s.flights[id].claims);
  }

  lemma DeadRowsStay(lim: Limits, s: Sys, a: Action, f: Family)
    requires Inv(lim, s) && Dead(s, f) && Known(s, f)
    ensures forall j :: j in Step(lim, s, a).rows && Step(lim, s, a).rows[j].family == f ==>
                          Step(lim, s, a).rows[j].revokedAt.Some?
  {
    if !Enabled(lim, s, a) || a.DoSignIn? || a.Purge? {
    } else if a.Commit? {
      ClaimTable(lim, s, a.id);
      assert s.flights[a.id].claims.family != f;
    } else if Quiet(a) {
      QuietRows(lim, s, a);
    } else {
      MarkStep(lim, s, a);
    }
  }

  /** Only a first read and a verdict put a flight between them, or make it hold a row. */
  lemma OtherPhases(lim: Limits, s: Sys, a: Action, id: nat)
    requires Enabled(lim, s, a) && Mover(a) == Some(id) && !a.Load? && !a.Judge? && id in Step(lim, s, a).flights
    ensures !Step(lim, s, a).flights[id].phase.Holding? && !Step(lim, s, a).flights[id].phase.Loaded?
  {
  }

  lemma DeadFlight(lim: Limits, s: Sys, a: Action, f: Family, id: nat)
    requires Inv(lim, s) && Dead(s, f)
    requires id in Step(lim, s, a).flights && Step(lim, s, a).flights[id].claims.family == f
    ensures !Step(lim, s, a).flights[id].phase.Holding?
    ensures Step(lim, s, a).flights[id].phase.Loaded? ==>
      id in s.flights && s.flights[id] == Step(lim, s, a).flights[id]
  {
    if !Enabled(lim, s, a) {
    } else if Mover(a) != Some(id) {
      OthersStay(lim, s, a, id);
    } else if a.Load? {
      DeadLoadEnds(lim, s, id, f);
    } else if a.Judge? {
      DeadVerdict(lim, s, id, f);
    } else {
      OtherPhases(lim, s, a, id);
    }
  }

  lemma DeadFlightsStay(lim: Limits, s0: Sys, s: Sys, a: Action, f: Family)
    requires Inv(lim, s) && Dead(s, f) && OnlyOldReads(s0, s, f)
    ensures !FamilyLocked(Step(lim, s, a), f) && OnlyOldReads(s0, Step(lim, s, a), f)
  {
    var s' := Step(lim, s, a);
    forall id | id in s'.flights && s'.flights[id].claims.family == f
      ensures !s'.flights[id].phase.Holding?
      ensures s'.flights[id].phase.Loaded? ==> id in s.flights && s.flights[id] == s'.flights[id]
    {
      DeadFlight(lim, s, a, f, id);
    }
  }

  /** The one way a dead family still answers: a replay to a refresh that had read its row
      before the family died, and whose row has been purged since. */
  ghost predicate StaleReplay(s0: Sys, s: Sys, f: Family, e: Event) {
    && e.EvReplayed? && e.jti in s.log && e.jti !in s.rows
    && exists id :: id in s0.flights && ReadIn(s0.flights[id], f) && s0.flights[id].claims.jti == e.jti
  }

  ghost predicate SettledSince(s0: Sys, s: Sys, f: Family) {
    && |s0.events| <= |s.events|
    && forall i :: |s0.events| <= i < |s.events| && OutcomeIn(s.events[i], f) ==> StaleReplay(s0, s, f, s.events[i])
  }

  lemma DeadReports(lim: Limits, s: Sys, a: Action, f: Family)
    requires Inv(lim, s) && Dead(s, f)
    ensures var s' := Step(lim, s, a);
            && |s.events| <= |s'.events| && s'.events[..|s.events|] == s.events
            && forall i :: |s.events| <= i < |s'.events| && OutcomeIn(s'.events[i], f) ==>
                             a.Judge? && StaleReplay(s, s, f, s'.events[i])
  {
    if Enabled(lim, s, a) && a.Commit? {
      CommitLinks(lim, s, a.id);
      assert s.flights[a.id].claims.family != f;
    } else {
      Reports(lim, s, a);
      if Enabled(lim, s, a) && a.Judge? {
        DeadJudge(lim, s, a, f);
      } else {
        OnlyVerdicts(lim, s, a);
      }
    }
  }

  /** Replays are reported by verdicts alone. */
  lemma OnlyVerdicts(lim: Limits, s: Sys, a: Action)
    requires !(Enabled(lim, s, a) && (a.Judge? || a.Commit?))
    ensures var s' := Step(lim, s, a);
            && |s.events| <= |s'.events| && s'.events[..|s.events|] == s.events
            && forall i :: |s.events| <= i < |s'.events| ==> s'.events[i].EvReturned?
  {
  }

  lemma DeadJudge(lim: Limits, s: Sys, a: Action, f: Family)
    requires Inv(lim, s) && Dead(s, f) && CanJudge(s, a)
    ensures var s' := JudgeStep(lim, s, a);
            forall i :: |s.events| <= i < |s'.events| && OutcomeIn(s'.events[i], f) ==>
                          StaleReplay(s, s, f, s'.events[i])
  {
    var fl := s.flights[a.id];
    if fl.claims.family == f {
      DeadVerdict(lim, s, a.id, f);
      assert FlightOk(lim, s, fl);
    }
  }

  lemma LogStays(lim: Limits, s: Sys, a: Action, j: Jti)
    requires Inv(lim, s) && j in s.log
    ensures j in Step(lim, s, a).log && Advances(s.log[j], Step(lim, s, a).log[j])
  {
    HistoryStep(lim, s, a);
    LinkedAdvances(s, Step(lim, s, a));
  }

  /** A purged row never comes back. */
  lemma GoneStaysGone(lim: Limits, s: Sys, a: Action, j: Jti)
    requires Inv(lim, s) && j in s.log && j !in s.rows
    ensures j !in Step(lim, s, a).rows
  {
    if !Enabled(lim, s, a) || a.Purge? {
    } else if a.Commit? {
      ClaimTable(lim, s, a.id);
    } else if a.DoSignIn? {
      SignInLog(lim, s, a);
    } else if Quiet(a) {
      QuietRows(lim, s, a);
    } else {
      MarkStep(lim, s, a);
    }
  }

  lemma SettledStep(lim: Limits, s0: Sys, s: Sys, a: Action, f: Family)
    requires Inv(lim, s) && Dead(s, f) && OnlyOldReads(s0, s, f) && SettledSince(s0, s, f)
    ensures SettledSince(s0, Step(lim, s, a), f)
  {
    var s' := Step(lim, s, a);
    DeadReports(lim, s, a, f);
    forall i | |s0.events| <= i < |s'.events| && OutcomeIn(s'.events[i], f)
      ensures StaleReplay(s0, s', f, s'.events[i])
    {
      var e := s'.events[i];
      if i < |s.events| {
        assert e == s.events[i] && StaleReplay(s0, s, f, e);
      } else {
        assert StaleReplay(s, s, f, e);
        var id :| id in s.flights && ReadIn(s.flights[id], f) && s.flights[id].claims.jti == e.jti;
        assert s0.flights[id] == s.flights[id];
      }
      GoneStaysGone(lim, s, a, e.jti);
      LogStays(lim, s, a, e.jti);
    }
  }

  lemma {:induction false} DeadStays(lim: Limits, s0: Sys, acts: seq<Action>, f: Family)
    requires Inv(lim, s0) && Dead(s0, f) && Known(s0, f)
    ensures var s := PlayFrom(lim, s0, acts);
            Inv(lim, s) && Dead(s, f) && Known(s, f) && OnlyOldReads(s0, s, f) && SettledSince(s0, s, f)
    decreases |acts|
  {
    if acts != [] {
      var n := |acts| - 1;
      var s := PlayFrom(lim, s0, acts[..n]);
      DeadStays(lim, s0, acts[..n], f);
      StepKeeps(lim, s, acts[n]);
      DeadRowsStay(lim, s, acts[n], f);
      DeadFlightsStay(lim, s0, s, acts[n], f);
      SettledStep(lim, s0, s, acts[n], f);
      HistoryStep(lim, s, acts[n]);
    }
  }

  predicate Revokes(a: Action, s: Sys, f: Family) {
    || (a.RevokeAll? && a.family == f)
    || (a.SettleRejection? && a.id in s.flights && s.flights[a.id].claims.family == f)
  }

  /**
   A revocation sticks. Whatever happens after a committed revocation of a family, including
   the one that follows a rolled-back rejected refresh, no refresh of it is ever claimed
   again, and none is replayed except to a refresh that had already read its row and whose
   row a purge has deleted in between.
   */
  lemma RevocationSticks(lim: Limits, before: seq<Action>, a: Action, after: seq<Action>, f: Family)
    requires var s := Play(lim, before); f in s.signIns && Enabled(lim, s, a) && Revokes(a, s, f)
    ensures var s0 := Step(lim, Play(lim, before), a);
            var s := PlayFrom(lim, s0, after);
            && Dead(s, f)
            && |s0.events| <= |s.events|
            && forall i :: |s0.events| <= i < |s.events| && OutcomeIn(s.events[i], f) ==>
                 StaleReplay(s0, s, f, s.events[i])
  {
    var s := Play(lim, before);
    Reachable(lim, before);
    StepKeeps(lim, s, a);
    RevokedFamilyIsDead(lim, s, f);
    DeadStays(lim, Step(lim, s, a), after, f);
  }

  /** With no refresh of the family between its read and its verdict, nothing is ever claimed
      or replayed again. */
  lemma RevocationIsFinal(lim: Limits, before: seq<Action>, a: Action, after: seq<Action>, f: Family)
    requires var s := Play(lim, before); f in s.signIns && Enabled(lim, s, a) && Revokes(a, s, f)
    requires var s := Play(lim, before); forall id :: id in s.flights ==> !ReadIn(s.flights[id], f)
    ensures var s0 := Step(lim, Play(lim, before), a);
            var s := PlayFrom(lim, s0, after);
            forall i :: |s0.events| <= i < |s.events| ==> !OutcomeIn(s.events[i], f)
  {
    RevocationSticks(lim, before, a, after, f);
  }
}
