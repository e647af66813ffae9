/** Exactly when a revocation is final, stated in terms of the moment it commits. */
module RevocationExact {
  import opened Options
  import opened RefreshRows
  import opened SessionPolicy
  import opened RotationProtocol
  import opened RotationInvariant
  import opened RotationSafety
  import opened RotationOutcomes
  import opened RotationRuns

  /** The first instant at which the presented row can be missing. */
  function GoneFrom(s: Sys, j: Jti): int {
    if j in s.rows then Max(s.now, s.rows[j].expiresAt * US_PER_SECOND + 1) else s.now
  }

  /**
   A refresh that read its row after the row was consumed, and is still without a verdict when
   the row can be purged inside the grace window, the successor's row being there.
   */
  predicate Answerable(lim: Limits, s: Sys, f: Family, fl: Flight) {
    && ReadIn(fl, f) && lim.grace > 0 && fl.phase.record.revokedAt.None?
    && fl.phase.record.consumedAt.Some? && fl.phase.record.consumedAt.value.At?
    && fl.phase.record.successor.Some? && fl.phase.record.successor.value in s.rows
    && GoneFrom(s, fl.claims.jti) <= fl.phase.record.consumedAt.value.us + lim.grace * US_PER_SECOND
  }

  predicate SomeAnswerable(lim: Limits, s: Sys, f: Family) {
    exists id :: id in s.flights && Answerable(lim, s, f, s.flights[id])
  }

  /** Nothing is claimed or replayed in the family, whatever follows. */
  ghost predicate SilentAfter(lim: Limits, s0: Sys, f: Family, after: seq<Action>) {
    var s := PlayFrom(lim, s0, after);
    forall i :: |s0.events| <= i < |s.events| ==> !OutcomeIn(s.events[i], f)
  }

  // ---- an answer needs such a refresh ----

  /** A verdict reports a renewal, and a replay before it only if the claim was lost to one. */
  lemma JudgeEvents(lim: Limits, s: Sys, a: Action, i: nat)
    requires CanJudge(s, a) && |s.events| <= i < |JudgeStep(lim, s, a).events|
    ensures var e, fl := JudgeStep(lim, s, a).events[i], s.flights[a.id];
            || e.EvRenewed?
            || (e.EvReplayed? && e.family == fl.claims.family
                && Loser(s.rows, fl.phase.record, lim.grace, s.now).Replay?)
  {
  }

  lemma DeadReplay(lim: Limits, s: Sys, a: Action, f: Family, i: nat)
    requires Inv(lim, s) && Dead(s, f) && CanJudge(s, a)
    requires |s.events| <= i < |JudgeStep(lim, s, a).events| && OutcomeIn(JudgeStep(lim, s, a).events[i], f)
    ensures var fl := s.flights[a.id];
            && ReadIn(fl, f) && fl.claims.jti !in s.rows && fl.phase.record.jti == fl.claims.jti
            && Loser(s.rows, fl.phase.record, lim.grace, s.now).Replay?
  {
    JudgeEvents(lim, s, a, i);
    DeadVerdict(lim, s, a.id, f);
    ReadOwnRow(lim, s, a.id);
  }

  lemma ReadOwnRow(lim: Limits, s: Sys, id: nat)
    requires Inv(lim, s) && id in s.flights && s.flights[id].phase.Loaded?
    ensures s.flights[id].phase.record.jti == s.flights[id].claims.jti
  {
    assert FlightOk(lim, s, s.flights[id]);
  }

  lemma ReplayNeeds(rows: Rows, r: Record, grace: int, now: int)
    requires r.jti !in rows && Loser(rows, r, grace, now).Replay?
    ensures grace > 0 && r.revokedAt.None? && r.consumedAt.Some? && r.consumedAt.value.At?
    ensures now <= r.consumedAt.value.us + grace * US_PER_SECOND
    ensures r.successor.Some? && r.successor.value in rows
  {
  }

  lemma OnlyPurgesDelete(lim: Limits, s: Sys, a: Action, j: Jti)
    requires Inv(lim, s) && j in s.rows && j !in Step(lim, s, a).rows
    ensures Expired(s.rows[j], s.now)
  {
    if !Enabled(lim, s, a) || a.Purge? {
    } else if a.Commit? {
      ClaimTable(lim, s, a.id);
    } else if a.DoSignIn? {
    } else if Quiet(a) {
      QuietRows(lim, s, a);
    } else {
      MarkStep(lim, s, a);
    }
  }

  lemma StepClock(lim: Limits, s: Sys, a: Action)
    ensures s.now <= Step(lim, s, a).now
  {
  }

  /** Over a run: a row once gone stays gone, and one that goes had expired. */
  lemma {:induction false} RowOverRun(lim: Limits, s0: Sys, acts: seq<Action>, j: Jti)
    requires Inv(lim, s0) && j in s0.log
    ensures var s := PlayFrom(lim, s0, acts);
            && Inv(lim, s) && s0.now <= s.now && j in s.log && s.log[j].expiresAt == s0.log[j].expiresAt
            && (j !in s0.rows ==> j !in s.rows)
            && (j in s0.rows && j !in s.rows ==> Expired(s0.log[j], s.now))
    decreases |acts|
  {
    if acts != [] {
      var n := |acts| - 1;
      var s := PlayFrom(lim, s0, acts[..n]);
      RowOverRun(lim, s0, acts[..n], j);
      StepKeeps(lim, s, acts[n]);
      StepClock(lim, s, acts[n]);
      LogStays(lim, s, acts[n], j);
      if j !in s.rows {
        GoneStaysGone(lim, s, acts[n], j);
      } else if j !in Step(lim, s, acts[n]).rows {
        OnlyPurgesDelete(lim, s, acts[n], j);
      }
    }
  }

  /** The flight, read before the death and answered after it, was answerable at the death. */
  lemma WasAnswerable(lim: Limits, s0: Sys, acts: seq<Action>, f: Family, id: nat)
    requires Inv(lim, s0) && id in s0.flights && ReadIn(s0.flights[id], f)
    requires var fl := s0.flights[id];
             var s := PlayFrom(lim, s0, acts);
             fl.claims.jti !in s.rows && fl.phase.record.jti == fl.claims.jti
             && Loser(s.rows, fl.phase.record, lim.grace, s.now).Replay?
    ensures Answerable(lim, s0, f, s0.flights[id])
  {
    var fl := s0.flights[id];
    var s := PlayFrom(lim, s0, acts);
    ReplayNeeds(s.rows, fl.phase.record, lim.grace, s.now);
    assert FlightOk(lim, s0, fl);
    assert LinkOk(s0.log, s0.log[fl.claims.jti]);
    RowOverRun(lim, s0, acts, fl.claims.jti);
    RowOverRun(lim, s0, acts, fl.phase.record.successor.value);
  }

  lemma {:induction false} AnswerNeeds(lim: Limits, s0: Sys, acts: seq<Action>, f: Family, i: nat)
    requires Inv(lim, s0) && Dead(s0, f) && Known(s0, f)
    requires |s0.events| <= i < |PlayFrom(lim, s0, acts).events| && OutcomeIn(PlayFrom(lim, s0, acts).events[i], f)
    ensures SomeAnswerable(lim, s0, f)
    decreases |acts|
  {
    var n := |acts| - 1;
    var s, a := PlayFrom(lim, s0, acts[..n]), acts[n];
    DeadStays(lim, s0, acts[..n], f);
    DeadReports(lim, s, a, f);
    if i < |s.events| {
      assert s.events[i] == Step(lim, s, a).events[i];
      AnswerNeeds(lim, s0, acts[..n], f, i);
    } else {
      DeadReplay(lim, s, a, f, i);
      assert a.id in s0.flights && s0.flights[a.id] == s.flights[a.id];
      WasAnswerable(lim, s0, acts[..n], f, a.id);
    }
  }

  // ---- such a refresh can be answered ----

  lemma {:induction false} SomeStart(rows: Rows, f: Family) returns (m: Option<int>)
    ensures IsFamilyStart(rows, f, m)
    decreases |rows|
  {
    if rows == map[] {
      m := None;
    } else {
      var j :| j in rows;
      var rest := rows - {j};
      assert |rest.Keys| < |rows.Keys| by {
        assert rest.Keys == rows.Keys - {j};
      }
      var k := SomeStart(rest, f);
      m := EarlierOf(rows[j], f, k);
      StartGrows(rows, rest, f, j, k, m);
    }
  }

  /** The family's start once row `r` is taken in as well. */
  function EarlierOf(r: Record, f: Family, k: Option<int>): Option<int> {
    if r.family != f then k else if k.None? || r.mintMs < k.value then Some(r.mintMs) else k
  }

  lemma StartGrows(rows: Rows, rest: Rows, f: Family, j: Jti, k: Option<int>, m: Option<int>)
    requires j in rows && rest == rows - {j} && IsFamilyStart(rest, f, k)
    requires m == EarlierOf(rows[j], f, k)
    ensures IsFamilyStart(rows, f, m)
  {
    forall x | x in rows && x != j ensures x in rest && rest[x] == rows[x] {
    }
    if m.Some? && m == k {
      var x :| x in rest && rest[x].family == f && rest[x].mintMs == m.value;
      assert x in rows && rows[x].family == f && rows[x].mintMs == m.value;
    }
  }

  /** The state once the clock has moved on and the presented row is gone. */
  function Purged(s: Sys, j: Jti, t: int): Sys {
    s.(now := t, rows := s.rows - {j})
  }

  lemma NotLocked(lim: Limits, s: Sys, f: Family, fl: Flight)
    requires Inv(lim, s) && Dead(s, f) && fl.claims in s.issued && fl.claims.family == f
    ensures !Locked(s, fl.claims.jti)
  {
    assert TokenOk(s, fl.claims);
    forall id | id in s.flights && HoldsLock(s.flights[id], fl.claims.jti) ensures s.flights[id].claims.family == f {
      assert FlightOk(lim, s, s.flights[id]) && TokenOk(s, s.flights[id].claims);
    }
  }

  /** Waiting, and a purge where the row is still there, get to that state. */
  lemma WaitAndPurge(lim: Limits, s: Sys, f: Family, fl: Flight, t: int) returns (acts: seq<Action>)
    requires Inv(lim, s) && Dead(s, f) && fl.claims in s.issued && fl.claims.family == f
    requires GoneFrom(s, fl.claims.jti) <= t
    ensures PlayFrom(lim, s, acts) == Purged(s, fl.claims.jti, t)
  {
    var j := fl.claims.jti;
    NotLocked(lim, s, f, fl);
    PlayOne(lim, s, Tick(t));
    if j in s.rows {
      PlayMore(lim, s, [Tick(t)], Purge({j}));
      acts := [Tick(t)] + [Purge({j})];
      PurgeNow(lim, s.(now := t), j);
    } else {
      acts := [Tick(t)];
      assert s.rows - {j} == s.rows;
    }
  }

  lemma PurgeNow(lim: Limits, s: Sys, j: Jti)
    requires j in s.rows && Expired(s.rows[j], s.now) && !Locked(s, j)
    ensures Step(lim, s, Purge({j})) == s.(rows := s.rows - {j})
  {
  }

  /** The verdict that then follows is a replay. */
  lemma AnswersNow(lim: Limits, s: Sys, f: Family, id: nat, started: Option<int>)
    requires id in s.flights && ReadIn(s.flights[id], f)
    requires s.flights[id].claims.jti !in s.rows && s.flights[id].phase.record.jti == s.flights[id].claims.jti
    requires Loser(s.rows, s.flights[id].phase.record, lim.grace, s.now).Replay?
    requires Enabled(lim, s, Judge(id, OPEN, started))
    ensures var s' := Step(lim, s, Judge(id, OPEN, started));
            |s'.events| > |s.events| && OutcomeIn(s'.events[|s.events|], f)
  {
    var a := Judge(id, OPEN, started);
    var o := Loser(s.rows, s.flights[id].phase.record, lim.grace, s.now);
    assert Step(lim, s, a) == ReplayStep(lim, s, id, s.flights[id], o, a);
  }

  lemma NotItsOwnSuccessor(log: Rows, f: Family, si: SignIn, j: Jti)
    requires HasChain(log, f, si) && j in log && log[j].family == f
    ensures log[j].successor != Some(j)
  {
    var c :| IsChain(log, f, si, c);
    var i :| 0 <= i < |c| && c[i] == j;
    assert i < |c| - 1 ==> LinkAt(log, c, i);
  }

  lemma StillReplays(lim: Limits, s: Sys, f: Family, id: nat, t: int)
    requires Inv(lim, s) && id in s.flights && Answerable(lim, s, f, s.flights[id])
    requires f in s.signIns && HasChain(s.log, f, s.signIns[f])
    requires t == Max(GoneFrom(s, s.flights[id].claims.jti), s.flights[id].phase.record.consumedAt.value.us)
    ensures Loser(Purged(s, s.flights[id].claims.jti, t).rows, s.flights[id].phase.record, lim.grace, t).Replay?
  {
    var fl := s.flights[id];
    assert FlightOk(lim, s, fl) && TokenOk(s, fl.claims);
    ReadOwnRow(lim, s, id);
    NotItsOwnSuccessor(s.log, f, s.signIns[f], fl.claims.jti);
  }

  lemma JudgeEnabled(lim: Limits, s: Sys, id: nat) returns (started: Option<int>)
    requires id in s.flights && s.flights[id].phase.Loaded? && !Locked(s, s.flights[id].claims.jti)
    ensures Enabled(lim, s, Judge(id, OPEN, started))
  {
    started := SomeStart(JudgedRows(s, s.flights[id]), s.flights[id].claims.family);
  }

  lemma CanBeAnswered(lim: Limits, s: Sys, f: Family, id: nat) returns (after: seq<Action>)
    requires Inv(lim, s) && Dead(s, f) && f in s.signIns && HasChain(s.log, f, s.signIns[f])
    requires id in s.flights && Answerable(lim, s, f, s.flights[id])
    ensures !SilentAfter(lim, s, f, after)
  {
    var fl := s.flights[id];
    var t := Max(GoneFrom(s, fl.claims.jti), fl.phase.record.consumedAt.value.us);
    assert FlightOk(lim, s, fl);
    var wait := WaitAndPurge(lim, s, f, fl, t);
    var s1 := Purged(s, fl.claims.jti, t);
    StillReplays(lim, s, f, id, t);
    ReadOwnRow(lim, s, id);
    NotLocked(lim, s, f, fl);
    var started := JudgeEnabled(lim, s1, id);
    AnswersNow(lim, s1, f, id, started);
    PlayMore(lim, s, wait, Judge(id, OPEN, started));
    after := wait + [Judge(id, OPEN, started)];
  }

  /**
   A committed revocation silences its family for good exactly when, at that moment, no refresh
   that has read a consumed row of the family could still see that row purged inside the grace
   window.
   */
  lemma RevocationFinalExactlyWhen(lim: Limits, before: seq<Action>, a: Action, f: Family)
    requires var s := Play(lim, before); f in s.signIns && Enabled(lim, s, a) && Revokes(a, s, f)
    ensures var s0 := Step(lim, Play(lim, before), a);
            (forall after :: SilentAfter(lim, s0, f, after)) <==> !SomeAnswerable(lim, s0, f)
  {
    Reachable(lim, before);
    StepKeeps(lim, Play(lim, before), a);
    RevokedState(lim, before, a, f);
    SilentExactlyWhen(lim, Step(lim, Play(lim, before), a), f);
  }

  lemma SilentExactlyWhen(lim: Limits, s0: Sys, f: Family)
    requires Inv(lim, s0) && Dead(s0, f) && f in s0.signIns && HasChain(s0.log, f, s0.signIns[f])
    ensures (forall after :: SilentAfter(lim, s0, f, after)) <==> !SomeAnswerable(lim, s0, f)
  {
    if SomeAnswerable(lim, s0, f) {
      var id :| id in s0.flights && Answerable(lim, s0, f, s0.flights[id]);
      var after := CanBeAnswered(lim, s0, f, id);
    } else {
      forall after ensures SilentAfter(lim, s0, f, after) {
        Silence(lim, s0, f, after);
      }
    }
  }

  lemma Silence(lim: Limits, s0: Sys, f: Family, after: seq<Action>)
    requires Inv(lim, s0) && Dead(s0, f) && Known(s0, f) && !SomeAnswerable(lim, s0, f)
    ensures SilentAfter(lim, s0, f, after)
  {
    if !SilentAfter(lim, s0, f, after) {
      var i :| |s0.events| <= i < |PlayFrom(lim, s0, after).events| && OutcomeIn(PlayFrom(lim, s0, after).events[i], f);
      AnswerNeeds(lim, s0, after, f, i);
    }
  }

  lemma RevokedState(lim: Limits, before: seq<Action>, a: Action, f: Family)
    requires var s := Play(lim, before); f in s.signIns && Enabled(lim, s, a) && Revokes(a, s, f) && Inv(lim, s)
    ensures var s0 := Step(lim, Play(lim, before), a);
            Dead(s0, f) && f in s0.signIns && HasChain(s0.log, f, s0.signIns[f])
  {
    RevocationKills(lim, Play(lim, before), a, f);
    ChainsReachable(lim, before + [a]);
    PlayMore(lim, INITIAL, before, a);
  }

  lemma RevocationKills(lim: Limits, s: Sys, a: Action, f: Family)
    requires Inv(lim, s) && f in s.signIns && Enabled(lim, s, a) && Revokes(a, s, f)
    ensures Dead(Step(lim, s, a), f) && f in Step(lim, s, a).signIns
  {
    RevokedFamilyIsDead(lim, s, f);
  }
}
