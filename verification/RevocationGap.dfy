/** That the exception to a sticking revocation does occur: a token rotated as it expires and
    re-presented from a second tab, its family revoked and its row purged while that refresh is
    between its read and its verdict. The refresh is answered with the successor, whose own
    row is revoked. */
module RevocationGap {
  import opened Options
  import opened RefreshRows
  import opened SessionPolicy
  import opened RotationProtocol
  import opened RotationOutcomes
  import opened RotationRuns

  const LIM := Limits(30, 100, 60, 0, 0, 86400)
  const LATE := 100 * US_PER_SECOND + 1
  const FIRST := Claims(0, 0, 0, 100, None, None, None, 0)
  const ROW0 := Record(0, 0, 0, None, 0, 100, None, None, None, None, None)
  const ROW1 := Record(1, 0, 0, None, 100_000, 200, None, None, None, None, None)

  const SIGN_IN := DoSignIn(0, 0, 0, None, None, None, None)
  const BEFORE := [SIGN_IN, Tick(LATE)] + RefreshActs(FIRST, 1, 0) + [Begin(0, FIRST, 2, {})] + [Load(0)]
  const AFTER := [Purge({0}), Judge(0, OPEN, Some(100_000))]

  lemma Opening() returns (s: Sys)
    ensures s == Play(LIM, [SIGN_IN, Tick(LATE)])
    ensures s.flights == map[] && s.rows == map[0 := ROW0] && s.used == {0} && FIRST in s.issued
    ensures s.now == LATE && 0 in s.signIns
  {
    s := SignInStep(LIM, INITIAL, SIGN_IN).(now := LATE);
    PlayOne(LIM, INITIAL, SIGN_IN);
    PlayMore(LIM, INITIAL, [SIGN_IN], Tick(LATE));
    assert [SIGN_IN] + [Tick(LATE)] == [SIGN_IN, Tick(LATE)];
  }

  const ROTATED := map[0 := ROW0.(consumedAt := Some(At(LATE)), successor := Some(1)), 1 := ROW1]

  lemma FirstTab() returns (s: Sys)
    ensures s == Play(LIM, [SIGN_IN, Tick(LATE)] + RefreshActs(FIRST, 1, 0))
    ensures s.flights == map[] && s.rows == ROTATED && s.used == {0, 1} && FIRST in s.issued
    ensures s.now == LATE && 0 in s.signIns
  {
    var s0 := Opening();
    s := Refreshed(LIM, s0, FIRST, 1);
    assert s.rows == ROTATED;
    assert s.rows[0].family == 0 && s.rows[0].mintMs == 0;
    UninterruptedRefresh(LIM, s0, FIRST, 1, 0);
    PlayConcat(LIM, INITIAL, [SIGN_IN, Tick(LATE)], RefreshActs(FIRST, 1, 0));
  }

  /** The first tab has rotated the token; the second has begun and read the consumed row. */
  lemma TwoTabs() returns (s: Sys)
    ensures s == Play(LIM, BEFORE)
    ensures s.now == LATE && 0 in s.signIns && s.flights.Keys == {0} && s.rows == ROTATED
    ensures s.flights[0].claims == FIRST && s.flights[0].phase == Loaded(ROTATED[0])
  {
    var s1 := FirstTab();
    var acts := [SIGN_IN, Tick(LATE)] + RefreshActs(FIRST, 1, 0);
    var b := Begin(0, FIRST, 2, {});
    PlayMore(LIM, INITIAL, acts, b);
    PlayMore(LIM, INITIAL, acts + [b], Load(0));
    assert Step(LIM, s1, b) == BeginStep(LIM, s1, b);
    s := LoadStep(BeginStep(LIM, s1, b), 0);
  }

  lemma ReplayAfterRevocation()
    ensures var s := Play(LIM, BEFORE); Enabled(LIM, s, RevokeAll(0)) && Revokes(RevokeAll(0), s, 0)
    ensures var s0 := Step(LIM, Play(LIM, BEFORE), RevokeAll(0));
            var s := PlayFrom(LIM, s0, AFTER);
            |s.events| > |s0.events| && OutcomeIn(s.events[|s0.events|], 0)
  {
    var s := TwoTabs();
    assert Enabled(LIM, s, RevokeAll(0));
    var s0 := RevokeStep(s, 0);
    PurgeThenJudge(s0);
  }

  lemma PurgeThenJudge(s0: Sys)
    requires s0.now == LATE && s0.flights.Keys == {0} && s0.rows == FamilyRevoked(ROTATED, 0, LATE)
    requires s0.flights[0].claims == FIRST && s0.flights[0].phase == Loaded(ROTATED[0])
    ensures var s := PlayFrom(LIM, s0, AFTER);
            |s.events| > |s0.events| && OutcomeIn(s.events[|s0.events|], 0)
  {
    var s1 := s0.(rows := s0.rows - {0});
    assert 0 in s0.rows && Expired(s0.rows[0], LATE);
    assert Step(LIM, s0, Purge({0})) == s1;
    PlayOne(LIM, s0, Purge({0}));
    PlayMore(LIM, s0, [Purge({0})], AFTER[1]);
    assert [Purge({0})] + [AFTER[1]] == AFTER;
    LateVerdict(s1, AFTER[1]);
  }

  lemma LateVerdict(s: Sys, a: Action)
    requires a == AFTER[1] && 0 in s.flights && s.flights.Keys == {0} && s.now == LATE
    requires s.flights[0].claims == FIRST
    requires s.flights[0].phase == Loaded(ROW0.(consumedAt := Some(At(LATE)), successor := Some(1)))
    requires 0 !in s.rows && s.rows.Keys == {1} && s.rows[1].family == 0 && s.rows[1].mintMs == 100_000
    ensures |Step(LIM, s, a).events| > |s.events| && OutcomeIn(Step(LIM, s, a).events[|s.events|], 0)
  {
    assert JudgedRows(s, s.flights[0]) == s.rows;
    assert IsFamilyStart(s.rows, 0, Some(100_000));
    var o := Loser(s.rows, s.flights[0].phase.record, LIM.grace, s.now);
    assert o.Replay?;
  }
}
