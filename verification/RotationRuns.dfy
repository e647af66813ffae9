/** Putting runs together, and a refresh that nothing interrupts. */
module RotationRuns {
  import opened Options
  import opened RefreshRows
  import opened SessionPolicy
  import opened RotationProtocol

  lemma {:induction false} PlayConcat(lim: Limits, s: Sys, a: seq<Action>, b: seq<Action>)
    ensures PlayFrom(lim, s, a + b) == PlayFrom(lim, PlayFrom(lim, s, a), b)
    decreases |b|
  {
    if b == [] {
      assert a + b == a;
    } else {
      var n := |b| - 1;
      PlayConcat(lim, s, a, b[..n]);
      assert (a + b)[..|a + b| - 1] == a + b[..n];
    }
  }

  lemma PlayOne(lim: Limits, s: Sys, a: Action)
    ensures PlayFrom(lim, s, [a]) == Step(lim, s, a)
  {
    assert [a][..0] == [];
    assert PlayFrom(lim, s, []) == s;
  }

  lemma PlayMore(lim: Limits, s: Sys, acts: seq<Action>, a: Action)
    ensures PlayFrom(lim, s, acts + [a]) == Step(lim, PlayFrom(lim, s, acts), a)
  {
    PlayConcat(lim, s, acts, [a]);
    PlayOne(lim, PlayFrom(lim, s, acts), a);
  }

  const OPEN := Account(true, None, true, map[], None)

  function RefreshActs(c: Claims, next: Jti, started: int): seq<Action> {
    [Begin(0, c, next, {}), Load(0), Judge(0, OPEN, Some(started)), Commit(0)]
  }

  /** What one undisturbed refresh leaves: a session with an upstream still has to ask it. */
  function Refreshed(lim: Limits, s: Sys, c: Claims, next: Jti): Sys
    requires c.jti in s.rows
  {
    var n := Successor(lim, c, next, s.now);
    var rows := Minted(Consumed(s.rows, c.jti, next, s.now), SuccessorRow(s.rows[c.jti], c.family, AsCandidate(n)));
    WithRows(s, rows).(
      flights := if s.rows[c.jti].provider.None? then map[]
                 else map[0 := Flight(c, n, {}, Probing(s.rows[c.jti].checkedAt))],
      used := s.used + {next},
      issued := s.issued + {n},
      events := s.events + [EvRenewed(c.family, s.now, OPEN, {})] + [EvClaimed(c.jti, n)])
  }

  /** An idle system in which token `c` can be refreshed right away. */
  ghost predicate Refreshable(lim: Limits, s: Sys, c: Claims, next: Jti, started: int) {
    && s.flights == map[]
    && c in s.issued && Seconds(s.now) < c.exp + lim.leeway && next !in s.used
    && c.jti in s.rows && s.rows[c.jti].Active()
    && Rule(lim, c, s.rows[c.jti], Some(started), OPEN, {}, s.now).Allowed?
    && IsFamilyStart(Refreshed(lim, s, c, next).rows, c.family, Some(started))
  }

  function InFlight(lim: Limits, s: Sys, c: Claims, next: Jti, p: Phase): Sys {
    s.(flights := map[0 := Flight(c, Successor(lim, c, next, s.now), {}, p)], used := s.used + {next})
  }

  function Ruled(lim: Limits, s: Sys, c: Claims, next: Jti): Sys
    requires c.jti in s.rows
  {
    InFlight(lim, s, c, next, Holding(s.rows[c.jti], s.now)).(
      events := s.events + [EvRenewed(c.family, s.now, OPEN, {})])
  }

  lemma BeginAlone(lim: Limits, s: Sys, c: Claims, next: Jti, started: int)
    requires Refreshable(lim, s, c, next, started)
    ensures Step(lim, s, Begin(0, c, next, {})) == InFlight(lim, s, c, next, Begun)
  {
  }

  lemma LoadAlone(lim: Limits, s: Sys, c: Claims, next: Jti, started: int)
    requires Refreshable(lim, s, c, next, started)
    ensures Step(lim, InFlight(lim, s, c, next, Begun), Load(0)) == InFlight(lim, s, c, next, Loaded(s.rows[c.jti]))
  {
    var s1 := InFlight(lim, s, c, next, Begun);
    assert LoadStep(s1, 0) == InFlight(lim, s, c, next, Loaded(s.rows[c.jti]));
  }

  lemma JudgeAlone(lim: Limits, s: Sys, c: Claims, next: Jti, started: int)
    requires Refreshable(lim, s, c, next, started)
    ensures Step(lim, InFlight(lim, s, c, next, Loaded(s.rows[c.jti])), Judge(0, OPEN, Some(started)))
         == Ruled(lim, s, c, next)
  {
    var s2 := InFlight(lim, s, c, next, Loaded(s.rows[c.jti]));
    var a := Judge(0, OPEN, Some(started));
    assert JudgedRows(s2, s2.flights[0]) == Refreshed(lim, s, c, next).rows;
    assert Enabled(lim, s2, a);
    RuledAlone(lim, s, c, next, started);
  }

  lemma RuledAlone(lim: Limits, s: Sys, c: Claims, next: Jti, started: int)
    requires c.jti in s.rows && s.rows[c.jti].Active()
    requires Rule(lim, c, s.rows[c.jti], Some(started), OPEN, {}, s.now).Allowed?
    ensures JudgeStep(lim, InFlight(lim, s, c, next, Loaded(s.rows[c.jti])), Judge(0, OPEN, Some(started)))
         == Ruled(lim, s, c, next)
  {
  }

  lemma OneFlight(flights: map<nat, Flight>, later: Flight)
    requires flights.Keys == {0}
    ensures flights[0 := later] == map[0 := later] && flights - {0} == map[]
  {
  }

  lemma CommitRuled(lim: Limits, s: Sys, c: Claims, next: Jti)
    requires c.jti in s.rows
    ensures CommitStep(Ruled(lim, s, c, next), 0) == Refreshed(lim, s, c, next)
  {
    var flights := Ruled(lim, s, c, next).flights;
    OneFlight(flights, flights[0].(phase := Probing(s.rows[c.jti].checkedAt)));
  }

  lemma CommitAlone(lim: Limits, s: Sys, c: Claims, next: Jti, started: int)
    requires Refreshable(lim, s, c, next, started)
    ensures Step(lim, Ruled(lim, s, c, next), Commit(0)) == Refreshed(lim, s, c, next)
  {
    CommitRuled(lim, s, c, next);
  }

  /** The four steps of an undisturbed refresh, one by one. */
  ghost predicate GoesThrough(lim: Limits, s: Sys, c: Claims, next: Jti, started: int) {
    && c.jti in s.rows
    && Step(lim, s, Begin(0, c, next, {})) == InFlight(lim, s, c, next, Begun)
    && Step(lim, InFlight(lim, s, c, next, Begun), Load(0)) == InFlight(lim, s, c, next, Loaded(s.rows[c.jti]))
    && Step(lim, InFlight(lim, s, c, next, Loaded(s.rows[c.jti])), Judge(0, OPEN, Some(started)))
       == Ruled(lim, s, c, next)
    && Step(lim, Ruled(lim, s, c, next), Commit(0)) == Refreshed(lim, s, c, next)
  }

  lemma AloneSteps(lim: Limits, s: Sys, c: Claims, next: Jti, started: int)
    requires Refreshable(lim, s, c, next, started)
    ensures GoesThrough(lim, s, c, next, started)
  {
    BeginAlone(lim, s, c, next, started);
    LoadAlone(lim, s, c, next, started);
    JudgeAlone(lim, s, c, next, started);
    CommitAlone(lim, s, c, next, started);
  }

  function PresentedBy(c: Claims): Presented {
    Presented(c.jti, c.family, c.exp, c.sub, c.authTime, c.mintMs)
  }

  /** Begin, read, verdict and commit of a claim with nothing in between; `WholeRefresh` has every verdict. */
  lemma UninterruptedRefresh(lim: Limits, s: Sys, c: Claims, next: Jti, started: int)
    requires Refreshable(lim, s, c, next, started)
    ensures PlayFrom(lim, s, RefreshActs(c, next, started)) == Refreshed(lim, s, c, next)
    ensures Rotate(s.rows, PresentedBy(c), AsCandidate(Successor(lim, c, next, s.now)), lim.grace, false, s.now)
         == (Claimed(s.rows[c.jti]), Refreshed(lim, s, c, next).rows)
  {
    var b, j := Begin(0, c, next, {}), Judge(0, OPEN, Some(started));
    AloneSteps(lim, s, c, next, started);
    PlayOne(lim, s, b);
    PlayMore(lim, s, [b], Load(0));
    PlayMore(lim, s, [b, Load(0)], j);
    PlayMore(lim, s, [b, Load(0), j], Commit(0));
    assert [b] + [Load(0)] == [b, Load(0)];
    assert [b, Load(0)] + [j] == [b, Load(0), j];
    assert [b, Load(0), j] + [Commit(0)] == RefreshActs(c, next, started);
  }
}
