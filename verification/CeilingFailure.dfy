/** Where the absolute ceiling does not hold: a session whose first row is purged early moves
    its start. */
module CeilingFailure {
  import opened Options
  import opened RefreshRows
  import opened SessionPolicy
  import opened RotationProtocol
  import opened RotationRuns
  import opened SessionCeilings

  // ---- the failing run ----

  /** First refreshed at `x`, then once a second: when row `n` was minted. */
  function MintedAt(x: nat, n: nat): nat {
    if n == 0 then 0 else x + n - 1
  }

  function Token(lim: Limits, x: nat, n: nat): Claims {
    Claims(0, n, 0, MintedAt(x, n) + lim.lifetime, None, None, None, MintedAt(x, n) * 1000)
  }

  function Row(lim: Limits, x: nat, n: nat, j: nat): Record {
    Record(j, 0, 0, None, MintedAt(x, j) * 1000, MintedAt(x, j) + lim.lifetime,
           if j < n then Some(At(MintedAt(x, j + 1) * US_PER_SECOND)) else None,
           if j < n then Some(j + 1) else None, None, None, None)
  }

  const ROOT := SignIn(0, 0, 0, None, None, None, None)

  /** The session after `n` refreshes, `low` being its oldest surviving row. */
  ghost predicate After(lim: Limits, x: nat, n: nat, low: nat, s: Sys) {
    && s.flights == map[] && Token(lim, x, n) in s.issued && s.signIns == map[0 := ROOT]
    && (forall j :: j in s.used ==> j <= n)
    && low <= n
    && (forall j: nat :: j in s.rows <==> low <= j <= n)
    && (forall j: nat :: j in s.rows ==> s.rows[j] == Row(lim, x, n, j))
  }

  /** When the session can be refreshed at second `t`. */
  lemma CanRefresh(lim: Limits, x: nat, n: nat, low: nat, s: Sys, t: nat)
    requires x > 0 && After(lim, x, n, low, s) && low <= 1 && Seconds(s.now) == t
    requires MintedAt(x, n) <= t < MintedAt(x, n) + lim.lifetime
    requires lim.idle > 0 ==> t - MintedAt(x, n) <= lim.idle
    requires lim.absolute > 0 ==> t - MintedAt(x, low) <= lim.absolute
    ensures Refreshable(lim, s, Token(lim, x, n), n + 1, MintedAt(x, low) * 1000)
  {
    var c := Token(lim, x, n);
    var rows := Refreshed(lim, s, c, n + 1).rows;
    assert c.jti in s.rows && low in s.rows;
    assert n + 1 !in s.rows;
    assert low in rows && rows[low].family == 0 && rows[low].mintMs == MintedAt(x, low) * 1000;
  }

  lemma NextToken(lim: Limits, x: nat, n: nat, s: Sys)
    requires x > 0 && s.now == MintedAt(x, n + 1) * US_PER_SECOND
    ensures Successor(lim, Token(lim, x, n), n + 1, s.now) == Token(lim, x, n + 1)
  {
  }

  /** The rows a refresh leaves: the presented one used up, its successor, and the rest as they were. */
  lemma NextRows(lim: Limits, x: nat, n: nat, low: nat, s: Sys)
    requires x > 0 && After(lim, x, n, low, s) && s.now == MintedAt(x, n + 1) * US_PER_SECOND && n in s.rows
    ensures var rows := Refreshed(lim, s, Token(lim, x, n), n + 1).rows;
            forall j: nat :: (j in rows <==> low <= j <= n + 1) && (j in rows ==> rows[j] == Row(lim, x, n + 1, j))
  {
    NextToken(lim, x, n, s);
    assert n + 1 !in s.rows;
  }

  lemma NextRefresh(lim: Limits, x: nat, n: nat, low: nat, s: Sys)
    requires x > 0 && After(lim, x, n, low, s) && s.now == MintedAt(x, n + 1) * US_PER_SECOND
    ensures n in s.rows && After(lim, x, n + 1, low, Refreshed(lim, s, Token(lim, x, n), n + 1))
  {
    assert n in s.rows;
    NextToken(lim, x, n, s);
    NextRows(lim, x, n, low, s);
  }

  lemma Tock(lim: Limits, x: nat, n: nat, low: nat, s: Sys, t: nat)
    requires After(lim, x, n, low, s) && s.now <= t
    ensures Step(lim, s, Tick(t)) == s.(now := t) && After(lim, x, n, low, s.(now := t))
  {
  }

  /** A run, then one undisturbed refresh. */
  lemma PlayRefresh(lim: Limits, before: seq<Action>, c: Claims, next: Jti, started: int)
    requires Refreshable(lim, Play(lim, before), c, next, started)
    ensures Play(lim, before + RefreshActs(c, next, started)) == Refreshed(lim, Play(lim, before), c, next)
  {
    UninterruptedRefresh(lim, Play(lim, before), c, next, started);
    PlayConcat(lim, INITIAL, before, RefreshActs(c, next, started));
  }

  lemma PlayTick(lim: Limits, x: nat, n: nat, low: nat, before: seq<Action>, t: nat)
    requires After(lim, x, n, low, Play(lim, before)) && Play(lim, before).now <= t
    ensures Play(lim, before + [Tick(t)]).now == t && After(lim, x, n, low, Play(lim, before + [Tick(t)]))
  {
    Tock(lim, x, n, low, Play(lim, before), t);
    PlayMore(lim, INITIAL, before, Tick(t));
  }

  lemma FirstSignIn(lim: Limits, x: nat) returns (acts: seq<Action>)
    ensures After(lim, x, 0, 0, Play(lim, acts)) && Play(lim, acts).now == 0
  {
    acts := [DoSignIn(0, 0, 0, None, None, None, None)];
    PlayOne(lim, INITIAL, acts[0]);
  }

  lemma WholeSeconds(t: nat)
    ensures Seconds(t * US_PER_SECOND) == t
  {
  }

  /** At the moment of its next refresh the session can be refreshed, and the time stands still. */
  lemma RefreshNow(lim: Limits, x: nat, n: nat, s: Sys)
    requires 0 < x < lim.lifetime && lim.lifetime > 1 && lim.absolute > 0 && MintedAt(x, n + 1) <= lim.absolute
    requires lim.idle > 0 ==> x <= lim.idle
    requires After(lim, x, n, 0, s) && s.now == MintedAt(x, n + 1) * US_PER_SECOND
    ensures Refreshable(lim, s, Token(lim, x, n), n + 1, MintedAt(x, 0) * 1000)
    ensures Refreshed(lim, s, Token(lim, x, n), n + 1).now == s.now
  {
    WholeSeconds(MintedAt(x, n + 1));
    CanRefresh(lim, x, n, 0, s, MintedAt(x, n + 1));
  }

  lemma RefreshReaches(lim: Limits, x: nat, n: nat, before: seq<Action>, s: Sys) returns (acts: seq<Action>)
    requires Play(lim, before) == s && x > 0 && After(lim, x, n, 0, s) && s.now == MintedAt(x, n + 1) * US_PER_SECOND
    requires Refreshable(lim, s, Token(lim, x, n), n + 1, MintedAt(x, 0) * 1000)
    requires Refreshed(lim, s, Token(lim, x, n), n + 1).now == s.now
    ensures After(lim, x, n + 1, 0, Play(lim, acts)) && Play(lim, acts).now == s.now
  {
    PlayRefresh(lim, before, Token(lim, x, n), n + 1, MintedAt(x, 0) * 1000);
    NextRefresh(lim, x, n, 0, s);
    acts := before + RefreshActs(Token(lim, x, n), n + 1, MintedAt(x, 0) * 1000);
  }

  /** One more refresh, a second later (the first one at `x`). */
  lemma OneMore(lim: Limits, x: nat, n: nat, before: seq<Action>) returns (acts: seq<Action>)
    requires 0 < x < lim.lifetime && lim.lifetime > 1 && lim.absolute > 0 && MintedAt(x, n + 1) <= lim.absolute
    requires lim.idle > 0 ==> x <= lim.idle
    requires After(lim, x, n, 0, Play(lim, before)) && Play(lim, before).now == MintedAt(x, n) * US_PER_SECOND
    ensures After(lim, x, n + 1, 0, Play(lim, acts)) && Play(lim, acts).now == MintedAt(x, n + 1) * US_PER_SECOND
  {
    var us := MintedAt(x, n + 1) * US_PER_SECOND;
    PlayTick(lim, x, n, 0, before, us);
    var s := Play(lim, before + [Tick(us)]);
    RefreshNow(lim, x, n, s);
    acts := RefreshReaches(lim, x, n, before + [Tick(us)], s);
  }

  /** The run up to its `n`-th refresh. */
  lemma {:induction false} SecondBySecond(lim: Limits, x: nat, n: nat) returns (acts: seq<Action>)
    requires 0 < x < lim.lifetime && lim.lifetime > 1 && lim.absolute > 0 && MintedAt(x, n) <= lim.absolute
    requires lim.idle > 0 ==> x <= lim.idle
    ensures After(lim, x, n, 0, Play(lim, acts)) && Play(lim, acts).now == MintedAt(x, n) * US_PER_SECOND
    decreases n
  {
    if n == 0 {
      acts := FirstSignIn(lim, x);
    } else {
      var before := SecondBySecond(lim, x, n - 1);
      acts := OneMore(lim, x, n - 1, before);
    }
  }

  lemma PurgeRoot(lim: Limits, x: nat, n: nat, s: Sys)
    requires n > 0 && After(lim, x, n, 0, s) && lim.lifetime * US_PER_SECOND < s.now
    ensures After(lim, x, n, 1, Step(lim, s, Purge({0})))
    ensures Step(lim, s, Purge({0})).now == s.now
  {
    assert 0 in s.rows && Expired(s.rows[0], s.now);
  }

  lemma UntilPurged(lim: Limits, x: nat, n: nat, us: nat) returns (acts: seq<Action>)
    requires 0 < x < lim.lifetime && lim.lifetime > 1 && lim.absolute > 0 && n > 0 && MintedAt(x, n) <= lim.absolute
    requires lim.idle > 0 ==> x <= lim.idle
    requires MintedAt(x, n) * US_PER_SECOND <= us && lim.lifetime * US_PER_SECOND < us
    ensures After(lim, x, n, 1, Play(lim, acts)) && Play(lim, acts).now == us
  {
    var before := SecondBySecond(lim, x, n);
    PlayTick(lim, x, n, 0, before, us);
    PurgeRoot(lim, x, n, Play(lim, before + [Tick(us)]));
    PlayMore(lim, INITIAL, before + [Tick(us)], Purge({0}));
    acts := before + [Tick(us)] + [Purge({0})];
  }

  /** When to refresh first, how often, and when to come back. */
  lemma Schedule(lim: Limits) returns (x: nat, n: nat, t: nat)
    requires BootAccepts(lim) && lim.absolute > 0 && lim.lifetime > 1 && !CeilingFits(lim)
    ensures 0 < x < lim.lifetime && n > 0 && MintedAt(x, n) <= lim.absolute < t && lim.lifetime <= t
    ensures lim.idle > 0 ==> x <= lim.idle && t - MintedAt(x, n) <= lim.idle
    ensures MintedAt(x, n) <= t < MintedAt(x, n) + lim.lifetime && t - x <= lim.absolute
  {
    var gap := LongestGap(lim);
    x := if gap < lim.lifetime then gap else lim.lifetime - 1;
    n := lim.absolute - x + 1;
    t := Max(lim.lifetime, lim.absolute + 1);
  }

  /**
   In every configuration the boot check accepts but the ceiling does not fit, a session
   outlives its ceiling: refreshed every second until the ceiling, it waits for its first
   row to be purged, and is then measured from its second.
   */
  lemma CeilingMoves(lim: Limits) returns (acts: seq<Action>, i: nat)
    requires BootAccepts(lim) && lim.absolute > 0 && lim.lifetime > 1 && !CeilingFits(lim)
    ensures i < |Play(lim, acts).events| && Play(lim, acts).events[i].EvRenewed?
    ensures var s := Play(lim, acts);
            var e := s.events[i];
            e.family in s.signIns && Seconds(e.at) > s.signIns[e.family].startMs / 1000 + lim.absolute
  {
    var x, n, t := Schedule(lim);
    var us := t * US_PER_SECOND + 1;
    var before := UntilPurged(lim, x, n, us);
    var s := Play(lim, before);
    CanRefresh(lim, x, n, 1, s, t);
    PlayRefresh(lim, before, Token(lim, x, n), n + 1, MintedAt(x, 1) * 1000);
    acts, i := before + RefreshActs(Token(lim, x, n), n + 1, MintedAt(x, 1) * 1000), |s.events|;
    LateRenewal(lim, s, Token(lim, x, n), n + 1);
  }

  lemma LateRenewal(lim: Limits, s: Sys, c: Claims, next: Jti)
    requires c.jti in s.rows
    ensures var s' := Refreshed(lim, s, c, next);
            && s'.signIns == s.signIns && |s'.events| == |s.events| + 2
            && s'.events[|s.events|] == EvRenewed(c.family, s.now, OPEN, {})
  {
  }

  /** The ceiling holds in every run exactly when it fits, among the configurations the boot
      check accepts. */
  lemma CeilingHoldsExactlyWhenItFits(lim: Limits)
    requires BootAccepts(lim) && lim.absolute > 0 && lim.lifetime > 1
    ensures CeilingFits(lim) <==>
              forall acts, i :: 0 <= i < |Play(lim, acts).events| && Play(lim, acts).events[i].EvRenewed? ==>
                Within(lim, Play(lim, acts), Play(lim, acts).events[i].family, Seconds(Play(lim, acts).events[i].at))
  {
    if CeilingFits(lim) {
      forall acts, i | 0 <= i < |Play(lim, acts).events| && Play(lim, acts).events[i].EvRenewed?
        ensures Within(lim, Play(lim, acts), Play(lim, acts).events[i].family, Seconds(Play(lim, acts).events[i].at))
      {
        CeilingSurvivesPurging(lim, acts, i);
      }
    } else {
      var acts, i := CeilingMoves(lim);
      assert !Within(lim, Play(lim, acts), Play(lim, acts).events[i].family, Seconds(Play(lim, acts).events[i].at));
    }
  }
}
