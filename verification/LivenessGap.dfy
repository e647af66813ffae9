/**
 Where an outage does extend a session: a confirmation is stamped with a clock reading taken
 after the upstream's answer, so the allowance is measured from that reading.
 */
module LivenessGap {
  import opened Options
  import opened RefreshRows
  import opened SessionPolicy
  import opened RotationProtocol
  import opened SessionLiveness
  import opened RotationRuns

  /** Tokens of the family returned on the strength of an earlier confirmation. */
  predicate LetThroughIn(e: Event, f: Family) {
    e.EvReturned? && e.family == f && e.basis.WithinAllowance?
  }

  /** The family's sessions never outlast the allowance of their last real confirmation. */
  ghost predicate NeverExtended(s: Sys, f: Family) {
    forall i :: 0 <= i < |s.events| && LetThroughIn(s.events[i], f) ==>
      Seconds(s.events[i].at) <= s.events[i].lastReal + Max(0, s.events[i].basis.grace)
  }

  /** A refresh can be accepted `t` seconds after the token it presents was minted. */
  predicate Waits(lim: Limits, t: nat) {
    t < lim.lifetime + lim.leeway && (lim.idle > 0 ==> t <= lim.idle) && (lim.absolute > 0 ==> t <= lim.absolute)
  }

  function Token(lim: Limits, f: Family, j: Jti): Claims {
    Claims(0, j, f, lim.lifetime, None, None, None, 0)
  }

  function Row(lim: Limits, f: Family, j: Jti, checked: int): Record {
    Record(j, f, 0, None, 0, lim.lifetime, None, None, None, Some(0), Some(checked))
  }

  function Opening(f: Family): Action {
    DoSignIn(0, f, 0, None, Some(0), None, None)
  }

  /** Row 0 rotated into row 1 at the start; row 1 was last checked at second `checked`. */
  ghost predicate Rotated(lim: Limits, f: Family, s: Sys, checked: int) {
    && s.rows.Keys == {0, 1} && s.rows[1] == Row(lim, f, 1, checked) && s.rows[0].family == f && s.rows[0].mintMs == 0
    && s.used == {0, 1} && Token(lim, f, 1) in s.issued && s.lastReal == map[f := 0]
  }

  lemma SignedIn(lim: Limits, f: Family) returns (s: Sys)
    ensures s == Play(lim, [Opening(f)]) && s.now == 0 && s.flights == map[] && s.lag == map[] && s.events == []
    ensures s.rows == map[0 := Row(lim, f, 0, 0)] && s.used == {0} && Token(lim, f, 0) in s.issued
    ensures s.lastReal == map[f := 0]
  {
    s := SignInStep(lim, INITIAL, Opening(f));
    PlayOne(lim, INITIAL, Opening(f));
  }

  /** Signed in and refreshed within one second, the upstream still to be asked. */
  lemma Asking(lim: Limits, f: Family) returns (acts: seq<Action>, s: Sys)
    requires Waits(lim, 0)
    ensures s == Play(lim, acts) && s.now == 0 && Rotated(lim, f, s, 0) && s.lag == map[]
    ensures s.flights == map[0 := Flight(Token(lim, f, 0), Token(lim, f, 1), {}, Probing(Some(0)))]
  {
    var s0 := SignedIn(lim, f);
    var c := Token(lim, f, 0);
    assert Successor(lim, c, 1, 0) == Token(lim, f, 1);
    s := Refreshed(lim, s0, c, 1);
    assert 0 in s.rows && s.rows[0].family == f && s.rows[0].mintMs == 0;
    assert Refreshable(lim, s0, c, 1, 0);
    UninterruptedRefresh(lim, s0, c, 1, 0);
    PlayConcat(lim, INITIAL, [Opening(f)], RefreshActs(c, 1, 0));
    acts := [Opening(f)] + RefreshActs(c, 1, 0);
  }

  lemma ConfirmedNow(lim: Limits, f: Family, s: Sys)
    requires s.now == 0 && Rotated(lim, f, s, 0)
    requires s.flights == map[0 := Flight(Token(lim, f, 0), Token(lim, f, 1), {}, Probing(Some(0)))]
    ensures var s' := Step(lim, s, Probe(0, Some(0), SaidYes));
            && s'.now == 0 && Rotated(lim, f, s', 0) && s'.lag == s.lag
            && s'.flights == map[0 := Flight(Token(lim, f, 0), Token(lim, f, 1), {}, Stamping(0))]
  {
    var s' := Step(lim, s, Probe(0, Some(0), SaidYes));
    assert s' == Confirmed(s, 0, s.flights[0], 0);
  }

  lemma StampedLate(lim: Limits, f: Family, s: Sys, d: nat)
    requires s.now == d * US_PER_SECOND && Rotated(lim, f, s, 0) && s.lag == map[]
    requires s.flights == map[0 := Flight(Token(lim, f, 0), Token(lim, f, 1), {}, Stamping(0))]
    ensures var s' := Step(lim, s, Stamp(0));
            s'.now == s.now && Rotated(lim, f, s', d) && s'.lag == map[f := d] && s'.flights == map[]
  {
    assert Step(lim, s, Stamp(0)) == StampStep(s, 0);
    assert Seconds(s.now) == d;
  }

  /** Confirmed at second 0 and stamped at second `d`. */
  lemma Stamped(lim: Limits, f: Family, d: nat) returns (acts: seq<Action>)
    requires Waits(lim, 0)
    ensures var s := Play(lim, acts);
            s.now == d * US_PER_SECOND && Rotated(lim, f, s, d) && s.lag == map[f := d] && s.flights == map[]
  {
    var asking, s := Asking(lim, f);
    ConfirmedNow(lim, f, s);
    PlayMore(lim, INITIAL, asking, Probe(0, Some(0), SaidYes));
    var s1 := Play(lim, asking + [Probe(0, Some(0), SaidYes)]);
    acts := WaitAndStamp(lim, f, asking + [Probe(0, Some(0), SaidYes)], s1, d);
  }

  lemma WaitAndStamp(lim: Limits, f: Family, before: seq<Action>, s: Sys, d: nat) returns (acts: seq<Action>)
    requires s == Play(lim, before) && s.now == 0 && Rotated(lim, f, s, 0) && s.lag == map[]
    requires s.flights == map[0 := Flight(Token(lim, f, 0), Token(lim, f, 1), {}, Stamping(0))]
    ensures var s' := Play(lim, acts);
            s'.now == d * US_PER_SECOND && Rotated(lim, f, s', d) && s'.lag == map[f := d] && s'.flights == map[]
  {
    var us := d * US_PER_SECOND;
    PlayMore(lim, INITIAL, before, Tick(us));
    StampedLate(lim, f, s.(now := us), d);
    PlayMore(lim, INITIAL, before + [Tick(us)], Stamp(0));
    acts := before + [Tick(us)] + [Stamp(0)];
  }

  /** The next refresh, at second `t`, comes to its own question of the upstream. */
  lemma CanRefreshAgain(lim: Limits, f: Family, s: Sys, checked: int, t: nat)
    requires Rotated(lim, f, s, checked) && s.flights == map[] && s.now == t * US_PER_SECOND && Waits(lim, t)
    ensures Refreshable(lim, s, Token(lim, f, 1), 2, 0)
    ensures var s' := Refreshed(lim, s, Token(lim, f, 1), 2);
            && s'.now == s.now && s'.lag == s.lag && s'.lastReal == s.lastReal
            && s'.flights.Keys == {0} && s'.flights[0].claims == Token(lim, f, 1)
            && s'.flights[0].phase == Probing(Some(checked))
  {
    assert Seconds(s.now) == t;
    var rows := Refreshed(lim, s, Token(lim, f, 1), 2).rows;
    assert 0 in rows && rows[0].family == f && rows[0].mintMs == 0;
  }

  lemma LetThrough(lim: Limits, f: Family, s: Sys, d: nat, grace: nat)
    requires s.now == (grace + d) * US_PER_SECOND && s.lastReal == map[f := 0] && s.flights.Keys == {0}
    requires s.flights[0].claims == Token(lim, f, 1) && s.flights[0].phase == Probing(Some(d))
    ensures var s' := Step(lim, s, Probe(0, Some(grace), NoAnswer));
            && s'.lag == s.lag && |s'.events| == |s.events| + 1
            && s'.events[|s.events|] == EvReturned(f, s.now, WithinAllowance(grace), 0)
  {
    assert Seconds(s.now) == grace + d;
    var a := Probe(0, Some(grace), NoAnswer);
    assert Step(lim, s, a) == ProbeStep(s, a);
  }

  /** From the late stamp on: a refresh at the end of the allowance counted from the stamp. */
  lemma ReturnedLate(lim: Limits, f: Family, before: seq<Action>, s: Sys, d: nat, grace: nat)
    returns (acts: seq<Action>)
    requires d > 0 && Waits(lim, grace + d)
    requires s == Play(lim, before) && s.now == d * US_PER_SECOND && Rotated(lim, f, s, d) && s.flights == map[]
    ensures !NeverExtended(Play(lim, acts), f) && Play(lim, acts).lag == s.lag
  {
    var t := grace + d;
    var us := t * US_PER_SECOND;
    PlayMore(lim, INITIAL, before, Tick(us));
    var s1 := s.(now := us);
    CanRefreshAgain(lim, f, s1, d, t);
    UninterruptedRefresh(lim, s1, Token(lim, f, 1), 2, 0);
    PlayConcat(lim, INITIAL, before + [Tick(us)], RefreshActs(Token(lim, f, 1), 2, 0));
    var s2 := Refreshed(lim, s1, Token(lim, f, 1), 2);
    var acts2 := before + [Tick(us)] + RefreshActs(Token(lim, f, 1), 2, 0);
    acts := AskedInVain(lim, f, acts2, s2, d, grace);
  }

  lemma AskedInVain(lim: Limits, f: Family, before: seq<Action>, s: Sys, d: nat, grace: nat) returns (acts: seq<Action>)
    requires d > 0 && s == Play(lim, before)
    requires s.now == (grace + d) * US_PER_SECOND && s.lastReal == map[f := 0] && s.flights.Keys == {0}
    requires s.flights[0].claims == Token(lim, f, 1) && s.flights[0].phase == Probing(Some(d))
    ensures !NeverExtended(Play(lim, acts), f) && Play(lim, acts).lag == s.lag
  {
    var a := Probe(0, Some(grace), NoAnswer);
    LetThrough(lim, f, s, d, grace);
    PlayMore(lim, INITIAL, before, a);
    acts := before + [a];
    var s' := Play(lim, acts);
    var e := s'.events[|s.events|];
    assert Seconds(e.at) == grace + d;
    assert LetThroughIn(e, f);
  }

  /**
   Confirmed at second 0, stamped at second `d`, refreshed with no answer at second grace + d:
   returned `d` seconds past the allowance of the last real confirmation, for every allowance
   and every positive delay the settings leave room for.
   */
  lemma LateStampExtends(lim: Limits, f: Family, d: nat, grace: nat) returns (acts: seq<Action>)
    requires d > 0 && Waits(lim, grace + d)
    ensures !NeverExtended(Play(lim, acts), f) && LagOf(Play(lim, acts).lag, f) == d
  {
    var before := Stamped(lim, f, d);
    acts := ReturnedLate(lim, f, before, Play(lim, before), d, grace);
  }

  /** Stamps of the family within `d` seconds of their confirmations keep it from being extended. */
  ghost predicate HoldsWithDelay(lim: Limits, f: Family, d: nat) {
    forall acts :: LagOf(Play(lim, acts).lag, f) <= d ==> NeverExtended(Play(lim, acts), f)
  }

  /** A family whose every stamp was taken in the second of its confirmation is never extended. */
  lemma PromptIsNeverExtended(lim: Limits, acts: seq<Action>, f: Family)
    requires LagOf(Play(lim, acts).lag, f) <= 0
    ensures NeverExtended(Play(lim, acts), f)
  {
    var s := Play(lim, acts);
    forall i | 0 <= i < |s.events| && LetThroughIn(s.events[i], f)
      ensures Seconds(s.events[i].at) <= s.events[i].lastReal + Max(0, s.events[i].basis.grace)
    {
      OutageCannotExtend(lim, acts, i);
    }
  }

  /**
   An outage cannot extend a session, in every run, exactly when its stamps are taken in the same
   second as the confirmations they record.
   */
  lemma NeverExtendedExactlyWhenPrompt(lim: Limits, f: Family, d: nat)
    requires Waits(lim, 1)
    ensures HoldsWithDelay(lim, f, d) <==> d == 0
  {
    if d == 0 {
      forall acts | LagOf(Play(lim, acts).lag, f) <= d ensures NeverExtended(Play(lim, acts), f) {
        PromptIsNeverExtended(lim, acts, f);
      }
    } else {
      var acts := LateStampExtends(lim, f, 1, 0);
      assert !NeverExtended(Play(lim, acts), f);
    }
  }
}
