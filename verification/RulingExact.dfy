/** Exactly which verdicts renew a session, in terms of its sign-in, its token and its account. */
module RulingExact {
  import opened Options
  import opened RefreshRows
  import opened SessionPolicy
  import opened RotationProtocol
  import opened RotationInvariant
  import opened SessionCeilings

  // ---- what lets a session go on ----

  /** The account may sign in, and no cutoff has come after the token was minted. */
  predicate AccountAdmits(account: Account, mintMs: int) {
    account.active && (account.validFromMs.Some? && mintMs > 0 ==> account.validFromMs.value <= mintMs)
  }

  /** A session opened through the password door goes on only while that door is open, and until its deadline. */
  predicate DoorAdmits(si: SignIn, account: Account, t: int) {
    si.pwfb.Some? ==> account.doorOpen && t <= si.pwfb.value
  }

  /** The connection the session would be sent back to is down: its own, or else the one used last. */
  predicate ConnectionDown(si: SignIn, account: Account, outage: set<Slug>) {
    if si.provider.Some? && si.provider.value in account.slugs then account.slugs[si.provider.value] in outage
    else account.latest.Some? && account.latest.value in outage
  }

  predicate SignInAdmits(lim: Limits, si: SignIn, account: Account, outage: set<Slug>, t: int) {
    && (si.authTime.Some? ==>
          || t <= si.authTime.value + lim.ssoMax
          || (t <= si.authTime.value + 2 * lim.ssoMax && ConnectionDown(si, account, outage)))
    && (si.idpExp.Some? ==> t <= si.idpExp.value)
  }

  /** Neither idle nor too old; a limit that is not positive is off. */
  predicate AgeAdmits(lim: Limits, mintMs: int, started: Option<int>, t: int) {
    && (lim.idle > 0 ==> t <= mintMs / 1000 + lim.idle)
    && (lim.absolute > 0 && started.Some? ==> t <= started.value / 1000 + lim.absolute)
  }

  predicate MayRenew(lim: Limits, si: SignIn, mintMs: int, started: Option<int>, account: Account, outage: set<Slug>,
                     now: int)
  {
    && AccountAdmits(account, mintMs) && DoorAdmits(si, account, now / 1_000_000)
    && AgeAdmits(lim, mintMs, started, now / 1_000_000)
    && SignInAdmits(lim, si, account, outage, now / 1_000_000)
  }

  /** A row that says of the session what its sign-in and its token say. */
  predicate Tells(c: Claims, r: Record, si: SignIn) {
    && r.authTime == si.authTime && r.provider == si.provider && r.mintMs == c.mintMs
    && c.idpExp == si.idpExp && c.pwfb == si.pwfb
  }

  lemma RuleIsMayRenew(lim: Limits, c: Claims, r: Record, started: Option<int>, account: Account, outage: set<Slug>,
                       now: int, si: SignIn)
    requires Tells(c, r, si)
    ensures Rule(lim, c, r, started, account, outage, now).Allowed?
       <==> MayRenew(lim, si, c.mintMs, started, account, outage, now)
  {
  }

  // ---- the verdict ----

  /** The presented row, as it is now or, once purged, as it was read. */
  function Seen(s: Sys, fl: Flight): Record
    requires fl.phase.Loaded?
  {
    if fl.claims.jti in s.rows then s.rows[fl.claims.jti] else fl.phase.record
  }

  predicate Unused(s: Sys, j: Jti) {
    j in s.rows && s.rows[j].consumedAt.None? && s.rows[j].revokedAt.None?
  }

  /** Consumed a moment ago, by a rotation whose successor is still there. */
  predicate JustUsed(lim: Limits, s: Sys, r: Record) {
    && r.revokedAt.None? && lim.grace > 0 && r.consumedAt.Some? && r.consumedAt.value.At?
    && 0 <= s.now - r.consumedAt.value.us <= lim.grace * 1_000_000
    && r.successor.Some? && r.successor.value in s.rows
  }

  predicate May(lim: Limits, s: Sys, a: Action)
    requires CanJudge(s, a) && s.flights[a.id].claims.family in s.signIns
  {
    var fl := s.flights[a.id];
    MayRenew(lim, s.signIns[fl.claims.family], fl.claims.mintMs, a.started, a.account, fl.outage, s.now)
  }

  function Renewal(s: Sys, a: Action): Event
    requires CanJudge(s, a)
  {
    EvRenewed(s.flights[a.id].claims.family, s.now, a.account, s.flights[a.id].outage)
  }

  /** Of the four parts a verdict can touch, the tokens and the events, and the flight itself. */
  ghost predicate Leaves(s: Sys, s': Sys, id: nat, flight: Option<Flight>, issued: set<Claims>, news: seq<Event>) {
    && SameTables(s, s') && SameAnchors(s, s')
    && s'.issued == s.issued + issued && s'.events == s.events + news
    && s'.flights == if flight.Some? then s.flights[id := flight.value] else s.flights - {id}
  }

  /** An unused token is claimed, or the family is to be revoked. */
  ghost predicate ClaimVerdict(lim: Limits, s: Sys, a: Action, s': Sys)
    requires CanJudge(s, a) && s.flights[a.id].claims.family in s.signIns
  {
    var fl := s.flights[a.id];
    if May(lim, s, a)
    then Leaves(s, s', a.id, Some(fl.(phase := Holding(fl.phase.record, s.now))), {}, [Renewal(s, a)])
    else Leaves(s, s', a.id, Some(fl.(phase := Owing)), {}, [])
  }

  /** The token the winner of `r` was given, for whoever presents `c` again. */
  function WinnersToken(s: Sys, c: Claims, r: Record): Claims
    requires r.successor.Some? && r.successor.value in s.rows
  {
    var w := s.rows[r.successor.value];
    Claims(c.sub, w.jti, c.family, w.expiresAt, r.authTime, c.idpExp, c.pwfb, w.mintMs)
  }

  /** A token used a moment ago gets the winner's tokens again, or the family is to be revoked. */
  ghost predicate ReplayVerdict(lim: Limits, s: Sys, a: Action, s': Sys)
    requires CanJudge(s, a) && s.flights[a.id].claims.family in s.signIns
    requires JustUsed(lim, s, Seen(s, s.flights[a.id]))
  {
    var fl := s.flights[a.id];
    var r := Seen(s, fl);
    var t := WinnersToken(s, fl.claims, r);
    var replayed := EvReplayed(fl.claims.jti, fl.claims.family,
                               Rotation(r.consumedAt.value, t.jti, t.exp, t.mintMs), s.now);
    var asked := if r.provider.Some? then Some(Flight(fl.claims, t, fl.outage, Probing(r.checkedAt))) else None;
    if May(lim, s, a) then Leaves(s, s', a.id, asked, {t}, [replayed, Renewal(s, a)])
    else Leaves(s, s', a.id, Some(fl.(phase := Owing)), {}, [replayed])
  }

  /** A revoked token is refused; any other is taken for stolen, and the family is to be revoked. */
  ghost predicate LostVerdict(s: Sys, a: Action, s': Sys)
    requires CanJudge(s, a)
  {
    var fl := s.flights[a.id];
    if Seen(s, fl).revokedAt.Some? then Leaves(s, s', a.id, None, {}, [])
    else Leaves(s, s', a.id, Some(fl.(phase := Owing)), {}, [])
  }

  // ---- the proof ----

  /** What is known of a flight that has read its row. */
  lemma ReadTells(lim: Limits, s: Sys, a: Action)
    requires Inv(lim, s) && FieldsOk(s) && CanJudge(s, a)
    ensures var fl := s.flights[a.id];
            && fl.claims.family in s.signIns && fl.phase.record.jti == fl.claims.jti
            && Tells(fl.claims, Seen(s, fl), s.signIns[fl.claims.family])
            && Tells(fl.claims, fl.phase.record, s.signIns[fl.claims.family])
  {
    var fl := s.flights[a.id];
    assert TokenOk(s, fl.claims) by {
      assert FlightOk(lim, s, fl);
    }
  }

  lemma ClaimRuled(lim: Limits, s: Sys, a: Action)
    requires Inv(lim, s) && FieldsOk(s) && CanJudge(s, a) && Unused(s, s.flights[a.id].claims.jti)
    ensures s.flights[a.id].claims.family in s.signIns && ClaimVerdict(lim, s, a, JudgeStep(lim, s, a))
  {
    var fl := s.flights[a.id];
    ReadTells(lim, s, a);
    RuleIsMayRenew(lim, fl.claims, fl.phase.record, a.started, a.account, fl.outage, s.now,
                   s.signIns[fl.claims.family]);
  }

  lemma LostRuled(lim: Limits, s: Sys, a: Action)
    requires Inv(lim, s) && FieldsOk(s) && CanJudge(s, a) && !Unused(s, s.flights[a.id].claims.jti)
    requires !JustUsed(lim, s, Seen(s, s.flights[a.id]))
    ensures LostVerdict(s, a, JudgeStep(lim, s, a))
  {
    ReadTells(lim, s, a);
  }

  lemma LoserReplays(lim: Limits, s: Sys, fl: Flight)
    requires fl.phase.Loaded? && fl.phase.record.jti == fl.claims.jti && JustUsed(lim, s, Seen(s, fl)) && Keyed(s.rows)
    ensures var r := Seen(s, fl);
            var t := WinnersToken(s, fl.claims, r);
            var o := Replay(Rotation(r.consumedAt.value, t.jti, t.exp, t.mintMs), r);
            Loser(s.rows, fl.phase.record, lim.grace, s.now) == o
  {
  }

  lemma ReplayStepIs(lim: Limits, s: Sys, a: Action, o: Outcome)
    requires CanJudge(s, a) && s.flights[a.id].claims.family in s.signIns
    requires JustUsed(lim, s, Seen(s, s.flights[a.id]))
    requires var fl := s.flights[a.id];
             var t := WinnersToken(s, fl.claims, Seen(s, fl));
             o == Replay(Rotation(Seen(s, fl).consumedAt.value, t.jti, t.exp, t.mintMs), Seen(s, fl))
    requires Rule(lim, s.flights[a.id].claims, o.record, a.started, a.account, s.flights[a.id].outage, s.now).Allowed?
        <==> May(lim, s, a)
    ensures ReplayVerdict(lim, s, a, ReplayStep(lim, s, a.id, s.flights[a.id], o, a))
  {
  }

  lemma ReplayRuled(lim: Limits, s: Sys, a: Action)
    requires Inv(lim, s) && FieldsOk(s) && CanJudge(s, a) && !Unused(s, s.flights[a.id].claims.jti)
    requires JustUsed(lim, s, Seen(s, s.flights[a.id]))
    ensures s.flights[a.id].claims.family in s.signIns && ReplayVerdict(lim, s, a, JudgeStep(lim, s, a))
  {
    var fl := s.flights[a.id];
    ReadTells(lim, s, a);
    RuleIsMayRenew(lim, fl.claims, Seen(s, fl), a.started, a.account, fl.outage, s.now, s.signIns[fl.claims.family]);
    LoserReplays(lim, s, fl);
    ReplayStepIs(lim, s, a, Loser(s.rows, fl.phase.record, lim.grace, s.now));
  }

  /**
   The verdict of any refresh in any reachable state: an unused token is claimed and one used within
   the grace window gets the winner's tokens, if and only if account, door, ages and sign-in admit
   it; everything else is refused, and unless it is revoked already the family is to be.
   */
  lemma RenewedExactlyWhen(lim: Limits, acts: seq<Action>, a: Action)
    requires a.Judge? && Enabled(lim, Play(lim, acts), a)
    ensures var s := Play(lim, acts);
            var fl := s.flights[a.id];
            var s' := Step(lim, s, a);
            && fl.claims.family in s.signIns
            && (if Unused(s, fl.claims.jti) then ClaimVerdict(lim, s, a, s')
                else if JustUsed(lim, s, Seen(s, fl)) then ReplayVerdict(lim, s, a, s')
                else LostVerdict(s, a, s'))
  {
    var s := Play(lim, acts);
    Reachable(lim, acts);
    FieldsReachable(lim, acts);
    ReadTells(lim, s, a);
    if Unused(s, s.flights[a.id].claims.jti) {
      ClaimRuled(lim, s, a);
    } else if JustUsed(lim, s, Seen(s, s.flights[a.id])) {
      ReplayRuled(lim, s, a);
    } else {
      LostRuled(lim, s, a);
    }
  }

  // ---- over whole runs ----

  /** Step `n` of the run is the verdict that made renewal `e`, and nothing stood against it. */
  ghost predicate AllowedAt(lim: Limits, acts: seq<Action>, n: nat, e: Event) {
    && n < |acts| && acts[n].Judge?
    && var s := Play(lim, acts[..n]);
       && Enabled(lim, s, acts[n]) && e == Renewal(s, acts[n])
       && s.flights[acts[n].id].claims in s.issued
       && s.flights[acts[n].id].claims.family in s.signIns && May(lim, s, acts[n])
  }

  lemma NewRenewalAllowed(lim: Limits, acts: seq<Action>, i: nat)
    requires acts != [] && i < |Play(lim, acts).events| && Play(lim, acts).events[i].EvRenewed?
    requires i >= |Play(lim, acts[..|acts| - 1]).events|
    ensures AllowedAt(lim, acts, |acts| - 1, Play(lim, acts).events[i])
  {
    var n := |acts| - 1;
    var s, a := Play(lim, acts[..n]), acts[n];
    Reachable(lim, acts[..n]);
    FieldsReachable(lim, acts[..n]);
    NewRenewals(lim, s, a);
    var r := RenewalIsRuled(lim, s, a, i);
    ReadTells(lim, s, a);
    var fl := s.flights[a.id];
    assert FlightOk(lim, s, fl);
    RuleIsMayRenew(lim, fl.claims, r, a.started, a.account, fl.outage, s.now, s.signIns[fl.claims.family]);
  }

  /**
   Every renewal of every run was allowed where it was made: the account active, its cutoff not past
   the token, the door of a fallback session open, the idle bound met, and every ceiling.
   */
  lemma {:induction false} EveryRenewalWasAllowed(lim: Limits, acts: seq<Action>, i: nat)
    requires i < |Play(lim, acts).events| && Play(lim, acts).events[i].EvRenewed?
    ensures exists n :: AllowedAt(lim, acts, n, Play(lim, acts).events[i])
    decreases |acts|
  {
    if acts != [] {
      var k := |acts| - 1;
      if i < |Play(lim, acts[..k]).events| {
        NewRenewals(lim, Play(lim, acts[..k]), acts[k]);
        EveryRenewalWasAllowed(lim, acts[..k], i);
        var n: nat :| AllowedAt(lim, acts[..k], n, Play(lim, acts[..k]).events[i]);
        assert acts[..k][..n] == acts[..n];
        assert AllowedAt(lim, acts, n, Play(lim, acts).events[i]);
      } else {
        NewRenewalAllowed(lim, acts, i);
      }
    }
  }
}
