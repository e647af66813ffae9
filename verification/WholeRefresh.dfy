/** A refresh that nothing interrupts: whatever the verdict, the protocol's steps come to one `Rotate`. */
module WholeRefresh {
  import opened Options
  import opened RefreshRows
  import opened SessionPolicy
  import opened RotationProtocol
  import opened RotationRuns

  /** A refresh request, and what its verdict is given. */
  datatype Request = Request(id: nat, claims: Claims, next: Jti, outage: set<Slug>, account: Account,
                             started: Option<int>)
  {
    function Acts(): seq<Action> {
      [Begin(id, claims, next, outage), Load(id), Judge(id, account, started), Commit(id)]
    }
  }

  function Rotated(lim: Limits, s: Sys, q: Request): (Outcome, Rows) {
    Rotate(s.rows, PresentedBy(q.claims), AsCandidate(Successor(lim, q.claims, q.next, s.now)), lim.grace, false, s.now)
  }

  /** Nobody holds the presented row, and the start of the session is read from the table the rotation leaves. */
  ghost predicate Free(lim: Limits, s: Sys, q: Request) {
    && Keyed(s.rows) && !Locked(s, q.claims.jti)
    && Enabled(lim, s, Begin(q.id, q.claims, q.next, q.outage))
    && IsFamilyStart(Rotated(lim, s, q).1, q.claims.family, q.started)
  }

  /** Flight `id` has nothing left to commit. */
  predicate NothingHeld(s: Sys, id: nat) {
    id in s.flights ==> !s.flights[id].phase.Holding?
  }

  /** Tokens go out, and a session with a provider goes on to ask it. */
  function HandedOut(s: Sys, q: Request, n: Claims, record: Record, news: seq<Event>): (s': Sys)
    ensures q.id !in s.flights ==> NothingHeld(s', q.id)
  {
    s.(issued := s.issued + {n},
       events := s.events + news,
       flights := if record.provider.None? then s.flights
                  else s.flights[q.id := Flight(q.claims, n, q.outage, Probing(record.checkedAt))])
  }

  /** No tokens, and the family is to be revoked. */
  function LeftOwing(lim: Limits, s: Sys, q: Request, news: seq<Event>): (s': Sys)
    ensures NothingHeld(s', q.id)
  {
    s.(events := s.events + news,
       flights := s.flights[q.id := Mine(lim, s, q, Owing)])
  }

  /** The winner's successor again, unless a ceiling has been passed. */
  function Replayed(lim: Limits, s: Sys, q: Request, winner: Rotation, record: Record): (s': Sys)
    ensures q.id !in s.flights ==> NothingHeld(s', q.id)
  {
    var c := q.claims;
    var replayed := EvReplayed(c.jti, c.family, winner, s.now);
    if Rule(lim, c, record, q.started, q.account, q.outage, s.now).Denied? then LeftOwing(lim, s, q, [replayed])
    else
      var again := c.(jti := winner.jti, exp := winner.exp, mintMs := winner.mintMs, authTime := record.authTime);
      HandedOut(s, q, again, record, [replayed, EvRenewed(c.family, s.now, q.account, q.outage)])
  }

  /** What the whole refresh leaves, by the verdict of `Rotate` and the ceilings. */
  function Aftermath(lim: Limits, s: Sys, q: Request): (s': Sys)
    ensures q.id !in s.flights ==> NothingHeld(s', q.id)
  {
    var c := q.claims;
    var n := Successor(lim, c, q.next, s.now);
    var s1 := s.(used := s.used + {q.next});
    var renewed := EvRenewed(c.family, s.now, q.account, q.outage);
    var (o, rows) := Rotated(lim, s, q);
    match o
    case Unknown => s1
    case FamilyDead(_) => s1
    case Reuse(_) => LeftOwing(lim, s1, q, [])
    case Claimed(record) =>
      if Rule(lim, c, record, q.started, q.account, q.outage, s.now).Denied? then LeftOwing(lim, s1, q, [])
      else HandedOut(WithRows(s1, rows), q, n, record, [renewed, EvClaimed(c.jti, n)])
    case Replay(winner, record) => Replayed(lim, s1, q, winner, record)
  }

  // ---- step by step ----

  function Mine(lim: Limits, s: Sys, q: Request, p: Phase): Flight {
    Flight(q.claims, Successor(lim, q.claims, q.next, s.now), q.outage, p)
  }

  function At(lim: Limits, s: Sys, q: Request, p: Phase): Sys {
    WithFlight(s.(used := s.used + {q.next}), q.id, Mine(lim, s, q, p))
  }

  lemma PlayFour(lim: Limits, s: Sys, a: Action, b: Action, c: Action, d: Action)
    ensures PlayFrom(lim, s, [a, b, c, d]) == Step(lim, Step(lim, Step(lim, Step(lim, s, a), b), c), d)
  {
    PlayOne(lim, s, a);
    PlayMore(lim, s, [a], b);
    PlayMore(lim, s, [a, b], c);
    PlayMore(lim, s, [a, b, c], d);
    assert [a] + [b] == [a, b] && [a, b] + [c] == [a, b, c] && [a, b, c] + [d] == [a, b, c, d];
  }

  lemma BackToBefore(s: Sys, id: nat, fl: Flight)
    requires id !in s.flights
    ensures s.flights[id := fl] - {id} == s.flights
  {
  }

  /** The read finds a row to go on with. */
  predicate Readable(s: Sys, c: Claims) {
    c.jti in s.rows && s.rows[c.jti].revokedAt.None?
  }

  lemma RotateCases(lim: Limits, s: Sys, q: Request)
    requires Keyed(s.rows)
    ensures var (o, rows) := Rotated(lim, s, q);
            if !Readable(s, q.claims) then (o.Unknown? || o.FamilyDead?) && rows == s.rows
            else
              var record := s.rows[q.claims.jti];
              && rows == JudgedRows(s, Mine(lim, s, q, Loaded(record)))
              && o == if Consumable(s.rows, q.claims.jti) then Claimed(record)
                      else Loser(s.rows, record, lim.grace, s.now)
  {
    if q.claims.jti in s.rows {
      assert Minted(s.rows, AdoptedRow(PresentedBy(q.claims))) == s.rows;
    }
  }

  lemma Reads(lim: Limits, s: Sys, q: Request)
    requires Free(lim, s, q)
    ensures Step(lim, s, Begin(q.id, q.claims, q.next, q.outage)) == At(lim, s, q, Begun)
    ensures Step(lim, At(lim, s, q, Begun), Load(q.id))
         == if Readable(s, q.claims) then At(lim, s, q, Loaded(s.rows[q.claims.jti])) else s.(used := s.used + {q.next})
  {
    BackToBefore(s, q.id, At(lim, s, q, Begun).flights[q.id]);
  }

  lemma CanRule(lim: Limits, s: Sys, q: Request)
    requires Free(lim, s, q) && Readable(s, q.claims)
    ensures Enabled(lim, At(lim, s, q, Loaded(s.rows[q.claims.jti])), Judge(q.id, q.account, q.started))
  {
    RotateCases(lim, s, q);
    var s2 := At(lim, s, q, Loaded(s.rows[q.claims.jti]));
    assert JudgedRows(s2, s2.flights[q.id]) == Rotated(lim, s, q).1;
  }

  /** Claimed within the ceilings: the only refresh that has something to commit. */
  predicate Wins(lim: Limits, s: Sys, q: Request) {
    && Consumable(s.rows, q.claims.jti)
    && Rule(lim, q.claims, s.rows[q.claims.jti], q.started, q.account, q.outage, s.now).Allowed?
  }

  // ---- the ways it can end ----

  lemma EndsWithTokens(s: Sys, q: Request, before: Flight, now: Flight, record: Record, news: seq<Event>)
    requires q.id !in s.flights && now.claims == q.claims && now.outage == q.outage
    ensures Renewed(WithFlight(s, q.id, before).(events := s.events + news), q.id, now, record)
         == HandedOut(s, q, now.next, record, news)
  {
    BackToBefore(s, q.id, before);
    assert s.flights[q.id := before][q.id := now.(phase := Probing(record.checkedAt))]
        == s.flights[q.id := now.(phase := Probing(record.checkedAt))];
  }

  lemma EndsOwing(lim: Limits, s: Sys, q: Request, before: Flight, news: seq<Event>)
    ensures WithFlight(WithFlight(s, q.id, before).(events := s.events + news), q.id, Mine(lim, s, q, Owing))
         == LeftOwing(lim, s, q, news)
  {
    assert s.flights[q.id := before][q.id := Mine(lim, s, q, Owing)] == s.flights[q.id := Mine(lim, s, q, Owing)];
  }

  /** A replay writes no row. */
  lemma JudgeReplays(lim: Limits, s: Sys, q: Request, o: Outcome, fl: Flight)
    requires q.id !in s.flights && o.Replay? && fl == Mine(lim, s, q, fl.phase)
    ensures ReplayStep(lim, WithFlight(s, q.id, fl), q.id, fl, o, Judge(q.id, q.account, q.started))
         == Replayed(lim, s, q, o.successor, o.record)
  {
    var c := q.claims;
    var e, e' := EvReplayed(c.jti, c.family, o.successor, s.now), EvRenewed(c.family, s.now, q.account, q.outage);
    if Rule(lim, c, o.record, q.started, q.account, q.outage, s.now).Denied? {
      EndsOwing(lim, s, q, fl, [e]);
    } else {
      var again := c.(jti := o.successor.jti, exp := o.successor.exp, mintMs := o.successor.mintMs,
                      authTime := o.record.authTime);
      assert (s.events + [e]) + [e'] == s.events + [e, e'];
      EndsWithTokens(s, q, fl, fl.(next := again), o.record, [e, e']);
    }
  }

  lemma JudgeRefuses(lim: Limits, s: Sys, q: Request, record: Record)
    requires q.id !in s.flights && !Wins(lim, s, q)
    requires q.claims.jti in s.rows && s.rows[q.claims.jti] == record
    requires !Consumable(s.rows, q.claims.jti) ==> Loser(s.rows, record, lim.grace, s.now).Reuse?
    ensures JudgeStep(lim, WithFlight(s, q.id, Mine(lim, s, q, Loaded(record))), Judge(q.id, q.account, q.started))
         == LeftOwing(lim, s, q, [])
  {
    EndsOwing(lim, s, q, Mine(lim, s, q, Loaded(record)), []);
    assert s.events + [] == s.events;
  }

  lemma JudgeLoses(lim: Limits, s: Sys, q: Request)
    requires Free(lim, s, q) && Readable(s, q.claims) && !Wins(lim, s, q)
    ensures JudgeStep(lim, At(lim, s, q, Loaded(s.rows[q.claims.jti])), Judge(q.id, q.account, q.started))
         == Aftermath(lim, s, q)
  {
    RotateCases(lim, s, q);
    var s1 := s.(used := s.used + {q.next});
    var fl := Mine(lim, s, q, Loaded(s.rows[q.claims.jti]));
    var o := Rotated(lim, s, q).0;
    if o.Replay? {
      JudgeReplays(lim, s1, q, o, fl);
    } else {
      JudgeRefuses(lim, s1, q, s.rows[q.claims.jti]);
    }
  }

  /** Claimed and ruled on; the claim is not committed yet. */
  function Held(lim: Limits, s: Sys, q: Request, record: Record): Sys {
    WithFlight(s, q.id, Mine(lim, s, q, Holding(record, s.now))).(
      events := s.events + [EvRenewed(q.claims.family, s.now, q.account, q.outage)])
  }

  lemma JudgeWins(lim: Limits, s: Sys, q: Request, record: Record)
    requires q.id !in s.flights && Wins(lim, s, q) && record == s.rows[q.claims.jti]
    ensures JudgeStep(lim, WithFlight(s, q.id, Mine(lim, s, q, Loaded(record))), Judge(q.id, q.account, q.started))
         == Held(lim, s, q, record)
  {
    assert s.flights[q.id := Mine(lim, s, q, Loaded(record))][q.id := Mine(lim, s, q, Holding(record, s.now))]
        == s.flights[q.id := Mine(lim, s, q, Holding(record, s.now))];
  }

  lemma CommitWins(lim: Limits, s: Sys, q: Request, record: Record, rows: Rows)
    requires q.id !in s.flights
    requires rows == AfterClaim(s.rows, Mine(lim, s, q, Loaded(record)), record, s.now)
    ensures var e, n := EvRenewed(q.claims.family, s.now, q.account, q.outage), Successor(lim, q.claims, q.next, s.now);
            CommitStep(Held(lim, s, q, record), q.id)
            == HandedOut(WithRows(s, rows), q, n, record, [e, EvClaimed(q.claims.jti, n)])
  {
    var e, n := EvRenewed(q.claims.family, s.now, q.account, q.outage), Successor(lim, q.claims, q.next, s.now);
    var fl := Mine(lim, s, q, Holding(record, s.now));
    var e' := EvClaimed(q.claims.jti, n);
    assert (s.events + [e]) + [e'] == s.events + [e, e'];
    EndsWithTokens(WithRows(s, rows), q, fl, fl, record, [e, e']);
  }

  // ---- all of it ----

  lemma UnreadableEnds(lim: Limits, s: Sys, q: Request)
    requires Free(lim, s, q) && !Readable(s, q.claims)
    ensures PlayFrom(lim, s, q.Acts()) == Aftermath(lim, s, q)
  {
    PlayFour(lim, s, Begin(q.id, q.claims, q.next, q.outage), Load(q.id), Judge(q.id, q.account, q.started),
             Commit(q.id));
    Reads(lim, s, q);
    RotateCases(lim, s, q);
  }

  lemma LoserEnds(lim: Limits, s: Sys, q: Request)
    requires Free(lim, s, q) && Readable(s, q.claims) && !Wins(lim, s, q)
    ensures PlayFrom(lim, s, q.Acts()) == Aftermath(lim, s, q)
  {
    PlayFour(lim, s, Begin(q.id, q.claims, q.next, q.outage), Load(q.id), Judge(q.id, q.account, q.started),
             Commit(q.id));
    Reads(lim, s, q);
    CanRule(lim, s, q);
    JudgeLoses(lim, s, q);
    assert NothingHeld(Aftermath(lim, s, q), q.id);
  }

  lemma WinnerHolds(lim: Limits, s: Sys, q: Request)
    requires Free(lim, s, q) && Readable(s, q.claims) && Wins(lim, s, q)
    ensures Step(lim, At(lim, s, q, Loaded(s.rows[q.claims.jti])), Judge(q.id, q.account, q.started))
         == Held(lim, s.(used := s.used + {q.next}), q, s.rows[q.claims.jti])
  {
    CanRule(lim, s, q);
    JudgeWins(lim, s.(used := s.used + {q.next}), q, s.rows[q.claims.jti]);
  }

  lemma WinnerCommits(lim: Limits, s: Sys, q: Request)
    requires Free(lim, s, q) && Readable(s, q.claims) && Wins(lim, s, q)
    ensures Step(lim, Held(lim, s.(used := s.used + {q.next}), q, s.rows[q.claims.jti]), Commit(q.id))
         == Aftermath(lim, s, q)
  {
    RotateCases(lim, s, q);
    CommitWins(lim, s.(used := s.used + {q.next}), q, s.rows[q.claims.jti], Rotated(lim, s, q).1);
  }

  lemma WinnerEnds(lim: Limits, s: Sys, q: Request)
    requires Free(lim, s, q) && Readable(s, q.claims) && Wins(lim, s, q)
    ensures PlayFrom(lim, s, q.Acts()) == Aftermath(lim, s, q)
  {
    PlayFour(lim, s, Begin(q.id, q.claims, q.next, q.outage), Load(q.id), Judge(q.id, q.account, q.started),
             Commit(q.id));
    Reads(lim, s, q);
    WinnerHolds(lim, s, q);
    WinnerCommits(lim, s, q);
  }

  /**
   Begin, read, verdict and commit with nothing in between, against any number of other refreshes in flight:
   for every verdict of `Rotate` and every ruling of the ceilings, the table, the tokens handed out, the
   report and what is still to be done are those of that verdict.
   */
  lemma WholeRefreshIsRotate(lim: Limits, s: Sys, q: Request)
    requires Free(lim, s, q)
    ensures PlayFrom(lim, s, q.Acts()) == Aftermath(lim, s, q)
  {
    if !Readable(s, q.claims) {
      UnreadableEnds(lim, s, q);
    } else if Wins(lim, s, q) {
      WinnerEnds(lim, s, q);
    } else {
      LoserEnds(lim, s, q);
    }
  }
}
