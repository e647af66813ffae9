/** What every step of the rotation protocol keeps. */
module RotationInvariant {
  import opened Options
  import opened RefreshRows
  import opened SessionPolicy
  import opened RotationProtocol

  /** The table is part of the history, and the history is of known families. */
  ghost predicate TableOk(s: Sys) {
    && Keyed(s.log)
    && (forall j :: j in s.rows ==> j in s.log && s.log[j] == s.rows[j])
    && s.log.Keys <= s.used
    && (forall j :: j in s.log ==> s.log[j].family in s.signIns)
  }

  ghost predicate SessionFieldsOf(r: Record, si: SignIn) {
    r.user == si.user && r.authTime == si.authTime && r.provider == si.provider
  }

  /** A row only ever gains a consumption, a revocation or a fresher check. */
  ghost predicate Advances(r: Record, r': Record) {
    && r.SameToken(r')
    && (r.consumedAt.Some? ==> r'.consumedAt == r.consumedAt && r'.successor == r.successor)
  }

  ghost predicate LogAdvances(log: Rows, log': Rows) {
    forall j :: j in log ==> j in log' && Advances(log[j], log'[j])
  }

  ghost predicate TokenOk(s: Sys, c: Claims) {
    && c.jti in s.log
    && c.family in s.signIns
    && var r := s.log[c.jti];
    && c.sub == r.user && c.family == r.family && c.exp == r.expiresAt && c.mintMs == r.mintMs
    && c.authTime == r.authTime
    && c.idpExp == s.signIns[c.family].idpExp && c.pwfb == s.signIns[c.family].pwfb
  }

  ghost predicate TokensOk(s: Sys) {
    forall c :: c in s.issued ==> TokenOk(s, c)
  }

  /** The successor minted at the start of a refresh, while it has no row of its own. */
  ghost predicate CandidateOk(lim: Limits, s: Sys, fl: Flight) {
    && fl.next.jti in s.used && fl.next.jti !in s.log
    && fl.next.family == fl.claims.family && fl.next.sub == fl.claims.sub
    && fl.next.idpExp == fl.claims.idpExp && fl.next.pwfb == fl.claims.pwfb && fl.next.authTime == fl.claims.authTime
    && fl.next.exp == fl.next.mintMs / 1000 + lim.lifetime
    && fl.claims.mintMs <= fl.next.mintMs && fl.next.mintMs * 1000 <= s.now
  }

  predicate Unrecorded(p: Phase) {
    p.Begun? || p.Loaded? || p.Holding?
  }

  ghost predicate ReadOk(s: Sys, fl: Flight, r: Record) {
    fl.claims.jti in s.log && Advances(r, s.log[fl.claims.jti])
  }

  ghost predicate FlightOk(lim: Limits, s: Sys, fl: Flight) {
    && fl.claims in s.issued
    && (Unrecorded(fl.phase) ==> CandidateOk(lim, s, fl))
    && match fl.phase
       case Loaded(r) => ReadOk(s, fl, r)
       case Holding(r, _) => ReadOk(s, fl, r) && Consumable(s.rows, fl.claims.jti)
       case Probing(_) => fl.next.jti in s.log && s.log[fl.next.jti].family == fl.claims.family
       case Stamping(_) => fl.next.jti in s.log && s.log[fl.next.jti].family == fl.claims.family
       case _ => true
  }

  /** Two refreshes never drew the same successor, nor hold the same row. */
  ghost predicate Apart(fl: Flight, fl': Flight) {
    && (Unrecorded(fl.phase) && Unrecorded(fl'.phase) ==> fl.next.jti != fl'.next.jti)
    && !(fl.phase.Holding? && fl'.phase.Holding? && fl.claims.jti == fl'.claims.jti)
  }

  ghost predicate FlightsOk(lim: Limits, s: Sys) {
    && (forall id :: id in s.flights ==> FlightOk(lim, s, s.flights[id]))
    && (forall id, id' :: id in s.flights && id' in s.flights && id != id' ==>
          Apart(s.flights[id], s.flights[id']))
  }

  ghost predicate RowTimesOk(lim: Limits, s: Sys, r: Record) {
    && r.mintMs * 1000 <= s.now && r.expiresAt == r.mintMs / 1000 + lim.lifetime
    && (r.family in s.signIns ==> s.signIns[r.family].startMs <= r.mintMs)
  }

  ghost predicate TimesOk(lim: Limits, s: Sys) {
    forall j :: j in s.log ==> RowTimesOk(lim, s, s.log[j])
  }

  /** A consumed row names a row of its own session. */
  ghost predicate LinkOk(log: Rows, r: Record) {
    && r.consumedAt.Some? == r.successor.Some?
    && (r.successor.Some? ==>
          && r.successor.value in log
          && var n := log[r.successor.value];
             n.family == r.family && n.user == r.user && n.authTime == r.authTime && n.provider == r.provider)
  }

  ghost predicate LinksOk(s: Sys) {
    forall j {:trigger LinkOk(s.log, s.log[j])} :: j in s.log ==> LinkOk(s.log, s.log[j])
  }

  ghost predicate Inv(lim: Limits, s: Sys) {
    TableOk(s) && LinksOk(s) && TokensOk(s) && FlightsOk(lim, s) && TimesOk(lim, s)
  }

  // ---- framing ----

  ghost predicate Grows(s: Sys, s': Sys) {
    && s.issued <= s'.issued && s.used <= s'.used && s.now <= s'.now
    && LogAdvances(s.log, s'.log)
    && (forall f :: f in s.signIns ==> f in s'.signIns && s'.signIns[f] == s.signIns[f])
  }

  lemma FlightFramed(lim: Limits, s: Sys, s': Sys, fl: Flight)
    requires FlightOk(lim, s, fl) && Grows(s, s')
    requires Unrecorded(fl.phase) ==> fl.next.jti !in s'.log
    requires fl.phase.Holding? ==> Consumable(s'.rows, fl.claims.jti)
    ensures FlightOk(lim, s', fl)
  {
  }

  /** Flights that stay, or end, while the rest of the system grows around them. */
  lemma FlightsFramed(lim: Limits, s: Sys, s': Sys)
    requires FlightsOk(lim, s) && Grows(s, s')
    requires forall k :: k in s'.flights ==> k in s.flights && s'.flights[k] == s.flights[k]
    requires forall k :: k in s'.flights && Unrecorded(s'.flights[k].phase) ==> s'.flights[k].next.jti !in s'.log
    requires forall k :: k in s'.flights && s'.flights[k].phase.Holding? ==>
                           Consumable(s'.rows, s'.flights[k].claims.jti)
    ensures FlightsOk(lim, s')
  {
    forall k | k in s'.flights
      ensures FlightOk(lim, s', s'.flights[k])
    {
      FlightFramed(lim, s, s', s.flights[k]);
    }
  }

  lemma TokensFramed(s: Sys, s': Sys)
    requires TokensOk(s) && Grows(s, s')
    requires forall c :: c in s'.issued && c !in s.issued ==> TokenOk(s', c)
    ensures TokensOk(s')
  {
    forall c | c in s'.issued ensures TokenOk(s', c) {
      if c in s.issued {
        assert TokenOk(s, c);
      }
    }
  }

  /** Replacing the table by one whose rows advance the old ones keeps the table in order. */
  lemma RowsReplaced(s: Sys, rows: Rows)
    requires TableOk(s)
    requires forall j :: j in rows ==> rows[j].jti == j && j in s.used && rows[j].family in s.signIns
    requires forall j :: j in rows && j in s.log ==> j in s.rows && Advances(s.rows[j], rows[j])
    ensures TableOk(WithRows(s, rows)) && LogAdvances(s.log, WithRows(s, rows).log)
  {
    var s' := WithRows(s, rows);
    assert forall j :: j in s'.log <==> j in s.log || j in rows;
  }

  // ---- one lemma for each kind of step ----

  lemma TickKeeps(lim: Limits, s: Sys, to: int)
    requires Inv(lim, s) && s.now <= to
    ensures Inv(lim, s.(now := to))
  {
    var s' := s.(now := to);
    FlightsFramed(lim, s, s');
    TokensFramed(s, s');
  }

  lemma EndedKeeps(lim: Limits, s: Sys, id: nat)
    requires Inv(lim, s)
    ensures Inv(lim, Ended(s, id))
  {
    var s' := Ended(s, id);
    FlightsFramed(lim, s, s');
    TokensFramed(s, s');
  }

  lemma LoggedKeeps(lim: Limits, s: Sys, e: Event)
    requires Inv(lim, s)
    ensures Inv(lim, Logged(s, e))
  {
    var s' := Logged(s, e);
    FlightsFramed(lim, s, s');
    TokensFramed(s, s');
  }

  /** A flight may move to any phase its own facts support, if it stays apart from the rest. */
  lemma FlightMoves(lim: Limits, s: Sys, id: nat, fl: Flight)
    requires Inv(lim, s) && FlightOk(lim, s, fl)
    requires forall k :: k in s.flights && k != id ==> Apart(fl, s.flights[k]) && Apart(s.flights[k], fl)
    ensures Inv(lim, WithFlight(s, id, fl))
  {
    var s' := WithFlight(s, id, fl);
    forall k | k in s'.flights ensures FlightOk(lim, s', s'.flights[k]) {
      FlightFramed(lim, s, s', s'.flights[k]);
    }
    TokensFramed(s, s');
  }

  lemma SignInLog(lim: Limits, s: Sys, a: Action)
    requires Inv(lim, s) && a.DoSignIn? && Enabled(lim, s, a)
    ensures var s' := SignInStep(lim, s, a);
            && a.jti !in s.log && a.jti in s'.rows && s'.rows == s.rows[a.jti := s'.rows[a.jti]]
            && s'.log == s.log[a.jti := s'.rows[a.jti]]
  {
    var s' := SignInStep(lim, s, a);
    assert a.jti !in s.log && a.jti !in s.rows;
    assert s'.log == s.log[a.jti := s'.rows[a.jti]];
  }

  lemma SignInLinks(lim: Limits, s: Sys, a: Action)
    requires Inv(lim, s) && a.DoSignIn? && Enabled(lim, s, a)
    ensures LinksOk(SignInStep(lim, s, a)) && TimesOk(lim, SignInStep(lim, s, a))
  {
    var s' := SignInStep(lim, s, a);
    SignInLog(lim, s, a);
    forall j | j in s'.log ensures LinkOk(s'.log, s'.log[j]) && RowTimesOk(lim, s', s'.log[j]) {
      assert j in s.log ==> LinkOk(s.log, s.log[j]) && RowTimesOk(lim, s, s.log[j]);
    }
  }

  lemma SignInTable(lim: Limits, s: Sys, a: Action)
    requires Inv(lim, s) && a.DoSignIn? && Enabled(lim, s, a)
    ensures TableOk(SignInStep(lim, s, a)) && Grows(s, SignInStep(lim, s, a))
  {
    SignInLog(lim, s, a);
  }

  lemma SignInKeeps(lim: Limits, s: Sys, a: Action)
    requires Inv(lim, s) && a.DoSignIn? && Enabled(lim, s, a)
    ensures Inv(lim, SignInStep(lim, s, a))
  {
    var s' := SignInStep(lim, s, a);
    SignInLog(lim, s, a);
    SignInLinks(lim, s, a);
    SignInTable(lim, s, a);
    TokensFramed(s, s');
    forall k | k in s'.flights
      ensures Unrecorded(s'.flights[k].phase) ==> s'.flights[k].next.jti !in s'.log
      ensures s'.flights[k].phase.Holding? ==> Consumable(s'.rows, s'.flights[k].claims.jti)
    {
      assert FlightOk(lim, s, s.flights[k]);
    }
    FlightsFramed(lim, s, s');
  }

  lemma DrawnKeeps(lim: Limits, s: Sys, j: Jti)
    requires Inv(lim, s)
    ensures Inv(lim, s.(used := s.used + {j}))
  {
    var s' := s.(used := s.used + {j});
    FlightsFramed(lim, s, s');
    TokensFramed(s, s');
  }

  /** A refresh as it begins: a successor nobody has drawn, for a token that was issued. */
  lemma BegunOk(lim: Limits, s: Sys, a: Action)
    requires Inv(lim, s) && a.Begin? && Enabled(lim, s, a)
    ensures var s' := s.(used := s.used + {a.nextJti});
            var fl := BeginStep(lim, s, a).flights[a.id];
            && FlightOk(lim, s', fl)
            && forall k :: k in s.flights && k != a.id ==> Apart(fl, s.flights[k]) && Apart(s.flights[k], fl)
  {
    assert TokenOk(s, a.claims);
    assert RowTimesOk(lim, s, s.log[a.claims.jti]);
    forall k | k in s.flights ensures Unrecorded(s.flights[k].phase) ==> s.flights[k].next.jti != a.nextJti {
      assert FlightOk(lim, s, s.flights[k]);
    }
  }

  lemma BeginKeeps(lim: Limits, s: Sys, a: Action)
    requires Inv(lim, s) && a.Begin? && Enabled(lim, s, a)
    ensures Inv(lim, BeginStep(lim, s, a))
  {
    DrawnKeeps(lim, s, a.nextJti);
    BegunOk(lim, s, a);
    FlightMoves(lim, s.(used := s.used + {a.nextJti}), a.id, BeginStep(lim, s, a).flights[a.id]);
  }

  /** A claim committed by a flight that holds its row. */
  lemma ClaimTable(lim: Limits, s: Sys, id: nat)
    requires Inv(lim, s) && id in s.flights && s.flights[id].phase.Holding?
    ensures var fl := s.flights[id];
            var rows := AfterClaim(s.rows, fl, fl.phase.held, fl.phase.stamp);
            var row := s.rows[fl.claims.jti];
            var next := SuccessorRow(fl.phase.held, fl.claims.family, AsCandidate(fl.next));
            && rows == s.rows[fl.claims.jti := row.(consumedAt := Some(At(fl.phase.stamp)),
                                                    successor := Some(fl.next.jti))][fl.next.jti := next]
            && next.jti !in s.log && TokenOk(s, fl.claims)
            && s.log[fl.claims.jti] == row && row.SameToken(fl.phase.held)
  {
    var fl := s.flights[id];
    assert FlightOk(lim, s, fl);
    assert TokenOk(s, fl.claims);
  }

  lemma ClaimLinks(log: Rows, j: Jti, stamp: RefreshRows.Stamp, next: Record)
    requires forall k {:trigger LinkOk(log, log[k])} :: k in log ==> LinkOk(log, log[k])
    requires j in log && next.jti !in log && next.consumedAt.None? && next.successor.None?
    requires next.family == log[j].family && next.user == log[j].user
    requires next.authTime == log[j].authTime && next.provider == log[j].provider
    ensures var log' := log[j := log[j].(consumedAt := Some(stamp), successor := Some(next.jti))][next.jti := next];
            forall k {:trigger LinkOk(log', log'[k])} :: k in log' ==> LinkOk(log', log'[k])
  {
    var log' := log[j := log[j].(consumedAt := Some(stamp), successor := Some(next.jti))][next.jti := next];
    forall k | k in log' ensures LinkOk(log', log'[k]) {
      assert k in log ==> LinkOk(log, log[k]);
    }
  }

  /** Writing two rows to the table writes them to the history. */
  lemma TwoWrites(log: Rows, rows: Rows, j: Jti, row: Record, k: Jti, next: Record)
    requires forall x :: x in rows ==> x in log && log[x] == rows[x]
    ensures log + rows[j := row][k := next] == log[j := row][k := next]
  {
  }

  lemma ClaimLog(lim: Limits, s: Sys, id: nat, s': Sys)
    requires Inv(lim, s) && id in s.flights && s.flights[id].phase.Holding?
    requires s' == Ended(WithRows(s, AfterClaim(s.rows, s.flights[id], s.flights[id].phase.held,
                                                s.flights[id].phase.stamp)), id)
    ensures var fl := s.flights[id];
            var next := SuccessorRow(fl.phase.held, fl.claims.family, AsCandidate(fl.next));
            fl.claims.jti in s.log &&
            var row := s.log[fl.claims.jti].(consumedAt := Some(At(fl.phase.stamp)), successor := Some(fl.next.jti));
            && s'.log == s.log[fl.claims.jti := row][next.jti := next]
            && s'.rows == s.rows[fl.claims.jti := row][next.jti := next]
  {
    var fl := s.flights[id];
    ClaimTable(lim, s, id);
    var row := s.log[fl.claims.jti].(consumedAt := Some(At(fl.phase.stamp)), successor := Some(fl.next.jti));
    TwoWrites(s.log, s.rows, fl.claims.jti, row, fl.next.jti,
              SuccessorRow(fl.phase.held, fl.claims.family, AsCandidate(fl.next)));
  }

  lemma ClaimLinksOk(lim: Limits, s: Sys, id: nat, s': Sys)
    requires Inv(lim, s) && id in s.flights && s.flights[id].phase.Holding?
    requires s' == Ended(WithRows(s, AfterClaim(s.rows, s.flights[id], s.flights[id].phase.held,
                                                s.flights[id].phase.stamp)), id)
    ensures LinksOk(s')
  {
    var fl := s.flights[id];
    ClaimLog(lim, s, id, s');
    ClaimTable(lim, s, id);
    ClaimLinks(s.log, fl.claims.jti, At(fl.phase.stamp),
               SuccessorRow(fl.phase.held, fl.claims.family, AsCandidate(fl.next)));
  }

  lemma TableAfterClaim(s: Sys, s': Sys, j: Jti, row: Record, next: Record)
    requires TableOk(s) && s'.used == s.used && s'.signIns == s.signIns
    requires j in s.rows && Advances(s.rows[j], row)
    requires next.jti in s.used && next.jti !in s.log && next.family in s.signIns
    requires s'.log == s.log[j := row][next.jti := next] && s'.rows == s.rows[j := row][next.jti := next]
    ensures TableOk(s') && LogAdvances(s.log, s'.log)
  {
  }

  lemma ClaimGrows(lim: Limits, s: Sys, id: nat, s': Sys)
    requires Inv(lim, s) && id in s.flights && s.flights[id].phase.Holding?
    requires s' == Ended(WithRows(s, AfterClaim(s.rows, s.flights[id], s.flights[id].phase.held,
                                                s.flights[id].phase.stamp)), id)
    ensures TableOk(s') && Grows(s, s')
  {
    var fl := s.flights[id];
    ClaimTable(lim, s, id);
    ClaimLog(lim, s, id, s');
    assert CandidateOk(lim, s, fl) by {
      assert FlightOk(lim, s, fl);
    }
    TableAfterClaim(s, s', fl.claims.jti, s'.rows[fl.claims.jti], s'.rows[fl.next.jti]);
  }

  lemma ClaimSparesOthers(lim: Limits, s: Sys, id: nat, s': Sys)
    requires Inv(lim, s) && id in s.flights && s.flights[id].phase.Holding?
    requires s' == Ended(WithRows(s, AfterClaim(s.rows, s.flights[id], s.flights[id].phase.held,
                                                s.flights[id].phase.stamp)), id)
    ensures forall k :: k in s'.flights && Unrecorded(s'.flights[k].phase) ==> s'.flights[k].next.jti !in s'.log
    ensures forall k :: k in s'.flights && s'.flights[k].phase.Holding? ==>
                          Consumable(s'.rows, s'.flights[k].claims.jti)
  {
    var fl := s.flights[id];
    ClaimTable(lim, s, id);
    ClaimLog(lim, s, id, s');
    forall k | k in s'.flights
      ensures Unrecorded(s'.flights[k].phase) ==> s'.flights[k].next.jti !in s'.log
      ensures s'.flights[k].phase.Holding? ==> Consumable(s'.rows, s'.flights[k].claims.jti)
    {
      assert Apart(s.flights[k], fl) && FlightOk(lim, s, s.flights[k]);
    }
  }

  lemma ClaimKeeps(lim: Limits, s: Sys, id: nat, s': Sys)
    requires Inv(lim, s) && id in s.flights && s.flights[id].phase.Holding?
    requires s' == Ended(WithRows(s, AfterClaim(s.rows, s.flights[id], s.flights[id].phase.held,
                                                s.flights[id].phase.stamp)), id)
    ensures Inv(lim, s')
  {
    ClaimLog(lim, s, id, s');
    ClaimLinksOk(lim, s, id, s');
    ClaimGrows(lim, s, id, s');
    TokensFramed(s, s');
    ClaimSparesOthers(lim, s, id, s');
    FlightsFramed(lim, s, s');
    ClaimTimes(lim, s, id, s');
  }

  lemma ClaimTimes(lim: Limits, s: Sys, id: nat, s': Sys)
    requires Inv(lim, s) && id in s.flights && s.flights[id].phase.Holding?
    requires s' == Ended(WithRows(s, AfterClaim(s.rows, s.flights[id], s.flights[id].phase.held,
                                                s.flights[id].phase.stamp)), id)
    ensures TimesOk(lim, s')
  {
    var fl := s.flights[id];
    ClaimTable(lim, s, id);
    forall j | j in s'.log ensures RowTimesOk(lim, s', s'.log[j]) {
      if j == fl.next.jti {
        assert FlightOk(lim, s, fl) && RowTimesOk(lim, s, s.log[fl.claims.jti]);
      } else {
        assert RowTimesOk(lim, s, s.log[j]);
      }
    }
  }

  /** The table with each row's marks changed, its token, consumption and link kept. */
  ghost predicate Remarked(s: Sys, rows: Rows) {
    && rows.Keys == s.rows.Keys
    && forall j :: j in rows ==>
         && rows[j].SameToken(s.rows[j])
         && rows[j].consumedAt == s.rows[j].consumedAt && rows[j].successor == s.rows[j].successor
  }

  lemma MarksKeepRows(lim: Limits, s: Sys, rows: Rows)
    requires Inv(lim, s) && Remarked(s, rows)
    ensures var s' := WithRows(s, rows);
            TableOk(s') && Grows(s, s') && LinksOk(s') && TimesOk(lim, s') && s'.log.Keys == s.log.Keys
  {
    var s' := WithRows(s, rows);
    RowsReplaced(s, rows);
    assert s'.log.Keys == s.log.Keys;
    forall j | j in s'.log ensures LinkOk(s'.log, s'.log[j]) && RowTimesOk(lim, s', s'.log[j]) {
      assert LinkOk(s.log, s.log[j]) && RowTimesOk(lim, s, s.log[j]);
    }
  }

  /** Revocations and liveness stamps: rows keep their keys and their links. */
  lemma MarksKeep(lim: Limits, s: Sys, rows: Rows)
    requires Inv(lim, s) && Remarked(s, rows)
    requires forall j :: j in rows && Locked(s, j) ==> rows[j].Active()
    ensures Inv(lim, WithRows(s, rows))
  {
    var s' := WithRows(s, rows);
    MarksKeepRows(lim, s, rows);
    TokensFramed(s, s');
    forall k | k in s'.flights ensures FlightOk(lim, s', s'.flights[k]) {
      assert FlightOk(lim, s, s.flights[k]);
      if s.flights[k].phase.Holding? {
        assert HoldsLock(s.flights[k], s.flights[k].claims.jti);
      }
      FlightFramed(lim, s, s', s.flights[k]);
    }
  }

  lemma RevokeKeeps(lim: Limits, s: Sys, f: Family)
    requires Inv(lim, s) && !FamilyLocked(s, f)
    ensures Inv(lim, RevokeStep(s, f))
  {
    var rows := FamilyRevoked(s.rows, f, s.now);
    forall j | j in rows && Locked(s, j) ensures rows[j].Active() {
      var id :| id in s.flights && HoldsLock(s.flights[id], j);
      assert FlightOk(lim, s, s.flights[id]) && TokenOk(s, s.flights[id].claims);
      assert s.flights[id].claims.family != f;
    }
    MarksKeep(lim, s, rows);
  }

  lemma PurgeKeeps(lim: Limits, s: Sys, doomed: set<Jti>)
    requires Inv(lim, s) && forall j :: j in doomed ==> !Locked(s, j)
    ensures Inv(lim, s.(rows := s.rows - doomed))
  {
    var s' := s.(rows := s.rows - doomed);
    TokensFramed(s, s');
    forall k | k in s'.flights ensures FlightOk(lim, s', s'.flights[k]) {
      assert FlightOk(lim, s, s.flights[k]);
      if s.flights[k].phase.Holding? {
        assert HoldsLock(s.flights[k], s.flights[k].claims.jti);
      }
      FlightFramed(lim, s, s', s.flights[k]);
    }
  }

  /** Handing a token to the client and moving on to liveness, or finishing. */
  lemma RenewedKeeps(lim: Limits, s: Sys, id: nat, fl: Flight, record: Record)
    requires Inv(lim, s) && fl.claims in s.issued
    requires TokenOk(s, fl.next) && fl.next.family == fl.claims.family
    ensures Inv(lim, Renewed(s, id, fl, record))
  {
    var s1 := s.(issued := s.issued + {fl.next});
    FlightsFramed(lim, s, s1);
    assert TokenOk(s1, fl.next);
    TokensFramed(s, s1);
    EndedKeeps(lim, s1, id);
    FlightMoves(lim, s1, id, fl.(phase := Probing(record.checkedAt)));
  }

  lemma RenewedAfterEnd(s: Sys, id: nat, fl: Flight, record: Record)
    ensures Renewed(Ended(s, id), id, fl, record) == Renewed(s, id, fl, record)
  {
    var p := fl.(phase := Probing(record.checkedAt));
    assert (s.flights - {id})[id := p] == s.flights[id := p];
    assert s.flights - {id} - {id} == s.flights - {id};
  }

  lemma CommitKeeps(lim: Limits, s: Sys, id: nat)
    requires Inv(lim, s) && id in s.flights && s.flights[id].phase.Holding?
    ensures Inv(lim, CommitStep(s, id))
  {
    var fl := s.flights[id];
    var s1 := WithRows(s, AfterClaim(s.rows, fl, fl.phase.held, fl.phase.stamp));
    var s2 := Logged(s1, EvClaimed(fl.claims.jti, fl.next));
    ClaimTable(lim, s, id);
    ClaimLog(lim, s, id, Ended(s1, id));
    assert CandidateOk(lim, s, fl) by {
      assert FlightOk(lim, s, fl);
    }
    ClaimKeeps(lim, s, id, Ended(s1, id));
    LoggedKeeps(lim, Ended(s1, id), EvClaimed(fl.claims.jti, fl.next));
    assert TokenOk(Ended(s2, id), fl.next);
    RenewedKeeps(lim, Ended(s2, id), id, fl, fl.phase.held);
    RenewedAfterEnd(s2, id, fl, fl.phase.held);
  }

  /** The successor a replay is handed is the row its token rotated into. */
  lemma ReplayIsLinked(lim: Limits, s: Sys, id: nat, grace: int)
    requires Inv(lim, s) && id in s.flights && s.flights[id].phase.Loaded?
    requires Loser(s.rows, s.flights[id].phase.record, grace, s.now).Replay?
    ensures var fl := s.flights[id];
            var o := Loser(s.rows, fl.phase.record, grace, s.now);
            && fl.phase.record.jti == fl.claims.jti
            && fl.claims.jti in s.log && s.log[fl.claims.jti].successor == Some(o.successor.jti)
            && s.log[fl.claims.jti].consumedAt == Some(o.successor.consumedAt)
            && Advances(o.record, s.log[fl.claims.jti])
            && o.successor.jti in s.rows && s.rows[o.successor.jti].family == fl.claims.family
            && s.rows[o.successor.jti].expiresAt == o.successor.exp
            && s.rows[o.successor.jti].mintMs == o.successor.mintMs
            && s.rows[o.successor.jti].user == fl.claims.sub
            && s.rows[o.successor.jti].authTime == o.record.authTime
  {
    var fl := s.flights[id];
    assert FlightOk(lim, s, fl) && TokenOk(s, fl.claims);
    var o := Loser(s.rows, fl.phase.record, grace, s.now);
    assert LinkOk(s.log, s.log[fl.claims.jti]);
  }

  lemma OwingKeeps(lim: Limits, s: Sys, id: nat)
    requires Inv(lim, s) && id in s.flights
    ensures Inv(lim, WithFlight(s, id, s.flights[id].(phase := Owing)))
  {
    assert FlightOk(lim, s, s.flights[id]);
    FlightMoves(lim, s, id, s.flights[id].(phase := Owing));
  }

  /** A refresh that claims its row holds it from now on. */
  lemma HoldKeeps(lim: Limits, s: Sys, a: Action, e: Event)
    requires Inv(lim, s) && a.Judge? && Enabled(lim, s, a) && Consumable(s.rows, s.flights[a.id].claims.jti)
    ensures var fl := s.flights[a.id];
            Inv(lim, Logged(WithFlight(s, a.id, fl.(phase := Holding(fl.phase.record, s.now))), e))
  {
    var fl := s.flights[a.id];
    var held := fl.(phase := Holding(fl.phase.record, s.now));
    assert FlightOk(lim, s, fl);
    forall k | k in s.flights && k != a.id ensures Apart(held, s.flights[k]) && Apart(s.flights[k], held) {
      assert Apart(fl, s.flights[k]) && Apart(s.flights[k], fl);
      assert !HoldsLock(s.flights[k], fl.claims.jti);
    }
    FlightMoves(lim, s, a.id, held);
    LoggedKeeps(lim, WithFlight(s, a.id, held), e);
  }

  lemma JudgeKeeps(lim: Limits, s: Sys, a: Action)
    requires Inv(lim, s) && a.Judge? && Enabled(lim, s, a)
    ensures Inv(lim, JudgeStep(lim, s, a))
  {
    var fl := s.flights[a.id];
    OwingKeeps(lim, s, a.id);
    if Consumable(s.rows, fl.claims.jti) {
      HoldKeeps(lim, s, a, EvRenewed(fl.claims.family, s.now, a.account, fl.outage));
    } else {
      EndedKeeps(lim, s, a.id);
      var o := Loser(s.rows, fl.phase.record, lim.grace, s.now);
      if o.Replay? {
        ReplayKeeps(lim, s, a, o);
      }
    }
  }

  /** The token a replay hands out is the winner's. */
  lemma WinnersTokenOk(lim: Limits, s: Sys, id: nat, o: Outcome, next: Claims)
    requires Inv(lim, s) && id in s.flights && s.flights[id].phase.Loaded?
    requires o == Loser(s.rows, s.flights[id].phase.record, lim.grace, s.now) && o.Replay?
    requires next == s.flights[id].claims.(jti := o.successor.jti, exp := o.successor.exp,
                                           mintMs := o.successor.mintMs, authTime := o.record.authTime)
    ensures TokenOk(s, next) && s.flights[id].claims in s.issued
  {
    var fl := s.flights[id];
    assert FlightOk(lim, s, fl) && TokenOk(s, fl.claims);
    ReplayIsLinked(lim, s, id, lim.grace);
  }

  lemma ReplayKeeps(lim: Limits, s: Sys, a: Action, o: Outcome)
    requires Inv(lim, s) && CanJudge(s, a)
    requires o == Loser(s.rows, s.flights[a.id].phase.record, lim.grace, s.now) && o.Replay?
    ensures Inv(lim, ReplayStep(lim, s, a.id, s.flights[a.id], o, a))
  {
    var fl := s.flights[a.id];
    assert FlightOk(lim, s, fl) && TokenOk(s, fl.claims);
    var e := EvReplayed(fl.claims.jti, fl.claims.family, o.successor, s.now);
    LoggedKeeps(lim, s, e);
    var s1 := Logged(s, e);
    assert FlightOk(lim, s1, fl.(phase := Owing));
    FlightMoves(lim, s1, a.id, fl.(phase := Owing));
    var e2 := EvRenewed(fl.claims.family, s.now, a.account, fl.outage);
    LoggedKeeps(lim, s1, e2);
    var next := fl.claims.(jti := o.successor.jti, exp := o.successor.exp, mintMs := o.successor.mintMs,
                           authTime := o.record.authTime);
    WinnersTokenOk(lim, s, a.id, o, next);
    RenewedKeeps(lim, Logged(s1, e2), a.id, fl.(next := next), o.record);
  }

  /** The bookkeeping of liveness is outside the invariant. */
  lemma NotesKeep(lim: Limits, s: Sys, lastReal: map<Family, int>, lag: map<Family, int>, events: seq<Event>)
    requires Inv(lim, s)
    ensures Inv(lim, s.(lastReal := lastReal, lag := lag, events := events))
  {
    var s' := s.(lastReal := lastReal, lag := lag, events := events);
    FlightsFramed(lim, s, s');
    TokensFramed(s, s');
  }

  lemma ConfirmKeeps(lim: Limits, s: Sys, id: nat, t: int)
    requires Inv(lim, s) && id in s.flights && s.flights[id].phase.Probing?
    ensures Inv(lim, Confirmed(s, id, s.flights[id], t))
  {
    var fl := s.flights[id];
    assert FlightOk(lim, s, fl);
    FlightMoves(lim, s, id, fl.(phase := Stamping(t)));
    NotesKeep(lim, WithFlight(s, id, fl.(phase := Stamping(t))), s.lastReal[fl.claims.family := t], s.lag,
              Confirmed(s, id, fl, t).events);
  }

  lemma ReturnKeeps(lim: Limits, s: Sys, id: nat, e: Event)
    requires Inv(lim, s)
    ensures Inv(lim, Logged(Ended(s, id), e))
  {
    EndedKeeps(lim, s, id);
    LoggedKeeps(lim, Ended(s, id), e);
  }

  lemma ProbeKeeps(lim: Limits, s: Sys, a: Action)
    requires Inv(lim, s) && a.Probe? && Enabled(lim, s, a)
    ensures Inv(lim, ProbeStep(s, a))
  {
    var f := s.flights[a.id].claims.family;
    OwingKeeps(lim, s, a.id);
    ConfirmKeeps(lim, s, a.id, Seconds(s.now));
    if a.resolved.None? {
      ReturnKeeps(lim, s, a.id, EvReturned(f, s.now, NotChecked, s.lastReal[f]));
    } else {
      ReturnKeeps(lim, s, a.id, EvReturned(f, s.now, WithinAllowance(a.resolved.value), s.lastReal[f]));
    }
  }

  lemma StampKeeps(lim: Limits, s: Sys, id: nat)
    requires Inv(lim, s) && Enabled(lim, s, Stamp(id))
    ensures Inv(lim, StampStep(s, id))
  {
    var rows := Touched(s.rows, s.flights[id].next.jti, Seconds(s.now));
    forall j | j in rows && Locked(s, j) ensures rows[j].Active() {
      var k :| k in s.flights && HoldsLock(s.flights[k], j);
      assert FlightOk(lim, s, s.flights[k]);
    }
    MarksKeep(lim, s, rows);
    var s1 := WithRows(s, rows);
    EndedKeeps(lim, s1, id);
    NotesKeep(lim, Ended(s1, id), s.lastReal, StampStep(s, id).lag, s.events);
  }

  lemma LoadKeeps(lim: Limits, s: Sys, id: nat)
    requires Inv(lim, s) && Enabled(lim, s, Load(id))
    ensures Inv(lim, LoadStep(s, id))
  {
    var fl := s.flights[id];
    assert FlightOk(lim, s, fl) && TokenOk(s, fl.claims);
    if fl.claims.jti !in s.rows || s.rows[fl.claims.jti].revokedAt.Some? {
      EndedKeeps(lim, s, id);
    } else {
      FlightMoves(lim, s, id, fl.(phase := Loaded(s.rows[fl.claims.jti])));
    }
  }

  lemma SettleKeeps(lim: Limits, s: Sys, id: nat)
    requires Inv(lim, s) && Enabled(lim, s, SettleRejection(id))
    ensures Inv(lim, Ended(RevokeStep(s, s.flights[id].claims.family), id))
  {
    RevokeKeeps(lim, s, s.flights[id].claims.family);
    EndedKeeps(lim, RevokeStep(s, s.flights[id].claims.family), id);
  }

  /** The steps of a refresh before its tokens are out. */
  predicate IsEarly(a: Action) {
    a.Begin? || a.Load? || a.Judge? || a.Commit?
  }

  lemma EarlyStepKeeps(lim: Limits, s: Sys, a: Action)
    requires Inv(lim, s) && Enabled(lim, s, a) && IsEarly(a)
    ensures Inv(lim, Apply(lim, s, a))
  {
    match a
    case Begin(_, _, _, _) => BeginKeeps(lim, s, a);
    case Load(id) => LoadKeeps(lim, s, id);
    case Judge(_, _, _) => JudgeKeeps(lim, s, a);
    case Commit(id) => CommitKeeps(lim, s, id);
  }

  lemma LateStepKeeps(lim: Limits, s: Sys, a: Action)
    requires Inv(lim, s) && Enabled(lim, s, a) && !IsEarly(a)
    ensures Inv(lim, Apply(lim, s, a))
  {
    match a
    case Tick(to) => TickKeeps(lim, s, to);
    case DoSignIn(_, _, _, _, _, _, _) => SignInKeeps(lim, s, a);
    case Abort(id) => EndedKeeps(lim, s, id);
    case SettleRejection(id) => SettleKeeps(lim, s, id);
    case Probe(_, _, _) => ProbeKeeps(lim, s, a);
    case Stamp(id) => StampKeeps(lim, s, id);
    case RevokeAll(f) => RevokeKeeps(lim, s, f);
    case Purge(doomed) => PurgeKeeps(lim, s, doomed);
  }

  lemma StepKeeps(lim: Limits, s: Sys, a: Action)
    requires Inv(lim, s)
    ensures Inv(lim, Step(lim, s, a))
  {
    if Enabled(lim, s, a) {
      if IsEarly(a) {
        EarlyStepKeeps(lim, s, a);
      } else {
        LateStepKeeps(lim, s, a);
      }
    }
  }

  lemma {:induction false} PlayFromKeeps(lim: Limits, s: Sys, acts: seq<Action>)
    requires Inv(lim, s)
    ensures Inv(lim, PlayFrom(lim, s, acts))
    decreases |acts|
  {
    if acts != [] {
      var n := |acts| - 1;
      PlayFromKeeps(lim, s, acts[..n]);
      StepKeeps(lim, PlayFrom(lim, s, acts[..n]), acts[n]);
    }
  }

  lemma Reachable(lim: Limits, acts: seq<Action>)
    ensures Inv(lim, Play(lim, acts))
  {
    PlayFromKeeps(lim, INITIAL, acts);
  }
}
