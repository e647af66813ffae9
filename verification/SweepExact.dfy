/** Exactly when a sweep in passes leaves its family dead, and exactly when that is the end of it. */
module SweepExact {
  import opened RefreshRows
  import opened SessionPolicy
  import opened RotationProtocol
  import opened RotationInvariant
  import opened RotationSafety
  import opened RotationOutcomes
  import opened RevocationExact
  import opened RevocationSweep

  // ---- the rows a pass has missed ----

  /** What the sweep has marked, and what was minted behind its back, are kept apart. */
  ghost predicate LateApart(x: World) {
    && x.w.marked <= x.s.log.Keys && x.w.late <= x.s.log.Keys
    && x.w.late !! x.w.seen && x.w.late !! x.w.marked
    && forall j :: j in x.w.late ==> x.s.log[j].family == x.w.family
  }

  /** A live row was seen by the pass or minted during it. */
  ghost predicate LiveIsKnown(x: World) {
    && (x.w.pass > 0 ==> forall j :: IsLive(x.s, x.w, j) ==> j in x.w.seen || j in x.w.late)
    && (x.w.pass > 0 ==> (x.w.pass in x.w.busy <==> x.w.late != {}))
  }

  ghost predicate ExactInv(lim: Limits, x: World) {
    SweepInv(lim, x) && LateApart(x) && LiveIsKnown(x)
  }

  lemma RotationIsFresh(lim: Limits, s: Sys, id: nat)
    requires Inv(lim, s) && id in s.flights && s.flights[id].phase.Holding?
    ensures var j := s.flights[id].next.jti;
            && j !in s.log && j in CommitStep(s, id).log
            && CommitStep(s, id).log[j].family == s.flights[id].claims.family
  {
    CommitLinks(lim, s, id);
  }

  lemma OtherKeepsApart(lim: Limits, x: World, a: Action)
    requires ExactInv(lim, x) && !Blocked(x.s, x.w, a)
    ensures LateApart(Turn(lim, x, Other(a)))
  {
    var x' := Turn(lim, x, Other(a));
    OtherKeepsLog(lim, x.s, a);
    if Rotates(lim, x.s, x.w.family, a) {
      RotationIsFresh(lim, x.s, a.id);
    }
    forall j | j in x.w.late ensures j in x'.s.log && x'.s.log[j].family == x.w.family {
      LogStays(lim, x.s, a, j);
    }
  }

  lemma OtherKeepsKnown(lim: Limits, x: World, a: Action)
    requires ExactInv(lim, x) && !Blocked(x.s, x.w, a)
    ensures LiveIsKnown(Turn(lim, x, Other(a)))
  {
    var x' := Turn(lim, x, Other(a));
    forall j | IsLive(x'.s, x'.w, j) ensures IsLive(x.s, x.w, j) || j in x'.w.late {
      if j in x.s.log {
        LiveBefore(lim, x.s, a, j);
      } else {
        NewRow(lim, x.s, a, j, x.w.family);
      }
    }
  }

  lemma OtherKeepsExact(lim: Limits, x: World, a: Action)
    requires ExactInv(lim, x)
    ensures ExactInv(lim, Turn(lim, x, Other(a)))
  {
    OtherKeeps(lim, x, a);
    if !Blocked(x.s, x.w, a) {
      OtherKeepsApart(lim, x, a);
      OtherKeepsKnown(lim, x, a);
    }
  }

  lemma StartKeepsExact(lim: Limits, x: World)
    requires ExactInv(lim, x)
    ensures ExactInv(lim, Turn(lim, x, StartPass))
  {
    var x' := Turn(lim, x, StartPass);
    StartKeeps(lim, x);
    if CanStart(x.w) {
      assert forall j :: IsLive(x'.s, x'.w, j) <==> IsLive(x.s, x.w, j);
    }
  }

  lemma MarkKeepsExact(lim: Limits, x: World, j: Jti)
    requires ExactInv(lim, x)
    ensures ExactInv(lim, Turn(lim, x, Mark(j)))
  {
    var x' := Turn(lim, x, Mark(j));
    MarkKeeps(lim, x, j);
    assert forall k :: IsLive(x'.s, x'.w, k) ==> IsLive(x.s, x.w, k);
  }

  lemma EndKeepsExact(lim: Limits, x: World)
    requires ExactInv(lim, x)
    ensures ExactInv(lim, Turn(lim, x, EndPass))
  {
    var x' := Turn(lim, x, EndPass);
    EndKeeps(lim, x);
    assert forall k :: IsLive(x'.s, x'.w, k) <==> IsLive(x.s, x.w, k);
  }

  lemma MoveKeepsExact(lim: Limits, x: World, m: Move)
    requires ExactInv(lim, x) && !Turn(lim, x, m).w.done
    ensures ExactInv(lim, Turn(lim, x, m))
  {
    match m
    case Other(a) => OtherKeepsExact(lim, x, a);
    case StartPass => StartKeepsExact(lim, x);
    case Mark(j) => MarkKeepsExact(lim, x, j);
    case EndPass => EndKeepsExact(lim, x);
    case Finish =>
  }

  lemma {:induction false} ExactReachable(lim: Limits, s: Sys, f: Family, passes: nat, moves: seq<Move>)
    requires Inv(lim, s) && f in s.signIns
    requires !Turns(lim, Sweeping(s, f, passes), moves).w.done
    ensures ExactInv(lim, Turns(lim, Sweeping(s, f, passes), moves))
    decreases |moves|
  {
    if moves != [] {
      var n := |moves| - 1;
      ExactReachable(lim, s, f, passes, moves[..n]);
      MoveKeepsExact(lim, Turns(lim, Sweeping(s, f, passes), moves[..n]), moves[n]);
    }
  }

  // ---- the exact condition ----

  /** Every row minted during the last pass has since been purged, or revoked by somebody else. */
  predicate LateRowsGone(x: World) {
    forall j :: j in x.w.late && j in x.s.rows ==> x.s.rows[j].revokedAt.Some?
  }

  /** When the sweep can commit, its live rows are the late ones that are left. */
  lemma LiveIsLate(lim: Limits, x: World, j: Jti)
    requires ExactInv(lim, x) && CanFinish(x.w)
    ensures IsLive(x.s, x.w, j) <==> j in x.w.late && j in x.s.rows && x.s.rows[j].revokedAt.None?
  {
    if IsLive(x.s, x.w, j) {
      assert j in x.w.seen ==> RevocationSweep.Settled(x.s, x.w, j);
    }
  }

  lemma LiveSurvives(lim: Limits, x: World, j: Jti)
    requires CanFinish(x.w) && IsLive(x.s, x.w, j)
    ensures !Dead(Turn(lim, x, Finish).s, x.w.family)
  {
    var s' := Turn(lim, x, Finish).s;
    assert j in s'.rows && s'.rows[j].family == x.w.family && s'.rows[j].revokedAt.None?;
  }

  lemma FinishExactly(lim: Limits, x: World)
    requires ExactInv(lim, x) && CanFinish(x.w)
    ensures Dead(Turn(lim, x, Finish).s, x.w.family) <==> LateRowsGone(x)
  {
    forall j
      ensures IsLive(x.s, x.w, j) <==> j in x.w.late && j in x.s.rows && x.s.rows[j].revokedAt.None?
    {
      LiveIsLate(lim, x, j);
    }
    if LateRowsGone(x) {
      FinishKills(lim, x);
    } else {
      var j :| j in x.w.late && j in x.s.rows && x.s.rows[j].revokedAt.None?;
      LiveSurvives(lim, x, j);
    }
  }

  /**
   Over every run, interleaved with anything: the commit of a sweep leaves its family dead exactly
   when no row minted since its last pass began is still there unrevoked.
   */
  lemma SweepFinalExactlyWhen(lim: Limits, before: seq<Action>, f: Family, passes: nat, moves: seq<Move>)
    requires f in Play(lim, before).signIns
    requires CanFinish(Turns(lim, Sweeping(Play(lim, before), f, passes), moves).w)
    ensures var x := Turns(lim, Sweeping(Play(lim, before), f, passes), moves);
            Dead(Turn(lim, x, Finish).s, f) <==> LateRowsGone(x)
  {
    Reachable(lim, before);
    ExactReachable(lim, Play(lim, before), f, passes, moves);
    SameSweep(lim, Sweeping(Play(lim, before), f, passes), moves);
    FinishExactly(lim, Turns(lim, Sweeping(Play(lim, before), f, passes), moves));
  }

  // ---- when nobody else purges or revokes the family ----

  /** Somebody else purges a row of the family, or revokes it. */
  predicate Meddles(s: Sys, f: Family, a: Action) {
    match a
    case Purge(doomed) => exists j :: j in doomed && j in s.rows && s.rows[j].family == f
    case RevokeAll(g) => g == f
    case SettleRejection(id) => id in s.flights && s.flights[id].claims.family == f
    case _ => false
  }

  ghost predicate Unmeddled(lim: Limits, x: World, moves: seq<Move>)
    decreases |moves|
  {
    moves == [] ||
    var n := |moves| - 1;
    && Unmeddled(lim, x, moves[..n])
    && (moves[n].Other? ==> !Meddles(Turns(lim, x, moves[..n]).s, x.w.family, moves[n].a))
  }

  ghost predicate LateLive(x: World) {
    forall j :: j in x.w.late ==> j in x.s.rows && x.s.rows[j].revokedAt.None?
  }

  /** A live row of the family stays so under a step that does not meddle with it. */
  lemma StaysLive(lim: Limits, s: Sys, a: Action, f: Family, j: Jti)
    requires Inv(lim, s) && !Meddles(s, f, a)
    requires j in s.rows && s.rows[j].family == f && s.rows[j].revokedAt.None?
    ensures j in Step(lim, s, a).rows && Step(lim, s, a).rows[j].revokedAt.None?
  {
    if !Enabled(lim, s, a) || a.Purge? {
    } else if a.Commit? {
      SparedByCommit(lim, s, a.id, j);
    } else if a.DoSignIn? {
      SignInLog(lim, s, a);
    } else if Quiet(a) {
      QuietRows(lim, s, a);
    } else {
      SparedByMarks(lim, s, a, f, j);
    }
  }

  lemma SparedByCommit(lim: Limits, s: Sys, id: nat, j: Jti)
    requires Inv(lim, s) && id in s.flights && s.flights[id].phase.Holding?
    requires j in s.rows && s.rows[j].revokedAt.None?
    ensures j in CommitStep(s, id).rows && CommitStep(s, id).rows[j].revokedAt.None?
  {
    ClaimTable(lim, s, id);
  }

  lemma SparedByMarks(lim: Limits, s: Sys, a: Action, f: Family, j: Jti)
    requires Enabled(lim, s, a) && (a.SettleRejection? || a.Stamp? || a.RevokeAll?) && !Meddles(s, f, a)
    requires j in s.rows && s.rows[j].family == f && s.rows[j].revokedAt.None?
    ensures j in Step(lim, s, a).rows && Step(lim, s, a).rows[j].revokedAt.None?
  {
    match a
    case SettleRejection(id) => assert j in FamilyRevoked(s.rows, s.flights[id].claims.family, s.now);
    case Stamp(id) => assert j in Touched(s.rows, s.flights[id].next.jti, Seconds(s.now));
    case RevokeAll(g) => assert j in FamilyRevoked(s.rows, g, s.now);
  }

  lemma MintedLive(lim: Limits, s: Sys, id: nat)
    requires Inv(lim, s) && id in s.flights && s.flights[id].phase.Holding?
    ensures var j := s.flights[id].next.jti;
            j in CommitStep(s, id).rows && CommitStep(s, id).rows[j].revokedAt.None?
  {
    ClaimTable(lim, s, id);
  }

  lemma MoveKeepsLate(lim: Limits, x: World, m: Move)
    requires ExactInv(lim, x) && LateLive(x) && !Turn(lim, x, m).w.done
    requires m.Other? ==> !Meddles(x.s, x.w.family, m.a)
    ensures LateLive(Turn(lim, x, m))
  {
    if m.Other? && !Blocked(x.s, x.w, m.a) {
      forall j | j in x.w.late ensures j in Step(lim, x.s, m.a).rows && Step(lim, x.s, m.a).rows[j].revokedAt.None? {
        StaysLive(lim, x.s, m.a, x.w.family, j);
      }
      if Rotates(lim, x.s, x.w.family, m.a) {
        MintedLive(lim, x.s, m.a.id);
      }
    }
  }

  lemma {:induction false} LateStaysLive(lim: Limits, s: Sys, f: Family, passes: nat, moves: seq<Move>)
    requires Inv(lim, s) && f in s.signIns && Unmeddled(lim, Sweeping(s, f, passes), moves)
    requires !Turns(lim, Sweeping(s, f, passes), moves).w.done
    ensures LateLive(Turns(lim, Sweeping(s, f, passes), moves))
    decreases |moves|
  {
    if moves != [] {
      var n := |moves| - 1;
      LateStaysLive(lim, s, f, passes, moves[..n]);
      ExactReachable(lim, s, f, passes, moves[..n]);
      SameSweep(lim, Sweeping(s, f, passes), moves[..n]);
      MoveKeepsLate(lim, Turns(lim, Sweeping(s, f, passes), moves[..n]), moves[n]);
    }
  }

  lemma LateMeansBusy(lim: Limits, x: World)
    requires ExactInv(lim, x) && LateLive(x) && CanFinish(x.w)
    ensures LateRowsGone(x) <==> !AlwaysBusy(x.w)
  {
    if x.w.pass in x.w.busy {
      forall p | 1 <= p <= x.w.pass ensures p in x.w.busy {
        BusyAllTheWay(x.w, p, x.w.pass);
      }
      var j :| j in x.w.late;
      assert j in x.s.rows && x.s.rows[j].revokedAt.None?;
    }
  }

  /**
   In every run in which nobody else purges or revokes the family, the sweep leaves it dead exactly
   when some pass saw no rotation of it commit.
   */
  lemma SweepFinalUnlessAlwaysBusy(lim: Limits, before: seq<Action>, f: Family, passes: nat, moves: seq<Move>)
    requires f in Play(lim, before).signIns && Unmeddled(lim, Sweeping(Play(lim, before), f, passes), moves)
    requires CanFinish(Turns(lim, Sweeping(Play(lim, before), f, passes), moves).w)
    ensures var x := Turns(lim, Sweeping(Play(lim, before), f, passes), moves);
            Dead(Turn(lim, x, Finish).s, f) <==> !AlwaysBusy(x.w)
  {
    Reachable(lim, before);
    ExactReachable(lim, Play(lim, before), f, passes, moves);
    LateStaysLive(lim, Play(lim, before), f, passes, moves);
    LateMeansBusy(lim, Turns(lim, Sweeping(Play(lim, before), f, passes), moves));
    SweepFinalExactlyWhen(lim, before, f, passes, moves);
  }

  // ---- and then it is the end of the family ----

  lemma MarkedLinks(rows: Rows, w: Sweep, now: int)
    ensures SameLinks(rows, Marked(rows, w, now))
  {
  }

  lemma FinishMovesHistory(lim: Limits, x: World)
    requires TableOk(x.s) && CanFinish(x.w)
    ensures HistoryMoves(x.s, Turn(lim, x, Finish).s)
  {
    MarkedLinks(x.s.rows, x.w, x.s.now);
    RewrittenLinks(x.s.log, x.s.rows, Marked(x.s.rows, x.w, x.s.now));
  }

  lemma MoveMovesHistory(lim: Limits, x: World, m: Move)
    requires Inv(lim, x.s) && !Turn(lim, x, m).w.done
    ensures Turn(lim, x, m).s == x.s || HistoryMoves(x.s, Turn(lim, x, m).s)
  {
    if m.Other? {
      HistoryStep(lim, x.s, m.a);
    }
  }

  lemma SweptInv(lim: Limits, s: Sys, f: Family, passes: nat, moves: seq<Move>)
    requires Inv(lim, s) && f in s.signIns && !Turns(lim, Sweeping(s, f, passes), moves).w.done
    ensures Inv(lim, Turns(lim, Sweeping(s, f, passes), moves).s)
  {
    SweepReachable(lim, s, f, passes, moves);
  }

  lemma MoveKeepsChains(lim: Limits, x: World, m: Move)
    requires Inv(lim, x.s) && ChainsOk(x.s) && !Turn(lim, x, m).w.done
    ensures ChainsOk(Turn(lim, x, m).s)
  {
    MoveMovesHistory(lim, x, m);
    if Turn(lim, x, m).s != x.s {
      ChainsMove(x.s, Turn(lim, x, m).s);
    }
  }

  lemma DoneStays(lim: Limits, x: World, m: Move)
    requires x.w.done
    ensures Turn(lim, x, m).w.done
  {
  }

  /** One move further, if the sweep is not over. */
  lemma SweptOneMore(lim: Limits, s: Sys, f: Family, passes: nat, moves: seq<Move>)
    requires Inv(lim, s) && f in s.signIns && moves != []
    requires !Turns(lim, Sweeping(s, f, passes), moves).w.done
    ensures var x := Turns(lim, Sweeping(s, f, passes), moves[..|moves| - 1]);
            && !x.w.done && Inv(lim, x.s)
            && Turns(lim, Sweeping(s, f, passes), moves) == Turn(lim, x, moves[|moves| - 1])
  {
    var x := Turns(lim, Sweeping(s, f, passes), moves[..|moves| - 1]);
    if x.w.done {
      DoneStays(lim, x, moves[|moves| - 1]);
    }
    SweptInv(lim, s, f, passes, moves[..|moves| - 1]);
  }

  lemma {:induction false} SweptChains(lim: Limits, s: Sys, f: Family, passes: nat, moves: seq<Move>)
    requires Inv(lim, s) && f in s.signIns && ChainsOk(s)
    requires !Turns(lim, Sweeping(s, f, passes), moves).w.done
    ensures ChainsOk(Turns(lim, Sweeping(s, f, passes), moves).s)
    decreases |moves|
  {
    if moves == [] {
      assert Turns(lim, Sweeping(s, f, passes), moves).s == s;
    } else {
      SweptOneMore(lim, s, f, passes, moves);
      SweptChains(lim, s, f, passes, moves[..|moves| - 1]);
      MoveKeepsChains(lim, Turns(lim, Sweeping(s, f, passes), moves[..|moves| - 1]), moves[|moves| - 1]);
    }
  }

  lemma FinishKeepsChains(lim: Limits, x: World)
    requires TableOk(x.s) && CanFinish(x.w) && ChainsOk(x.s)
    ensures ChainsOk(Turn(lim, x, Finish).s)
  {
    FinishMovesHistory(lim, x);
    ChainsMove(x.s, Turn(lim, x, Finish).s);
  }

  lemma SweptHasChains(lim: Limits, before: seq<Action>, f: Family, passes: nat, moves: seq<Move>)
    requires f in Play(lim, before).signIns
    requires CanFinish(Turns(lim, Sweeping(Play(lim, before), f, passes), moves).w)
    ensures ChainsOk(Turn(lim, Turns(lim, Sweeping(Play(lim, before), f, passes), moves), Finish).s)
  {
    Reachable(lim, before);
    ChainsReachable(lim, before);
    SweptInv(lim, Play(lim, before), f, passes, moves);
    SweptChains(lim, Play(lim, before), f, passes, moves);
    FinishKeepsChains(lim, Turns(lim, Sweeping(Play(lim, before), f, passes), moves));
  }

  lemma SweptKeepsInv(lim: Limits, before: seq<Action>, f: Family, passes: nat, moves: seq<Move>)
    requires f in Play(lim, before).signIns
    requires CanFinish(Turns(lim, Sweeping(Play(lim, before), f, passes), moves).w)
    ensures var s0 := Turn(lim, Turns(lim, Sweeping(Play(lim, before), f, passes), moves), Finish).s;
            Inv(lim, s0) && f in s0.signIns
  {
    Reachable(lim, before);
    SweepReachable(lim, Play(lim, before), f, passes, moves);
    SameSweep(lim, Sweeping(Play(lim, before), f, passes), moves);
    FinishKeeps(lim, Turns(lim, Sweeping(Play(lim, before), f, passes), moves));
  }

  lemma SilentOnceDead(lim: Limits, s0: Sys, f: Family)
    requires Inv(lim, s0) && f in s0.signIns && ChainsOk(s0) && Dead(s0, f)
    ensures (forall after :: SilentAfter(lim, s0, f, after)) <==> !SomeAnswerable(lim, s0, f)
  {
    SilentExactlyWhen(lim, s0, f);
  }

  /**
   A sweep that leaves its family dead silences it for good exactly when, as it commits, no read of
   a consumed row could still outlive that row inside the grace window: what holds of a revocation
   in one step holds of one in passes.
   */
  lemma SweepSilencesExactlyWhen(lim: Limits, before: seq<Action>, f: Family, passes: nat, moves: seq<Move>)
    requires f in Play(lim, before).signIns
    requires CanFinish(Turns(lim, Sweeping(Play(lim, before), f, passes), moves).w)
    requires LateRowsGone(Turns(lim, Sweeping(Play(lim, before), f, passes), moves))
    ensures var s0 := Turn(lim, Turns(lim, Sweeping(Play(lim, before), f, passes), moves), Finish).s;
            (forall after :: SilentAfter(lim, s0, f, after)) <==> !SomeAnswerable(lim, s0, f)
  {
    SweepFinalExactlyWhen(lim, before, f, passes, moves);
    SweptKeepsInv(lim, before, f, passes, moves);
    SweptHasChains(lim, before, f, passes, moves);
    SilentOnceDead(lim, Turn(lim, Turns(lim, Sweeping(Play(lim, before), f, passes), moves), Finish).s, f);
  }
}
