/**
 Revoking a family pass by pass, while rotations go on. A pass takes the live rows it sees when
 it starts, waits for whoever holds them, and marks them; the marks are locks until the sweep
 commits. A rotation that commits meanwhile leaves a row the pass has not seen, which is why
 there is another pass.
 */
module RevocationSweep {
  import opened Options
  import opened RefreshRows
  import opened SessionPolicy
  import opened RotationProtocol
  import opened RotationInvariant
  import opened RotationSafety
  import opened RotationOutcomes

  /**
   A sweep of `family`: the pass it is in, the rows that pass saw, whether it has marked any, and
   all rows marked so far. `busy` and `late` are history: the passes during which a rotation of the
   family committed, and the rows such rotations have minted since the current pass started.
   */
  datatype Sweep = Sweep(
    family: Family, passes: nat, pass: nat, running: bool, hit: bool, seen: set<Jti>, marked: set<Jti>,
    busy: set<nat>, late: set<Jti>, done: bool)

  datatype World = World(s: Sys, w: Sweep)

  datatype Move = Other(a: Action) | StartPass | Mark(j: Jti) | EndPass | Finish

  function Sweeping(s: Sys, f: Family, passes: nat): World {
    World(s, Sweep(f, passes, 0, false, false, {}, {}, {}, {}, false))
  }

  /** A row the next pass would see. */
  predicate IsLive(s: Sys, w: Sweep, j: Jti) {
    j in s.rows && s.rows[j].family == w.family && s.rows[j].revokedAt.None? && j !in w.marked
  }

  function LiveRows(s: Sys, w: Sweep): set<Jti> {
    set j | j in s.rows && IsLive(s, w, j)
  }

  /** The sweep has nothing left to wait for at `j`. */
  predicate Settled(s: Sys, w: Sweep, j: Jti) {
    j in w.marked || j !in s.rows || s.rows[j].revokedAt.Some?
  }

  /** A statement that would write a row the sweep has marked waits until it commits. */
  predicate Blocked(s: Sys, w: Sweep, a: Action) {
    match a
    case Judge(id, _, _) =>
      id in s.flights && s.flights[id].claims.jti in w.marked && Consumable(s.rows, s.flights[id].claims.jti)
    case Stamp(id) => id in s.flights && s.flights[id].next.jti in w.marked
    case SettleRejection(id) => id in s.flights && s.flights[id].claims.family == w.family && w.marked != {}
    case RevokeAll(f) => f == w.family && w.marked != {}
    case Purge(doomed) => doomed * w.marked != {}
    case _ => false
  }

  /** A rotation of the family commits. */
  ghost predicate Rotates(lim: Limits, s: Sys, f: Family, a: Action) {
    a.Commit? && Enabled(lim, s, a) && s.flights[a.id].claims.family == f
  }

  function Marked(rows: Rows, w: Sweep, now: int): Rows {
    map j | j in rows :: if j in w.marked then Revoked(rows[j], w.family, now) else rows[j]
  }

  ghost predicate CanMark(x: World, j: Jti) {
    && x.w.running && j in x.w.seen && j !in x.w.marked
    && j in x.s.rows && x.s.rows[j].revokedAt.None? && !Locked(x.s, j)
  }

  predicate CanStart(w: Sweep) {
    !w.done && !w.running && w.pass < w.passes && (w.pass == 0 || w.hit)
  }

  predicate CanFinish(w: Sweep) {
    !w.done && !w.running && w.pass > 0 && (w.pass == w.passes || !w.hit)
  }

  ghost function Turn(lim: Limits, x: World, m: Move): World {
    var w := x.w;
    match m
    case Other(a) =>
      if !w.done && Blocked(x.s, w, a) then x
      else if !Rotates(lim, x.s, w.family, a) then World(Step(lim, x.s, a), w)
      else World(Step(lim, x.s, a), w.(busy := w.busy + {w.pass}, late := w.late + {x.s.flights[a.id].next.jti}))
    case StartPass =>
      if CanStart(w)
      then x.(w := w.(pass := w.pass + 1, running := true, hit := false, seen := LiveRows(x.s, w), late := {}))
      else x
    case Mark(j) => if CanMark(x, j) then x.(w := w.(marked := w.marked + {j}, hit := true)) else x
    case EndPass =>
      if w.running && forall j :: j in w.seen ==> Settled(x.s, w, j) then x.(w := w.(running := false)) else x
    case Finish =>
      if CanFinish(w) then World(WithRows(x.s, Marked(x.s.rows, w, x.s.now)), w.(done := true)) else x
  }

  ghost function Turns(lim: Limits, x: World, moves: seq<Move>): World
    decreases |moves|
  {
    if moves == [] then x else Turn(lim, Turns(lim, x, moves[..|moves| - 1]), moves[|moves| - 1])
  }

  // ---- what a protocol step does to the rows of a family ----

  /** The row was there, live and of the same family. */
  ghost predicate WasLive(s: Sys, s': Sys, j: Jti) {
    j in s.rows && s.rows[j].revokedAt.None? && j in s'.rows && s.rows[j].family == s'.rows[j].family
  }

  lemma LiveBeforeCommit(lim: Limits, s: Sys, id: nat, j: Jti)
    requires Inv(lim, s) && id in s.flights && s.flights[id].phase.Holding?
    requires j in s.log && j in CommitStep(s, id).rows && CommitStep(s, id).rows[j].revokedAt.None?
    ensures WasLive(s, CommitStep(s, id), j)
  {
    ClaimTable(lim, s, id);
  }

  lemma LiveBeforeMark(lim: Limits, s: Sys, a: Action, j: Jti)
    requires TableOk(s) && Enabled(lim, s, a) && (a.SettleRejection? || a.Stamp? || a.RevokeAll?)
    requires j in Step(lim, s, a).rows && Step(lim, s, a).rows[j].revokedAt.None?
    ensures WasLive(s, Step(lim, s, a), j)
  {
    MarkStep(lim, s, a);
    MarksSpare(s, Step(lim, s, a), j);
  }

  lemma MarksSpare(s: Sys, s': Sys, j: Jti)
    requires OnlyMarks(s, s') && j in s'.rows && s'.rows[j].revokedAt.None?
    ensures WasLive(s, s', j)
  {
  }

  lemma LiveBefore(lim: Limits, s: Sys, a: Action, j: Jti)
    requires Inv(lim, s) && j in s.log && j in Step(lim, s, a).rows && Step(lim, s, a).rows[j].revokedAt.None?
    ensures WasLive(s, Step(lim, s, a), j)
  {
    if !Enabled(lim, s, a) || a.Purge? {
    } else if a.Commit? {
      LiveBeforeCommit(lim, s, a.id, j);
    } else if a.DoSignIn? {
      SignInLog(lim, s, a);
    } else if Quiet(a) {
      QuietRows(lim, s, a);
    } else {
      LiveBeforeMark(lim, s, a, j);
    }
  }

  lemma NewRow(lim: Limits, s: Sys, a: Action, j: Jti, f: Family)
    requires Inv(lim, s) && j !in s.log && j in Step(lim, s, a).rows && Step(lim, s, a).rows[j].family == f
    requires f in s.signIns
    ensures Rotates(lim, s, f, a) && j == s.flights[a.id].next.jti
  {
    if !Enabled(lim, s, a) || a.Purge? {
    } else if a.Commit? {
      ClaimTable(lim, s, a.id);
    } else if a.DoSignIn? {
      SignInLog(lim, s, a);
    } else if Quiet(a) {
      QuietRows(lim, s, a);
    } else {
      MarkStep(lim, s, a);
    }
  }

  lemma NewHolder(lim: Limits, s: Sys, a: Action, id: nat)
    requires id in Step(lim, s, a).flights && Step(lim, s, a).flights[id].phase.Holding?
    ensures (id in s.flights && s.flights[id] == Step(lim, s, a).flights[id])
         || (a.Judge? && a.id == id && id in s.flights && Consumable(s.rows, s.flights[id].claims.jti)
             && Step(lim, s, a).flights[id].claims == s.flights[id].claims)
  {
    if Enabled(lim, s, a) {
      if Mover(a) != Some(id) {
        OthersStay(lim, s, a, id);
      } else if !a.Judge? && !a.Load? {
        OtherPhases(lim, s, a, id);
      }
    }
  }

  // ---- the invariant of a sweep ----

  /** Nobody holds a row the sweep has marked. */
  ghost predicate MarksHeld(x: World) {
    forall id :: id in x.s.flights && x.s.flights[id].phase.Holding? ==> x.s.flights[id].claims.jti !in x.w.marked
  }

  /** A live row the pass has not seen comes from a rotation committed during it. */
  ghost predicate SeenAll(x: World) {
    x.w.pass > 0 && x.w.pass !in x.w.busy ==> forall j :: IsLive(x.s, x.w, j) ==> j in x.w.seen
  }

  ghost predicate PassEnded(x: World) {
    x.w.pass > 0 && !x.w.running ==> forall j :: j in x.w.seen ==> Settled(x.s, x.w, j)
  }

  /** A pass finds something, and rotations go on, only after a rotation during the pass before. */
  ghost predicate BusyChain(w: Sweep) {
    && (forall p :: p in w.busy ==> p <= w.pass)
    && (forall p :: p in w.busy && p >= 2 ==> p - 1 in w.busy)
    && (w.pass >= 2 && w.seen != {} ==> w.pass - 1 in w.busy)
    && (w.pass >= 1 && w.pass in w.busy ==> w.seen != {})
    && (w.pass > 0 && !w.hit ==> w.seen !! w.marked)
  }

  ghost predicate SweepInv(lim: Limits, x: World) {
    && Inv(lim, x.s) && x.w.family in x.s.signIns && x.w.seen <= x.s.log.Keys && !x.w.done
    && MarksHeld(x) && SeenAll(x) && PassEnded(x) && BusyChain(x.w)
  }

  lemma HolderIsLive(lim: Limits, x: World, id: nat)
    requires SweepInv(lim, x) && id in x.s.flights && x.s.flights[id].phase.Holding?
    requires x.s.flights[id].claims.family == x.w.family
    ensures IsLive(x.s, x.w, x.s.flights[id].claims.jti)
  {
    assert FlightOk(lim, x.s, x.s.flights[id]) && TokenOk(x.s, x.s.flights[id].claims);
  }

  lemma OtherKeepsMarks(lim: Limits, x: World, a: Action)
    requires SweepInv(lim, x) && !Blocked(x.s, x.w, a)
    ensures MarksHeld(Turn(lim, x, Other(a)))
  {
    var x' := Turn(lim, x, Other(a));
    forall id | id in x'.s.flights && x'.s.flights[id].phase.Holding?
      ensures x'.s.flights[id].claims.jti !in x.w.marked
    {
      NewHolder(lim, x.s, a, id);
    }
  }

  lemma OtherKeepsSeen(lim: Limits, x: World, a: Action)
    requires SweepInv(lim, x) && !Blocked(x.s, x.w, a)
    ensures SeenAll(Turn(lim, x, Other(a))) && PassEnded(Turn(lim, x, Other(a)))
  {
    var x' := Turn(lim, x, Other(a));
    forall j | j in x.s.log && j in x'.s.rows && x'.s.rows[j].revokedAt.None?
      ensures WasLive(x.s, x'.s, j)
    {
      LiveBefore(lim, x.s, a, j);
    }
    forall j | IsLive(x'.s, x'.w, j) && j !in x.s.log ensures Rotates(lim, x.s, x.w.family, a) {
      NewRow(lim, x.s, a, j, x.w.family);
    }
  }

  lemma ChainGrows(w: Sweep)
    requires BusyChain(w) && (w.pass >= 1 && w.pass !in w.busy ==> w.seen != {})
    ensures forall late :: BusyChain(w.(busy := w.busy + {w.pass}, late := late))
  {
  }

  lemma OtherKeepsChain(lim: Limits, x: World, a: Action)
    requires SweepInv(lim, x) && !Blocked(x.s, x.w, a)
    ensures BusyChain(Turn(lim, x, Other(a)).w)
  {
    if Rotates(lim, x.s, x.w.family, a) {
      HolderIsLive(lim, x, a.id);
      ChainGrows(x.w);
    }
  }

  lemma OtherKeeps(lim: Limits, x: World, a: Action)
    requires SweepInv(lim, x)
    ensures SweepInv(lim, Turn(lim, x, Other(a)))
  {
    if !Blocked(x.s, x.w, a) {
      StepKeeps(lim, x.s, a);
      OtherKeepsMarks(lim, x, a);
      OtherKeepsSeen(lim, x, a);
      OtherKeepsChain(lim, x, a);
      OtherKeepsLog(lim, x.s, a);
    }
  }

  lemma OtherKeepsLog(lim: Limits, s: Sys, a: Action)
    requires Inv(lim, s)
    ensures s.log.Keys <= Step(lim, s, a).log.Keys && s.signIns.Keys <= Step(lim, s, a).signIns.Keys
  {
    HistoryStep(lim, s, a);
  }

  lemma StartKeeps(lim: Limits, x: World)
    requires SweepInv(lim, x)
    ensures SweepInv(lim, Turn(lim, x, StartPass))
  {
    var x' := Turn(lim, x, StartPass);
    if CanStart(x.w) {
      if x.w.pass > 0 && x.w.pass !in x.w.busy {
        assert forall j :: IsLive(x.s, x.w, j) ==> j in x.w.seen && Settled(x.s, x.w, j);
        assert LiveRows(x.s, x.w) == {};
      }
      assert forall j :: IsLive(x'.s, x'.w, j) <==> IsLive(x.s, x.w, j);
    }
  }

  lemma MarkKeeps(lim: Limits, x: World, j: Jti)
    requires SweepInv(lim, x)
    ensures SweepInv(lim, Turn(lim, x, Mark(j)))
  {
    var x' := Turn(lim, x, Mark(j));
    if CanMark(x, j) {
      forall id | id in x.s.flights && x.s.flights[id].phase.Holding? ensures x.s.flights[id].claims.jti != j {
        assert HoldsLock(x.s.flights[id], x.s.flights[id].claims.jti);
      }
      assert forall k :: IsLive(x'.s, x'.w, k) ==> IsLive(x.s, x.w, k);
    }
  }

  lemma EndKeeps(lim: Limits, x: World)
    requires SweepInv(lim, x)
    ensures SweepInv(lim, Turn(lim, x, EndPass))
  {
    var x' := Turn(lim, x, EndPass);
    assert forall k :: IsLive(x'.s, x'.w, k) <==> IsLive(x.s, x.w, k);
    assert forall k :: Settled(x'.s, x'.w, k) <==> Settled(x.s, x.w, k);
  }

  lemma {:induction false} SweepReachable(lim: Limits, s: Sys, f: Family, passes: nat, moves: seq<Move>)
    requires Inv(lim, s) && f in s.signIns
    requires !Turns(lim, Sweeping(s, f, passes), moves).w.done
    ensures SweepInv(lim, Turns(lim, Sweeping(s, f, passes), moves))
    decreases |moves|
  {
    if moves != [] {
      var n := |moves| - 1;
      var x := Turns(lim, Sweeping(s, f, passes), moves[..n]);
      SweepReachable(lim, s, f, passes, moves[..n]);
      match moves[n]
      case Other(a) => OtherKeeps(lim, x, a);
      case StartPass => StartKeeps(lim, x);
      case Mark(j) => MarkKeeps(lim, x, j);
      case EndPass => EndKeeps(lim, x);
      case Finish =>
    }
  }

  // ---- what a sweep leaves ----

  /** A rotation of the family committed during every pass the sweep made. */
  ghost predicate AlwaysBusy(w: Sweep) {
    forall p :: 1 <= p <= w.pass ==> p in w.busy
  }

  lemma {:induction false} BusyAllTheWay(w: Sweep, p: nat, q: nat)
    requires BusyChain(w) && q in w.busy && 1 <= p <= q
    ensures p in w.busy
    decreases q - p
  {
    if p < q {
      BusyAllTheWay(w, p + 1, q);
    }
  }

  /** The last pass used up the bound, or its rows were all purged or revoked by somebody else. */
  ghost predicate LastPass(x: World) {
    || x.w.pass == x.w.passes
    || (x.w.seen != {} && forall k :: k in x.w.seen && k in x.s.rows ==> x.s.rows[k].revokedAt.Some?)
  }

  /** A live row when the sweep is over means a rotation in every pass. */
  lemma LiveMeansBusy(lim: Limits, x: World, j: Jti)
    requires SweepInv(lim, x) && CanFinish(x.w) && IsLive(x.s, x.w, j)
    ensures AlwaysBusy(x.w) && LastPass(x)
  {
    assert x.w.pass in x.w.busy;
    forall p | 1 <= p <= x.w.pass ensures p in x.w.busy {
      BusyAllTheWay(x.w, p, x.w.pass);
    }
  }

  lemma FinishKeeps(lim: Limits, x: World)
    requires SweepInv(lim, x) && CanFinish(x.w)
    ensures Inv(lim, Turn(lim, x, Finish).s)
  {
    var rows := Marked(x.s.rows, x.w, x.s.now);
    forall j | j in rows && Locked(x.s, j) ensures rows[j].Active() {
      var id :| id in x.s.flights && HoldsLock(x.s.flights[id], j);
      assert FlightOk(lim, x.s, x.s.flights[id]);
    }
    MarksKeep(lim, x.s, rows);
  }

  lemma FinishKills(lim: Limits, x: World)
    requires SweepInv(lim, x) && CanFinish(x.w) && forall j :: !IsLive(x.s, x.w, j)
    ensures Dead(Turn(lim, x, Finish).s, x.w.family)
  {
    var s' := Turn(lim, x, Finish).s;
    forall j | j in s'.rows && s'.rows[j].family == x.w.family ensures s'.rows[j].revokedAt.Some? {
      assert !IsLive(x.s, x.w, j);
    }
    forall id | id in s'.flights && s'.flights[id].phase.Holding? ensures s'.flights[id].claims.family != x.w.family {
      if x.s.flights[id].claims.family == x.w.family {
        HolderIsLive(lim, x, id);
      }
    }
  }

  /**
   A sweep of any number of passes, interleaved with anything: when it commits, the family is
   dead, and whatever follows nothing of it is claimed again and only a stale reader of a purged
   row replayed; unless a rotation of the family committed during every single pass, the last one
   the bound allows or one whose rows were all purged or revoked by somebody else.
   */
  lemma SweepSettles(lim: Limits, before: seq<Action>, f: Family, passes: nat, moves: seq<Move>, after: seq<Action>)
    requires f in Play(lim, before).signIns
    requires CanFinish(Turns(lim, Sweeping(Play(lim, before), f, passes), moves).w)
    ensures var x := Turns(lim, Sweeping(Play(lim, before), f, passes), moves);
            var s0 := Turn(lim, x, Finish).s;
            || (Dead(s0, f) && SettledSince(s0, PlayFrom(lim, s0, after), f))
            || (x.w.passes == passes && AlwaysBusy(x.w) && LastPass(x))
  {
    var x := Turns(lim, Sweeping(Play(lim, before), f, passes), moves);
    Reachable(lim, before);
    SweepReachable(lim, Play(lim, before), f, passes, moves);
    SameSweep(lim, Sweeping(Play(lim, before), f, passes), moves);
    if j :| IsLive(x.s, x.w, j) {
      LiveMeansBusy(lim, x, j);
    } else {
      FinishKeeps(lim, x);
      FinishKills(lim, x);
      DeadStays(lim, Turn(lim, x, Finish).s, after, f);
    }
  }

  /** A sweep stays on its family and keeps its bound. */
  lemma {:induction false} SameSweep(lim: Limits, x: World, moves: seq<Move>)
    ensures Turns(lim, x, moves).w.family == x.w.family && Turns(lim, x, moves).w.passes == x.w.passes
    decreases |moves|
  {
    if moves != [] {
      SameSweep(lim, x, moves[..|moves| - 1]);
    }
  }
}
