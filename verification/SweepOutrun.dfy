/** No number of passes is enough: a session that rotates once during every pass survives. */
module SweepOutrun {
  import opened Options
  import opened RefreshRows
  import opened SessionPolicy
  import opened RotationProtocol
  import opened RotationRuns
  import opened RevocationSweep

  function Below(n: nat): (r: set<Jti>)
    ensures forall j :: j in r <==> 0 <= j < n
  {
    if n == 0 then {} else Below(n - 1) + {n - 1}
  }

  function OneTo(n: nat): (r: set<nat>)
    ensures forall p :: p in r <==> 1 <= p <= n
  {
    if n == 0 then {} else OneTo(n - 1) + {n}
  }

  /** After `n` passes: rows 0 to `n` - 1 are marked, and row `n` came during the last. */
  function SweepAt(passes: nat, n: nat): Sweep {
    Sweep(0, passes, n, false, n > 0, if n == 0 then {} else {n - 1}, Below(n), OneTo(n),
          if n == 0 then {} else {n}, false)
  }

  // ---- the session, all of it at one instant ----

  /** A token can be presented at all. */
  predicate Presentable(lim: Limits) {
    lim.lifetime + lim.leeway > 0
  }

  function Token(lim: Limits, n: nat): Claims {
    Claims(0, n, 0, lim.lifetime, None, None, None, 0)
  }

  function Row(lim: Limits, n: nat, j: nat): Record {
    Record(j, 0, 0, None, 0, lim.lifetime, if j < n then Some(At(0)) else None,
           if j < n then Some(j + 1) else None, None, None, None)
  }

  /** The session after `n` rotations, none of which took any time. */
  ghost predicate After(lim: Limits, n: nat, s: Sys) {
    && s.now == 0 && s.flights == map[] && Token(lim, n) in s.issued && 0 in s.signIns
    && (forall j :: j in s.used ==> j <= n)
    && (forall j: nat :: j in s.rows <==> j <= n)
    && (forall j: nat :: j in s.rows ==> s.rows[j] == Row(lim, n, j))
  }

  lemma SignedIn(lim: Limits) returns (acts: seq<Action>)
    ensures After(lim, 0, Play(lim, acts))
  {
    acts := [DoSignIn(0, 0, 0, None, None, None, None)];
    PlayOne(lim, INITIAL, acts[0]);
  }

  lemma CanRotate(lim: Limits, s: Sys, n: nat)
    requires Presentable(lim) && After(lim, n, s)
    ensures Refreshable(lim, s, Token(lim, n), n + 1, 0)
  {
    var rows := Refreshed(lim, s, Token(lim, n), n + 1).rows;
    assert n in s.rows && 0 in s.rows && n + 1 !in s.rows;
    assert 0 in rows && rows[0].family == 0 && rows[0].mintMs == 0;
  }

  lemma Rotated(lim: Limits, s: Sys, n: nat)
    requires After(lim, n, s)
    ensures n in s.rows && After(lim, n + 1, Refreshed(lim, s, Token(lim, n), n + 1))
  {
    var s' := Refreshed(lim, s, Token(lim, n), n + 1);
    assert Successor(lim, Token(lim, n), n + 1, s.now) == Token(lim, n + 1);
    assert n in s.rows && n + 1 !in s.rows;
  }

  /** A refresh of row `n` holds it. */
  function Held(lim: Limits, s: Sys, n: nat): Sys
    requires n in s.rows
  {
    Ruled(lim, s, Token(lim, n), n + 1)
  }

  /** Begin, read and judge: from after `n` rotations to row `n` held. */
  lemma TakeHold(lim: Limits, s: Sys, n: nat)
    requires Presentable(lim) && After(lim, n, s)
    ensures n in s.rows && GoesThrough(lim, s, Token(lim, n), n + 1, 0)
  {
    CanRotate(lim, s, n);
    AloneSteps(lim, s, Token(lim, n), n + 1, 0);
  }

  // ---- putting moves together ----

  lemma {:induction false} TurnsConcat(lim: Limits, x: World, a: seq<Move>, b: seq<Move>)
    ensures Turns(lim, x, a + b) == Turns(lim, Turns(lim, x, a), b)
    decreases |b|
  {
    if b == [] {
      assert a + b == a;
    } else {
      var n := |b| - 1;
      TurnsConcat(lim, x, a, b[..n]);
      assert (a + b)[..|a + b| - 1] == a + b[..n];
    }
  }

  lemma TurnsOne(lim: Limits, x: World, moves: seq<Move>, m: Move)
    ensures Turns(lim, x, moves + [m]) == Turn(lim, Turns(lim, x, moves), m)
  {
    assert (moves + [m])[..|moves|] == moves;
  }

  /** Some moves lead from one world to the other. */
  ghost predicate Reaches(lim: Limits, x: World, y: World) {
    exists moves :: Turns(lim, x, moves) == y
  }

  lemma ReachesMore(lim: Limits, x: World, y: World, more: seq<Move>, z: World)
    requires Reaches(lim, x, y) && Turns(lim, y, more) == z
    ensures Reaches(lim, x, z)
  {
    var moves :| Turns(lim, x, moves) == y;
    TurnsConcat(lim, x, moves, more);
  }

  // ---- one pass, and the rotation that dodges it ----

  /** During pass `n` + 1, which has seen row `n`. */
  function InPass(passes: nat, n: nat): Sweep {
    SweepAt(passes, n).(pass := n + 1, running := true, hit := false, seen := {n}, late := {})
  }

  lemma StartsPass(lim: Limits, s: Sys, n: nat, passes: nat)
    requires After(lim, n, s) && n in s.rows && n < passes
    ensures Turn(lim, World(Held(lim, s, n), SweepAt(passes, n)), StartPass)
         == World(Held(lim, s, n), InPass(passes, n))
  {
    var s', w := Held(lim, s, n), SweepAt(passes, n);
    assert forall j :: IsLive(s', w, j) <==> j == n;
    assert LiveRows(s', w) == {n};
  }

  lemma CommitDodges(lim: Limits, s1: Sys, s2: Sys, w: Sweep)
    requires Step(lim, s1, Commit(0)) == s2 && 0 in s1.flights && s1.flights[0].phase.Holding?
    requires s1.flights[0].claims.family == w.family
    ensures Turn(lim, World(s1, w), Other(Commit(0)))
         == World(s2, w.(busy := w.busy + {w.pass}, late := w.late + {s1.flights[0].next.jti}))
  {
  }

  function Dodging(passes: nat, n: nat): Sweep {
    InPass(passes, n).(busy := OneTo(n) + {n + 1}, late := {n + 1})
  }

  lemma CommitsDuring(lim: Limits, s: Sys, n: nat, passes: nat)
    requires n in s.rows && GoesThrough(lim, s, Token(lim, n), n + 1, 0)
    ensures Turn(lim, World(Held(lim, s, n), InPass(passes, n)), Other(Commit(0)))
         == World(Refreshed(lim, s, Token(lim, n), n + 1), Dodging(passes, n))
  {
    var held := Held(lim, s, n);
    assert held.flights[0].phase.Holding? && held.flights[0].claims.family == 0 && held.flights[0].next.jti == n + 1;
    CommitDodges(lim, held, Refreshed(lim, s, Token(lim, n), n + 1), InPass(passes, n));
  }

  lemma MarkAndEnd(lim: Limits, s: Sys, n: nat, passes: nat)
    requires After(lim, n + 1, s)
    ensures Turn(lim, Turn(lim, World(s, Dodging(passes, n)), Mark(n)), EndPass) == World(s, SweepAt(passes, n + 1))
  {
    var w := Dodging(passes, n);
    assert n in s.rows && CanMark(World(s, w), n);
    var w1 := w.(marked := w.marked + {n}, hit := true);
    assert Turn(lim, World(s, w), Mark(n)) == World(s, w1);
    assert forall j :: j in w1.seen ==> RevocationSweep.Settled(s, w1, j);
    assert Below(n) + {n} == Below(n + 1) && OneTo(n) + {n + 1} == OneTo(n + 1);
  }

  function PassMoves(n: nat): seq<Move> {
    [StartPass] + [Other(Commit(0))] + [Mark(n)] + [EndPass]
  }

  lemma PassMovesTurn(lim: Limits, x: World, n: nat)
    ensures Turns(lim, x, PassMoves(n))
         == Turn(lim, Turn(lim, Turn(lim, Turn(lim, x, StartPass), Other(Commit(0))), Mark(n)), EndPass)
  {
    TurnsOne(lim, x, [], StartPass);
    assert [] + [StartPass] == [StartPass];
    TurnsOne(lim, x, [StartPass], Other(Commit(0)));
    TurnsOne(lim, x, [StartPass] + [Other(Commit(0))], Mark(n));
    TurnsOne(lim, x, [StartPass] + [Other(Commit(0))] + [Mark(n)], EndPass);
  }

  function HeldAt(lim: Limits, s: Sys, n: nat, passes: nat): World
    requires n in s.rows
  {
    World(Held(lim, s, n), SweepAt(passes, n))
  }

  lemma OnePass(lim: Limits, s: Sys, n: nat, passes: nat)
    requires Presentable(lim) && After(lim, n, s) && n in s.rows && n < passes
    ensures After(lim, n + 1, Refreshed(lim, s, Token(lim, n), n + 1))
    ensures Turns(lim, HeldAt(lim, s, n, passes), PassMoves(n))
         == World(Refreshed(lim, s, Token(lim, n), n + 1), SweepAt(passes, n + 1))
  {
    TakeHold(lim, s, n);
    Rotated(lim, s, n);
    StartsPass(lim, s, n, passes);
    CommitsDuring(lim, s, n, passes);
    MarkAndEnd(lim, Refreshed(lim, s, Token(lim, n), n + 1), n, passes);
    PassMovesTurn(lim, HeldAt(lim, s, n, passes), n);
  }

  // ---- the next refresh, of a row no pass has marked ----

  lemma OtherTurn(lim: Limits, s: Sys, w: Sweep, a: Action)
    requires !a.Commit? && !Blocked(s, w, a)
    ensures Turn(lim, World(s, w), Other(a)) == World(Step(lim, s, a), w)
  {
  }

  lemma ReachesByMove(lim: Limits, x: World, y: World, m: Move)
    requires Reaches(lim, x, y)
    ensures Reaches(lim, x, Turn(lim, y, m))
  {
    var moves :| Turns(lim, x, moves) == y;
    TurnsOne(lim, x, moves, m);
  }

  lemma ReachesByOther(lim: Limits, x: World, s: Sys, w: Sweep, a: Action, s': Sys)
    requires Reaches(lim, x, World(s, w)) && !a.Commit? && !Blocked(s, w, a) && Step(lim, s, a) == s'
    ensures Reaches(lim, x, World(s', w))
  {
    OtherTurn(lim, s, w, a);
    ReachesByMove(lim, x, World(s, w), Other(a));
  }

  lemma ReachesRead(lim: Limits, x: World, s: Sys, w: Sweep, n: nat)
    requires Reaches(lim, x, World(s, w))
    requires n in s.rows && GoesThrough(lim, s, Token(lim, n), n + 1, 0)
    ensures Reaches(lim, x, World(InFlight(lim, s, Token(lim, n), n + 1, Loaded(s.rows[n])), w))
  {
    var c := Token(lim, n);
    var s1 := InFlight(lim, s, c, n + 1, RotationProtocol.Begun);
    ReachesByOther(lim, x, s, w, Begin(0, c, n + 1, {}), s1);
    ReachesByOther(lim, x, s1, w, Load(0), InFlight(lim, s, c, n + 1, Loaded(s.rows[n])));
  }

  lemma ReachesThrough(lim: Limits, x: World, s: Sys, w: Sweep, n: nat)
    requires Reaches(lim, x, World(s, w)) && n !in w.marked
    requires n in s.rows && GoesThrough(lim, s, Token(lim, n), n + 1, 0)
    ensures Reaches(lim, x, World(Held(lim, s, n), w))
  {
    ReachesRead(lim, x, s, w, n);
    var s2 := InFlight(lim, s, Token(lim, n), n + 1, Loaded(s.rows[n]));
    ReachesByOther(lim, x, s2, w, Judge(0, OPEN, Some(0)), Held(lim, s, n));
  }

  // ---- pass after pass ----

  /** The run has got to the start of pass `n` + 1. */
  ghost predicate Dodged(lim: Limits, x: World, passes: nat, n: nat) {
    exists s :: After(lim, n, s) && n in s.rows && Reaches(lim, x, HeldAt(lim, s, n, passes))
  }

  lemma ReachesByPass(lim: Limits, x: World, s: Sys, n: nat, passes: nat)
    requires Presentable(lim) && After(lim, n, s) && n in s.rows && n < passes
    requires Reaches(lim, x, HeldAt(lim, s, n, passes))
    ensures After(lim, n + 1, Refreshed(lim, s, Token(lim, n), n + 1))
    ensures Reaches(lim, x, World(Refreshed(lim, s, Token(lim, n), n + 1), SweepAt(passes, n + 1)))
  {
    OnePass(lim, s, n, passes);
    ReachesMore(lim, x, HeldAt(lim, s, n, passes), PassMoves(n),
                World(Refreshed(lim, s, Token(lim, n), n + 1), SweepAt(passes, n + 1)));
  }

  lemma ReachesByHold(lim: Limits, x: World, s: Sys, n: nat, passes: nat)
    requires Presentable(lim) && After(lim, n, s) && Reaches(lim, x, World(s, SweepAt(passes, n)))
    ensures Dodged(lim, x, passes, n)
  {
    TakeHold(lim, s, n);
    ReachesThrough(lim, x, s, SweepAt(passes, n), n);
  }

  lemma DodgeNext(lim: Limits, x: World, passes: nat, n: nat, next: nat)
    requires Presentable(lim) && n < passes && Dodged(lim, x, passes, n) && next == n + 1
    ensures Dodged(lim, x, passes, next)
  {
    var s :| After(lim, n, s) && n in s.rows && Reaches(lim, x, HeldAt(lim, s, n, passes));
    ReachesByPass(lim, x, s, n, passes);
    ReachesByHold(lim, x, Refreshed(lim, s, Token(lim, n), n + 1), n + 1, passes);
  }

  lemma DodgeStart(lim: Limits, x: World, s0: Sys, passes: nat, n: nat)
    requires Presentable(lim) && After(lim, n, s0) && x == World(s0, SweepAt(passes, n))
    ensures Dodged(lim, x, passes, n)
  {
    assert Turns(lim, x, []) == x;
    ReachesByHold(lim, x, s0, n, passes);
  }

  lemma {:induction false} StepByStep(p: nat -> bool, bound: nat, n: nat)
    requires p(0) && n <= bound && forall k: nat, next: nat :: k < bound && p(k) && next == k + 1 ==> p(next)
    ensures p(n)
    decreases n
  {
    if n > 0 {
      StepByStep(p, bound, n - 1);
    }
  }

  lemma Dodge(lim: Limits, x: World, passes: nat, n: nat)
    requires Presentable(lim) && Dodged(lim, x, passes, 0) && n <= passes
    ensures Dodged(lim, x, passes, n)
  {
    var p := (k: nat) => Dodged(lim, x, passes, k);
    forall k: nat, next: nat | k < passes && p(k) && next == k + 1 ensures p(next) {
      DodgeNext(lim, x, passes, k, next);
    }
    StepByStep(p, passes, n);
  }

  /** The sweep is over, every pass saw a rotation, and its commit leaves a live row. */
  ghost predicate Outran(lim: Limits, y: World, passes: nat) {
    && CanFinish(y.w) && y.w.busy == OneTo(passes)
    && var s := Turn(lim, y, Finish).s;
       passes in s.rows && s.rows[passes].family == 0 && s.rows[passes].Active()
  }

  lemma LastRowSurvives(lim: Limits, s: Sys, passes: nat)
    requires passes > 0 && After(lim, passes, s)
    ensures Outran(lim, World(s, SweepAt(passes, passes)), passes)
  {
    assert passes in s.rows;
  }

  lemma FinalPass(lim: Limits, x: World, s: Sys, n: nat) returns (y: World)
    requires Presentable(lim) && After(lim, n, s) && n in s.rows && Reaches(lim, x, HeldAt(lim, s, n, n + 1))
    ensures Reaches(lim, x, y) && Outran(lim, y, n + 1)
  {
    ReachesByPass(lim, x, s, n, n + 1);
    y := World(Refreshed(lim, s, Token(lim, n), n + 1), SweepAt(n + 1, n + 1));
    LastRowSurvives(lim, Refreshed(lim, s, Token(lim, n), n + 1), n + 1);
  }

  lemma Outrun(lim: Limits, x: World, s0: Sys, n: nat) returns (y: World)
    requires Presentable(lim) && After(lim, 0, s0) && x == World(s0, SweepAt(n + 1, 0))
    ensures Reaches(lim, x, y) && Outran(lim, y, n + 1)
  {
    DodgeStart(lim, x, s0, n + 1, 0);
    Dodge(lim, x, n + 1, n);
    var s :| After(lim, n, s) && n in s.rows && Reaches(lim, x, HeldAt(lim, s, n, n + 1));
    y := FinalPass(lim, x, s, n);
  }

  /**
   For every number of passes, three included, and wherever a token can be presented at all: a run
   in which one rotation during each pass leaves the sweep, when it commits, with a live row.
   */
  lemma SweepCanBeOutrun(lim: Limits, passes: nat) returns (before: seq<Action>, moves: seq<Move>)
    requires passes > 0 && Presentable(lim)
    ensures 0 in Play(lim, before).signIns
    ensures Outran(lim, Turns(lim, Sweeping(Play(lim, before), 0, passes), moves), passes)
  {
    before := SignedIn(lim);
    var x := Sweeping(Play(lim, before), 0, passes);
    var y := Outrun(lim, x, Play(lim, before), passes - 1);
    moves :| Turns(lim, x, moves) == y;
  }
}
