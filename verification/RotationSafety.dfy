/** Safety of rotation over whole runs: how the history of rows moves, and one chain per family. */
module RotationSafety {
  import opened Options
  import opened RefreshRows
  import opened SessionPolicy
  import opened RotationProtocol
  import opened RotationInvariant

  // ---- what a step does to the history of rows ----

  ghost predicate SameLinks(log: Rows, log': Rows) {
    && log.Keys == log'.Keys
    && forall j :: j in log ==> log[j].SameToken(log'[j]) && log'[j].consumedAt == log[j].consumedAt
                                && log'[j].successor == log[j].successor
  }

  ghost predicate RootAdded(s: Sys, s': Sys, r: Record) {
    && r.jti !in s.log && r.family !in s.signIns && r.consumedAt.None? && r.successor.None?
    && s'.log == s.log[r.jti := r]
    && r.family in s'.signIns && s'.signIns == s.signIns[r.family := s'.signIns[r.family]]
    && var si := s'.signIns[r.family];
       si.root == r.jti && si.startMs == r.mintMs && SessionFieldsOf(r, si)
  }

  ghost predicate Linked(s: Sys, s': Sys, j: Jti, stamp: RefreshRows.Stamp, next: Record) {
    && j in s.log && s.log[j].consumedAt.None? && next.jti !in s.log
    && next.family == s.log[j].family && next.user == s.log[j].user
    && next.authTime == s.log[j].authTime && next.provider == s.log[j].provider
    && next.consumedAt.None? && next.successor.None?
    && s'.log == s.log[j := s.log[j].(consumedAt := Some(stamp), successor := Some(next.jti))][next.jti := next]
    && s'.signIns == s.signIns
  }

  ghost predicate HistoryMoves(s: Sys, s': Sys) {
    || (SameLinks(s.log, s'.log) && s'.signIns == s.signIns)
    || (exists r :: RootAdded(s, s', r))
    || (exists j, stamp, next :: Linked(s, s', j, stamp, next))
  }

  predicate Quiet(a: Action) {
    !(a.DoSignIn? || a.Commit? || a.SettleRejection? || a.Stamp? || a.RevokeAll?)
  }

  lemma QuietStep(lim: Limits, s: Sys, a: Action)
    requires Quiet(a)
    ensures Step(lim, s, a).log == s.log && Step(lim, s, a).signIns == s.signIns
  {
  }

  /** The flight an action is about. */
  function Mover(a: Action): Option<nat> {
    match a
    case Begin(id, _, _, _) => Some(id)
    case Load(id) => Some(id)
    case Judge(id, _, _) => Some(id)
    case Commit(id) => Some(id)
    case Abort(id) => Some(id)
    case SettleRejection(id) => Some(id)
    case Probe(id, _, _) => Some(id)
    case Stamp(id) => Some(id)
    case _ => None
  }

  lemma OthersStay(lim: Limits, s: Sys, a: Action, k: nat)
    requires Mover(a) != Some(k)
    ensures SameFlight(s, Step(lim, s, a), k)
  {
  }

  lemma QuietRows(lim: Limits, s: Sys, a: Action)
    requires Quiet(a) && !a.Purge?
    ensures Step(lim, s, a).rows == s.rows
  {
  }

  /** Revocations and liveness stamps leave keys, tokens and links alone. */
  ghost predicate OnlyMarks(s: Sys, s': Sys) {
    && s'.signIns == s.signIns && SameLinks(s.log, s'.log) && SameLinks(s.rows, s'.rows)
    && forall j :: j in s.rows && s.rows[j].revokedAt.Some? ==> s'.rows[j].revokedAt.Some?
  }

  lemma RevokedLinks(rows: Rows, f: Family, now: int)
    ensures SameLinks(rows, FamilyRevoked(rows, f, now))
  {
  }

  /** Rows rewritten with their links keep the history's links. */
  lemma RewrittenLinks(log: Rows, rows: Rows, rows': Rows)
    requires SameLinks(rows, rows') && forall x :: x in rows ==> x in log && log[x] == rows[x]
    ensures SameLinks(log, log + rows')
  {
  }

  lemma RevokeMarks(s: Sys, f: Family)
    requires TableOk(s)
    ensures OnlyMarks(s, RevokeStep(s, f))
  {
    RevokedLinks(s.rows, f, s.now);
    RewrittenLinks(s.log, s.rows, FamilyRevoked(s.rows, f, s.now));
  }

  lemma StampMarks(s: Sys, id: nat)
    requires TableOk(s) && id in s.flights && s.flights[id].phase.Stamping?
    ensures OnlyMarks(s, StampStep(s, id))
  {
  }

  lemma MarkStep(lim: Limits, s: Sys, a: Action)
    requires TableOk(s) && Enabled(lim, s, a) && (a.SettleRejection? || a.Stamp? || a.RevokeAll?)
    ensures OnlyMarks(s, Step(lim, s, a))
  {
    match a
    case SettleRejection(id) => RevokeMarks(s, s.flights[id].claims.family);
    case Stamp(id) => StampMarks(s, id);
    case RevokeAll(f) => RevokeMarks(s, f);
  }

  lemma CommitLinks(lim: Limits, s: Sys, id: nat)
    requires Inv(lim, s) && id in s.flights && s.flights[id].phase.Holding?
    ensures var fl := s.flights[id];
            var s' := CommitStep(s, id);
            fl.next.jti in s'.log && Linked(s, s', fl.claims.jti, At(fl.phase.stamp), s'.log[fl.next.jti])
            && s'.log[fl.next.jti].expiresAt == fl.next.exp && s'.log[fl.next.jti].mintMs == fl.next.mintMs
            && fl.next.family == fl.claims.family && s.log[fl.claims.jti].family == fl.claims.family
            && s'.events == s.events + [EvClaimed(fl.claims.jti, fl.next)]
  {
    var fl := s.flights[id];
    ClaimTable(lim, s, id);
    ClaimLog(lim, s, id, Ended(WithRows(s, AfterClaim(s.rows, fl, fl.phase.held, fl.phase.stamp)), id));
    assert FlightOk(lim, s, fl);
  }

  lemma HistoryStep(lim: Limits, s: Sys, a: Action)
    requires Inv(lim, s)
    ensures HistoryMoves(s, Step(lim, s, a))
  {
    var s' := Step(lim, s, a);
    if !Enabled(lim, s, a) {
    } else if a.DoSignIn? {
      SignInLog(lim, s, a);
      assert RootAdded(s, s', s'.log[a.jti]);
    } else if a.Commit? {
      CommitLinks(lim, s, a.id);
    } else if Quiet(a) {
      QuietStep(lim, s, a);
    } else {
      MarkStep(lim, s, a);
    }
  }

  lemma LinkedAdvances(s: Sys, s': Sys)
    requires HistoryMoves(s, s')
    ensures LogAdvances(s.log, s'.log)
  {
  }

  // ---- one chain per family ----

  /** The row at place `i` was rotated into the one after it. */
  ghost predicate LinkAt(log: Rows, c: seq<Jti>, i: int) {
    && 0 <= i < |c| - 1 && c[i] in log
    && log[c[i]].consumedAt.Some? && log[c[i]].successor == Some(c[i + 1])
  }

  /** `c` lists the rows of family `f` from its root to its one unconsumed row, each pointing
      at the next. */
  ghost predicate IsChain(log: Rows, f: Family, si: SignIn, c: seq<Jti>) {
    && |c| > 0 && c[0] == si.root
    && (forall i, k :: 0 <= i < k < |c| ==> c[i] != c[k])
    && (forall j :: j in c ==> j in log && log[j].family == f && SessionFieldsOf(log[j], si))
    && (forall j :: j in log && log[j].family == f ==> j in c)
    && (forall i {:trigger LinkAt(log, c, i)} :: 0 <= i < |c| - 1 ==> LinkAt(log, c, i))
    && log[c[|c| - 1]].consumedAt.None? && log[c[|c| - 1]].successor.None?
    && log[si.root].mintMs == si.startMs
  }

  ghost predicate HasChain(log: Rows, f: Family, si: SignIn) {
    exists c :: IsChain(log, f, si, c)
  }

  ghost predicate ChainsOk(s: Sys) {
    forall f :: f in s.signIns ==> HasChain(s.log, f, s.signIns[f])
  }

  lemma ConsumableIsLast(log: Rows, f: Family, si: SignIn, c: seq<Jti>, j: Jti)
    requires IsChain(log, f, si, c) && j in log && log[j].family == f && log[j].consumedAt.None?
    ensures c[|c| - 1] == j
  {
    var i :| 0 <= i < |c| && c[i] == j;
    assert !LinkAt(log, c, i);
  }

  /** A committed claim appends one row to its family's chain. */
  lemma ClaimExtendsChain(log: Rows, log': Rows, f: Family, si: SignIn, c: seq<Jti>, j: Jti, next: Record)
    requires IsChain(log, f, si, c) && Keyed(log)
    requires j in log && log[j].family == f && log[j].consumedAt.None?
    requires next.jti !in log && next.family == f && SessionFieldsOf(next, si)
    requires next.consumedAt.None? && next.successor.None?
    requires exists stamp: RefreshRows.Stamp ::
               log' == log[j := log[j].(consumedAt := Some(stamp), successor := Some(next.jti))][next.jti := next]
    ensures IsChain(log', f, si, c + [next.jti])
  {
    ConsumableIsLast(log, f, si, c, j);
    var c' := c + [next.jti];
    assert forall k :: k in c ==> k != next.jti;
    forall i | 0 <= i < |c'| - 1 ensures LinkAt(log', c', i) {
      if i < |c| - 1 {
        assert LinkAt(log, c, i) && c[i] != c[|c| - 1];
      }
    }
    assert si.root in c;
  }

  /** Steps that leave links alone keep every chain. */
  lemma SameLinksKeepChain(log: Rows, log': Rows, f: Family, si: SignIn)
    requires HasChain(log, f, si)
    requires forall j :: j in log ==>
      && j in log' && log[j].SameToken(log'[j])
      && log'[j].consumedAt == log[j].consumedAt && log'[j].successor == log[j].successor
    requires forall j :: j in log' && log'[j].family == f ==> j in log
    ensures HasChain(log', f, si)
  {
    var c :| IsChain(log, f, si, c);
    assert si.root in c;
    forall i | 0 <= i < |c| - 1 ensures LinkAt(log', c, i) {
      assert LinkAt(log, c, i);
    }
    assert IsChain(log', f, si, c);
  }

  lemma OtherFamilyKeepsChain(log: Rows, log': Rows, f: Family, si: SignIn)
    requires HasChain(log, f, si)
    requires forall j :: j in log && log[j].family == f ==> j in log' && log'[j] == log[j]
    requires forall j :: j in log' && log'[j].family == f ==> j in log && log[j].family == f
    ensures HasChain(log', f, si)
  {
    var c :| IsChain(log, f, si, c);
    assert si.root in c;
    forall i | 0 <= i < |c| - 1 ensures LinkAt(log', c, i) {
      assert LinkAt(log, c, i);
    }
    assert IsChain(log', f, si, c);
  }

  lemma ChainAfterRoot(s: Sys, s': Sys, f: Family, r: Record)
    requires TableOk(s) && RootAdded(s, s', r) && f in s'.signIns
    requires f in s.signIns ==> HasChain(s.log, f, s.signIns[f])
    ensures HasChain(s'.log, f, s'.signIns[f])
  {
    if f == r.family {
      assert IsChain(s'.log, f, s'.signIns[f], [r.jti]);
    } else {
      OtherFamilyKeepsChain(s.log, s'.log, f, s.signIns[f]);
    }
  }

  lemma ChainsMove(s: Sys, s': Sys)
    requires TableOk(s) && ChainsOk(s) && HistoryMoves(s, s')
    ensures ChainsOk(s')
  {
    forall f | f in s'.signIns ensures HasChain(s'.log, f, s'.signIns[f]) {
      if SameLinks(s.log, s'.log) && s'.signIns == s.signIns {
        SameLinksKeepChain(s.log, s'.log, f, s.signIns[f]);
      } else if r :| RootAdded(s, s', r) {
        ChainAfterRoot(s, s', f, r);
      } else {
        var j, stamp, next :| Linked(s, s', j, stamp, next);
        ChainAfterLink(s, s', f, j, stamp, next);
      }
    }
  }

  lemma ChainAfterLink(s: Sys, s': Sys, f: Family, j: Jti, stamp: RefreshRows.Stamp, next: Record)
    requires TableOk(s) && Linked(s, s', j, stamp, next) && f in s.signIns && HasChain(s.log, f, s.signIns[f])
    ensures HasChain(s'.log, f, s.signIns[f])
  {
    if f == next.family {
      var c :| IsChain(s.log, f, s.signIns[f], c);
      assert j in c;
      ClaimExtendsChain(s.log, s'.log, f, s.signIns[f], c, j, next);
    } else {
      OtherFamilyKeepsChain(s.log, s'.log, f, s.signIns[f]);
    }
  }

  lemma {:induction false} ChainsReachable(lim: Limits, acts: seq<Action>)
    ensures ChainsOk(Play(lim, acts))
    decreases |acts|
  {
    if acts != [] {
      var n := |acts| - 1;
      var s := Play(lim, acts[..n]);
      ChainsReachable(lim, acts[..n]);
      Reachable(lim, acts[..n]);
      HistoryStep(lim, s, acts[n]);
      ChainsMove(s, Step(lim, s, acts[n]));
    }
  }

  ghost predicate InFamily(log: Rows, f: Family, j: Jti) {
    j in log && log[j].family == f
  }

  /** Exactly one row of a family is unconsumed, and no two share a successor. */
  lemma ChainShape(log: Rows, f: Family, si: SignIn, c: seq<Jti>)
    requires IsChain(log, f, si, c)
    ensures forall j, k :: InFamily(log, f, j) && InFamily(log, f, k) && j != k ==>
                             log[j].consumedAt.Some? || log[k].consumedAt.Some?
    ensures forall j, k :: InFamily(log, f, j) && InFamily(log, f, k) && j != k && log[j].successor.Some? ==>
                             log[j].successor != log[k].successor
  {
    forall j, k | InFamily(log, f, j) && InFamily(log, f, k) && j != k
      ensures log[j].consumedAt.Some? || log[k].consumedAt.Some?
      ensures log[j].successor.Some? ==> log[j].successor != log[k].successor
    {
      var x :| 0 <= x < |c| && c[x] == j;
      var y :| 0 <= y < |c| && c[y] == k;
      assert x < |c| - 1 ==> LinkAt(log, c, x);
      assert y < |c| - 1 ==> LinkAt(log, c, y);
    }
  }

  /**
   In every reachable state each family's rows form one finite chain from its sign-in: links
   stay inside the family and lead to existing rows, no two rows share a successor, exactly
   one row is unconsumed, and user, authentication instant and provider are the sign-in's
   throughout. The table is that history less what a purge deleted.
   */
  lemma FamiliesAreChains(lim: Limits, acts: seq<Action>, f: Family)
    requires f in Play(lim, acts).signIns
    ensures var s := Play(lim, acts);
            && (forall j :: j in s.rows ==> j in s.log && s.rows[j] == s.log[j])
            && exists c :: IsChain(s.log, f, s.signIns[f], c)
    ensures var log := Play(lim, acts).log;
            && (forall j, k :: InFamily(log, f, j) && InFamily(log, f, k) && j != k ==>
                  log[j].consumedAt.Some? || log[k].consumedAt.Some?)
            && (forall j, k :: InFamily(log, f, j) && InFamily(log, f, k) && j != k && log[j].successor.Some? ==>
                  log[j].successor != log[k].successor)
  {
    var s := Play(lim, acts);
    ChainsReachable(lim, acts);
    Reachable(lim, acts);
    assert HasChain(s.log, f, s.signIns[f]);
    var c :| IsChain(s.log, f, s.signIns[f], c);
    ChainShape(s.log, f, s.signIns[f], c);
  }

  /** Without purges the table is the history itself. */
  lemma {:induction false} UnpurgedTableIsHistory(lim: Limits, acts: seq<Action>)
    requires forall i :: 0 <= i < |acts| ==> !acts[i].Purge?
    ensures Play(lim, acts).rows == Play(lim, acts).log
    decreases |acts|
  {
    if acts != [] {
      var n := |acts| - 1;
      var s := Play(lim, acts[..n]);
      UnpurgedTableIsHistory(lim, acts[..n]);
      Reachable(lim, acts[..n]);
      UnpurgedStep(lim, s, acts[n]);
    }
  }

  lemma UnpurgedCommit(lim: Limits, s: Sys, id: nat)
    requires Inv(lim, s) && s.rows == s.log && id in s.flights && s.flights[id].phase.Holding?
    ensures CommitStep(s, id).rows == CommitStep(s, id).log
  {
    var fl := s.flights[id];
    ClaimLog(lim, s, id, Ended(WithRows(s, AfterClaim(s.rows, fl, fl.phase.held, fl.phase.stamp)), id));
  }

  /** A step that replaces the table by one with the same keys keeps history and table alike. */
  lemma UnpurgedMark(s: Sys, rows: Rows)
    requires s.rows == s.log && rows.Keys == s.rows.Keys
    ensures WithRows(s, rows).rows == WithRows(s, rows).log
  {
  }

  lemma UnpurgedMarks(lim: Limits, s: Sys, a: Action)
    requires s.rows == s.log && Enabled(lim, s, a) && (a.SettleRejection? || a.Stamp? || a.RevokeAll?)
    ensures Step(lim, s, a).rows == Step(lim, s, a).log
  {
    match a
    case SettleRejection(id) => UnpurgedMark(s, FamilyRevoked(s.rows, s.flights[id].claims.family, s.now));
    case Stamp(id) => UnpurgedMark(s, Touched(s.rows, s.flights[id].next.jti, Seconds(s.now)));
    case RevokeAll(f) => UnpurgedMark(s, FamilyRevoked(s.rows, f, s.now));
  }

  lemma UnpurgedStep(lim: Limits, s: Sys, a: Action)
    requires Inv(lim, s) && s.rows == s.log && !a.Purge?
    ensures Step(lim, s, a).rows == Step(lim, s, a).log
  {
    if !Enabled(lim, s, a) {
    } else if a.DoSignIn? {
      SignInLog(lim, s, a);
    } else if a.Commit? {
      UnpurgedCommit(lim, s, a.id);
    } else if Quiet(a) {
      QuietStep(lim, s, a);
      QuietRows(lim, s, a);
    } else {
      UnpurgedMarks(lim, s, a);
    }
  }
}
