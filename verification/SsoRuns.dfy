/** One sign-in from its first read to its answer, as a run among others. */
module SsoRuns {
  import opened Options
  import opened SsoSignIn
  import opened SsoRaces

  function PlayFrom(r: Request, s: Sys, acts: seq<Action>): Sys {
    if acts == [] then s else Step(r, PlayFrom(r, s, acts[..|acts| - 1]), acts[|acts| - 1])
  }

  /** An action of someone other than sign-in `k`. */
  predicate OfOthers(a: Action, k: nat) {
    match a
    case Look(i) => i != k
    case ReadSubject(i) => i != k
    case ReadRest(i) => i != k
    case Commit(i, _) => i != k
    case OtherAccount(_) => true
    case OtherIdentity(_) => true
  }

  ghost predicate AllOfOthers(acts: seq<Action>, k: nat) {
    forall i :: 0 <= i < |acts| ==> OfOthers(acts[i], k)
  }

  lemma OthersLeave(r: Request, s: Sys, a: Action, k: nat)
    requires k < |s.flights| && OfOthers(a, k)
    ensures |Step(r, s, a).flights| == |s.flights| && Step(r, s, a).flights[k] == s.flights[k]
  {
  }

  lemma {:induction false} GapLeaves(r: Request, s: Sys, acts: seq<Action>, k: nat)
    requires k < |s.flights| && AllOfOthers(acts, k)
    ensures |PlayFrom(r, s, acts).flights| == |s.flights| && PlayFrom(r, s, acts).flights[k] == s.flights[k]
    decreases |acts|
  {
    if acts != [] {
      var n := |acts| - 1;
      GapLeaves(r, s, acts[..n], k);
      OthersLeave(r, PlayFrom(r, s, acts[..n]), acts[n], k);
    }
  }

  /** The tables before each of the sign-in's commits and its second read. */
  datatype Interleaving = Interleaving(start: Sys, first: seq<Action>, again: seq<Action>, second: seq<Action>)

  /** Where sign-in `k` is after its first read and what others do next. */
  function AtFirstCommit(r: Request, v: Interleaving, k: nat): Sys {
    PlayFrom(r, Step(r, v.start, Look(k)), v.first)
  }

  function AtSecondRead(r: Request, v: Interleaving, k: nat, newId: UserId): Sys {
    PlayFrom(r, Step(r, AtFirstCommit(r, v, k), Commit(k, newId)), v.again)
  }

  function AtSecondCommit(r: Request, v: Interleaving, k: nat, newId: UserId): Sys {
    PlayFrom(r, Step(r, AtSecondRead(r, v, k, newId), Look(k)), v.second)
  }

  function AtEnd(r: Request, v: Interleaving, k: nat, newId: UserId): Sys {
    Step(r, AtSecondCommit(r, v, k, newId), Commit(k, newId))
  }

  /** The tables others leave at the three points where sign-in `k` waits. */
  function Rivals(r: Request, v: Interleaving, k: nat, newId: UserId): seq<Db> {
    [AtFirstCommit(r, v, k).db, AtSecondRead(r, v, k, newId).db, AtSecondCommit(r, v, k, newId).db]
  }

  ghost predicate Interleaves(r: Request, v: Interleaving, k: nat, newId: UserId) {
    && k < |v.start.flights| && v.start.flights[k] == Idle(1)
    && AllOfOthers(v.first, k) && AllOfOthers(v.again, k) && AllOfOthers(v.second, k)
    && Fresh(AtFirstCommit(r, v, k).db, newId) && Fresh(AtSecondCommit(r, v, k, newId).db, newId)
  }

  lemma AfterLook(r: Request, s: Sys, k: nat, acts: seq<Action>)
    requires k < |s.flights| && s.flights[k].Idle? && AllOfOthers(acts, k)
    ensures var s' := PlayFrom(r, Step(r, s, Look(k)), acts);
            |s'.flights| == |s.flights| && s'.flights[k] == Settle(s.flights[k].attempt, Classify(s.db, r))
  {
    GapLeaves(r, Step(r, s, Look(k)), acts, k);
  }

  lemma AfterCommit(r: Request, s: Sys, k: nat, newId: UserId, acts: seq<Action>)
    requires k < |s.flights| && s.flights[k].Decided? && Fresh(s.db, newId) && AllOfOthers(acts, k)
    ensures var d := s.flights[k].decision;
            var s' := PlayFrom(r, Step(r, s, Commit(k, newId)), acts);
            && |s'.flights| == |s.flights|
            && s'.flights[k] == if Violates(s.db, r, d) then Lost(s.flights[k].attempt)
                                else Done(SignedIn(SignedInAs(d, newId)))
  {
    GapLeaves(r, Step(r, s, Commit(k, newId)), acts, k);
  }

  lemma DoneStays(r: Request, s: Sys, k: nat, a: Action, acts: seq<Action>)
    requires k < |s.flights| && s.flights[k].Done? && AllOfOthers(acts, k)
    requires a == Look(k) || exists id :: a == Commit(k, id)
    ensures var s' := PlayFrom(r, Step(r, s, a), acts);
            |s'.flights| == |s.flights| && s'.flights[k] == s.flights[k]
  {
    GapLeaves(r, Step(r, s, a), acts, k);
  }

  /**
   The sign-in method, given the tables others leave while it waits, answers exactly what the
   sign-in comes to in the run of reads and commits with the others' actions in between.
   */
  lemma CompletedIsRun(r: Request, v: Interleaving, k: nat, newId: UserId)
    requires Interleaves(r, v, k, newId)
    ensures var s := AtEnd(r, v, k, newId);
            k < |s.flights| && s.flights[k] == Done(Completed(v.start.db, Rivals(r, v, k, newId), r, newId).0)
  {
    var d := Classify(v.start.db, r);
    AfterLook(r, v.start, k, v.first);
    var s1 := AtFirstCommit(r, v, k);
    if d.Rejected? {
      FinishedEarly(r, v, k, newId);
    } else {
      AfterCommit(r, s1, k, newId, v.again);
      var s2 := AtSecondRead(r, v, k, newId);
      if Violates(s1.db, r, d) {
        SecondAttempt(r, v, k, newId);
      } else {
        DoneStays(r, s2, k, Look(k), v.second);
        DoneStays(r, AtSecondCommit(r, v, k, newId), k, Commit(k, newId), []);
      }
    }
  }

  lemma FinishedEarly(r: Request, v: Interleaving, k: nat, newId: UserId)
    requires Interleaves(r, v, k, newId)
    requires |AtFirstCommit(r, v, k).flights| == |v.start.flights| && AtFirstCommit(r, v, k).flights[k].Done?
    ensures |AtEnd(r, v, k, newId).flights| == |v.start.flights|
    ensures AtEnd(r, v, k, newId).flights[k] == AtFirstCommit(r, v, k).flights[k]
  {
    DoneStays(r, AtFirstCommit(r, v, k), k, Commit(k, newId), v.again);
    DoneStays(r, AtSecondRead(r, v, k, newId), k, Look(k), v.second);
    DoneStays(r, AtSecondCommit(r, v, k, newId), k, Commit(k, newId), []);
  }

  lemma SecondAttempt(r: Request, v: Interleaving, k: nat, newId: UserId)
    requires Interleaves(r, v, k, newId)
    requires |AtSecondRead(r, v, k, newId).flights| == |v.start.flights|
    requires AtSecondRead(r, v, k, newId).flights[k] == Idle(2)
    ensures var s2, s3 := AtSecondRead(r, v, k, newId), AtSecondCommit(r, v, k, newId);
            var again := Classify(s2.db, r);
            && |AtEnd(r, v, k, newId).flights| == |v.start.flights|
            && AtEnd(r, v, k, newId).flights[k]
               == Done(if again.Rejected? then Refused(again.why) else if Violates(s3.db, r, again) then AccountConflict
                       else SignedIn(SignedInAs(again, newId)))
  {
    var s2, s3 := AtSecondRead(r, v, k, newId), AtSecondCommit(r, v, k, newId);
    AfterLook(r, s2, k, v.second);
    if Classify(s2.db, r).Rejected? {
      DoneStays(r, s3, k, Commit(k, newId), []);
    } else {
      AfterCommit(r, s3, k, newId, []);
    }
  }

  // ---- and it ends well ----

  lemma {:induction false} PlayThen(r: Request, db: Db, n: nat, acts: seq<Action>, more: seq<Action>)
    ensures Play(r, db, n, acts + more) == PlayFrom(r, Play(r, db, n, acts), more)
    decreases |more|
  {
    if more == [] {
      assert acts + more == acts;
    } else {
      var m := |more| - 1;
      PlayThen(r, db, n, acts, more[..m]);
      assert (acts + more)[..|acts + more| - 1] == acts + more[..m];
    }
  }

  /** All the actions of the interleaving, the sign-in's own included. */
  function Whole(before: seq<Action>, v: Interleaving, k: nat, newId: UserId): seq<Action> {
    before + [Look(k)] + v.first + [Commit(k, newId)] + v.again + [Look(k)] + v.second + [Commit(k, newId)]
  }

  lemma WholeIsRun(r: Request, db: Db, n: nat, before: seq<Action>, v: Interleaving, k: nat, newId: UserId)
    requires v.start == Play(r, db, n, before)
    ensures Play(r, db, n, Whole(before, v, k, newId)) == AtEnd(r, v, k, newId)
  {
    PlayOneMore(r, db, n, before, Look(k));
    var a1 := before + [Look(k)];
    PlayThen(r, db, n, a1, v.first);
    PlayOneMore(r, db, n, a1 + v.first, Commit(k, newId));
    var a2 := a1 + v.first + [Commit(k, newId)];
    PlayThen(r, db, n, a2, v.again);
    PlayOneMore(r, db, n, a2 + v.again, Look(k));
    var a3 := a2 + v.again + [Look(k)];
    PlayThen(r, db, n, a3, v.second);
    PlayOneMore(r, db, n, a3 + v.second, Commit(k, newId));
  }

  ghost predicate AllSnapshots(acts: seq<Action>) {
    forall i :: 0 <= i < |acts| ==> Snapshot(acts[i])
  }

  /**
   A first sign-in racing any number of others of the same person, all reading from snapshots:
   the method signs it in, to the one account there is.
   */
  lemma FirstSignInCompletes(db: Db, r: Request, n: nat, before: seq<Action>, v: Interleaving, k: nat, newId: UserId)
    requires Ready(db, r) && v.start == Play(r, db, n, before) && Interleaves(r, v, k, newId)
    requires AllSnapshots(before) && AllSnapshots(v.first) && AllSnapshots(v.again) && AllSnapshots(v.second)
    ensures var o := Completed(v.start.db, Rivals(r, v, k, newId), r, newId).0;
            && o.SignedIn?
            && FindSubject(AtEnd(r, v, k, newId).db.identities, r.subject) == Some(o.user)
            && RowsFor(AtEnd(r, v, k, newId).db.identities, r.subject) == 1
            && AccountsWith(AtEnd(r, v, k, newId).db.accounts, r.email) == 1
  {
    CompletedIsRun(r, v, k, newId);
    WholeIsRun(r, db, n, before, v, k, newId);
    WholeSnapshots(before, v, k, newId);
    ConcurrentFirstSignIns(db, r, n, Whole(before, v, k, newId));
  }

  lemma WholeSnapshots(before: seq<Action>, v: Interleaving, k: nat, newId: UserId)
    requires AllSnapshots(before) && AllSnapshots(v.first) && AllSnapshots(v.again) && AllSnapshots(v.second)
    ensures AllSnapshots(Whole(before, v, k, newId))
  {
  }
}
