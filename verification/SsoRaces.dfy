/** Any number of first sign-ins of one person at once. */
module SsoRaces {
  import opened Options
  import opened SsoSignIn

  function AccountsWith(accounts: seq<Account>, email: Email): nat {
    if accounts == [] then 0 else (if accounts[0].email == email then 1 else 0) + AccountsWith(accounts[1..], email)
  }

  function RowsFor(rows: seq<Identity>, s: Subject): nat {
    if rows == [] then 0 else (if rows[0].subject == s then 1 else 0) + RowsFor(rows[1..], s)
  }

  // ---- appending one row ----

  lemma {:induction false} AppendAccount(accounts: seq<Account>, a: Account, email: Email, id: UserId)
    ensures FindEmail(accounts + [a], email)
         == if FindEmail(accounts, email).Some? then FindEmail(accounts, email)
            else if a.email == email then Some(a) else None
    ensures FindAccount(accounts + [a], id)
         == if FindAccount(accounts, id).Some? then FindAccount(accounts, id)
            else if a.id == id then Some(a) else None
    ensures AccountsWith(accounts + [a], email) == AccountsWith(accounts, email) + if a.email == email then 1 else 0
    decreases |accounts|
  {
    if accounts == [] {
      assert accounts + [a] == [a] && [a][1..] == [];
    } else {
      AppendAccount(accounts[1..], a, email, id);
      assert (accounts + [a])[1..] == accounts[1..] + [a];
    }
  }

  lemma {:induction false} AppendRow(rows: seq<Identity>, row: Identity, s: Subject)
    ensures FindSubject(rows + [row], s)
         == if FindSubject(rows, s).Some? then FindSubject(rows, s)
            else if row.subject == s then Some(row.user) else None
    ensures RowsFor(rows + [row], s) == RowsFor(rows, s) + if row.subject == s then 1 else 0
    decreases |rows|
  {
    if rows == [] {
      assert rows + [row] == [row] && [row][1..] == [];
    } else {
      AppendRow(rows[1..], row, s);
      assert (rows + [row])[1..] == rows[1..] + [row];
    }
  }

  lemma HasIdentityAppend(rows: seq<Identity>, row: Identity, id: UserId)
    ensures HasIdentity(rows + [row], id) <==> HasIdentity(rows, id) || row.user == id
  {
    if HasIdentity(rows, id) {
      var i :| 0 <= i < |rows| && rows[i].user == id;
      assert (rows + [row])[i].user == id;
    }
    if row.user == id {
      assert (rows + [row])[|rows|].user == id;
    }
  }

  lemma {:induction false} FreshIsUnknown(accounts: seq<Account>, id: UserId)
    requires forall i :: 0 <= i < |accounts| ==> accounts[i].id != id
    ensures FindAccount(accounts, id).None?
    decreases |accounts|
  {
    if accounts != [] {
      FreshIsUnknown(accounts[1..], id);
    }
  }

  // ---- the situation ----

  /** The subject is new, and its email is free to provision or belongs to an account it may link. */
  ghost predicate Ready(db: Db, r: Request) {
    && r.intent.None?
    && FindSubject(db.identities, r.subject).None? && RowsFor(db.identities, r.subject) == 0
    && match FindEmail(db.accounts, r.email) {
         case None => r.allowJit && AccountsWith(db.accounts, r.email) == 0
         case Some(a) =>
           && FindAccount(db.accounts, a.id) == Some(a) && AccountsWith(db.accounts, r.email) == 1
           && DenyReasons(r, a, HasIdentity(db.identities, a.id)) == []
       }
  }

  /** What the first sign-in to read decides. */
  function First(db: Db, r: Request): Decision {
    match FindEmail(db.accounts, r.email)
    case None => ProvisionNew
    case Some(a) => LinkExisting(a.id)
  }

  /** The account as a sign-in finds it by email once another has won. */
  function Winner(db: Db, r: Request, user: UserId): Account {
    match FindEmail(db.accounts, r.email)
    case None => NewAccount(r, user)
    case Some(a) => a
  }

  /** A subject with an identity already on the account would still be linked. */
  predicate LinksAgain(db: Db, r: Request) {
    DenyReasons(r, Winner(db, r, 0), true) == []
  }

  // ---- the invariant ----

  /** Nobody has committed yet. */
  ghost predicate Open(db0: Db, r: Request, db: Db) {
    && FindSubject(db.identities, r.subject).None? && RowsFor(db.identities, r.subject) == 0
    && FindEmail(db.accounts, r.email) == FindEmail(db0.accounts, r.email)
    && AccountsWith(db.accounts, r.email) == (if FindEmail(db0.accounts, r.email).Some? then 1 else 0)
    && match FindEmail(db0.accounts, r.email) {
         case None => true
         case Some(a) =>
           && FindAccount(db.accounts, a.id) == Some(a)
           && (HasIdentity(db.identities, a.id) <==> HasIdentity(db0.identities, a.id))
       }
  }

  /** One sign-in has won; everybody finds its account. */
  ghost predicate Won(db0: Db, r: Request, db: Db, user: UserId) {
    && FindSubject(db.identities, r.subject) == Some(user) && RowsFor(db.identities, r.subject) == 1
    && FindEmail(db.accounts, r.email) == Some(Winner(db0, r, user)) && Winner(db0, r, user).id == user
    && AccountsWith(db.accounts, r.email) == 1
    && FindAccount(db.accounts, user) == Some(Winner(db0, r, user))
  }

  ghost predicate FlightOpen(db0: Db, r: Request, split: bool, p: Phase) {
    || p == Idle(1)
    || (split && p == Looked(1))
    || p == Decided(1, First(db0, r))
  }

  ghost predicate FlightWon(db0: Db, r: Request, split: bool, user: UserId, p: Phase) {
    || FlightOpen(db0, r, split, p)
    || (split && p == Decided(1, LinkExisting(user)))
    || p == Idle(2)
    || p == Decided(1, SignInExisting(user)) || p == Decided(2, SignInExisting(user))
    || p == Done(SignedIn(user))
  }

  ghost predicate StillOpen(db0: Db, r: Request, split: bool, s: Sys) {
    Open(db0, r, s.db) && forall i :: 0 <= i < |s.flights| ==> FlightOpen(db0, r, split, s.flights[i])
  }

  ghost predicate AlreadyWon(db0: Db, r: Request, split: bool, s: Sys, user: UserId) {
    Won(db0, r, s.db, user) && forall i :: 0 <= i < |s.flights| ==> FlightWon(db0, r, split, user, s.flights[i])
  }

  ghost predicate Inv(db0: Db, r: Request, split: bool, s: Sys) {
    StillOpen(db0, r, split, s) || exists user :: AlreadyWon(db0, r, split, s, user)
  }

  lemma AllowedOnce(db0: Db, r: Request)
    requires Ready(db0, r)
    ensures forall user :: MaySignIn(Some(Winner(db0, r, user)))
  {
  }

  // ---- reads ----

  lemma UnknownWhileOpen(db0: Db, r: Request, db: Db)
    requires Ready(db0, r) && Open(db0, r, db)
    ensures Unknown(db, r) == First(db0, r) && Classify(db, r) == First(db0, r)
  {
  }

  lemma KnownOnceWon(db0: Db, r: Request, db: Db, user: UserId)
    requires Ready(db0, r) && Won(db0, r, db, user)
    ensures Classify(db, r) == SignInExisting(user) == Known(db, user)
  {
    AllowedOnce(db0, r);
  }

  lemma LinksOnceWon(db0: Db, r: Request, db: Db, user: UserId)
    requires Ready(db0, r) && Won(db0, r, db, user) && LinksAgain(db0, r)
    ensures Unknown(db, r) == LinkExisting(user)
  {
    assert DenyReasons(r, Winner(db0, r, user), true) == [];
    assert DenyReasons(r, Winner(db0, r, user), false) == [];
  }

  // ---- steps ----

  lemma ReadsKeepOpen(db0: Db, r: Request, split: bool, s: Sys, a: Action)
    requires Ready(db0, r) && StillOpen(db0, r, split, s)
    requires a.Look? || (split && (a.ReadSubject? || a.ReadRest?))
    ensures StillOpen(db0, r, split, Step(r, s, a))
  {
    UnknownWhileOpen(db0, r, s.db);
  }

  lemma ReadsKeepWon(db0: Db, r: Request, split: bool, s: Sys, a: Action, user: UserId)
    requires Ready(db0, r) && AlreadyWon(db0, r, split, s, user) && (split ==> LinksAgain(db0, r))
    requires a.Look? || (split && (a.ReadSubject? || a.ReadRest?))
    ensures AlreadyWon(db0, r, split, Step(r, s, a), user)
  {
    KnownOnceWon(db0, r, s.db, user);
    if split {
      LinksOnceWon(db0, r, s.db, user);
    }
  }

  lemma CommitKeepsWon(db0: Db, r: Request, split: bool, s: Sys, a: Action, user: UserId)
    requires AlreadyWon(db0, r, split, s, user) && a.Commit?
    ensures AlreadyWon(db0, r, split, Step(r, s, a), user)
  {
    if a.k < |s.flights| && s.flights[a.k].Decided? && Fresh(s.db, a.newId) {
      assert FlightWon(db0, r, split, user, s.flights[a.k]);
      assert Violates(s.db, r, s.flights[a.k].decision) || s.flights[a.k].decision == SignInExisting(user);
    }
  }

  lemma FirstCommitWins(db0: Db, r: Request, db: Db, newId: UserId)
    requires Ready(db0, r) && Open(db0, r, db) && Fresh(db, newId)
    ensures !Violates(db, r, First(db0, r))
    ensures Won(db0, r, Written(db, r, First(db0, r), newId), SignedInAs(First(db0, r), newId))
  {
    var d := First(db0, r);
    var user := SignedInAs(d, newId);
    AppendRow(db.identities, Identity(r.subject, user), r.subject);
    if d.ProvisionNew? {
      FreshIsUnknown(db.accounts, newId);
      AppendAccount(db.accounts, NewAccount(r, newId), r.email, newId);
    }
  }

  lemma CommitFromOpen(db0: Db, r: Request, split: bool, s: Sys, a: Action)
    requires Ready(db0, r) && StillOpen(db0, r, split, s) && a.Commit?
    ensures Inv(db0, r, split, Step(r, s, a))
  {
    if a.k < |s.flights| && s.flights[a.k].Decided? && Fresh(s.db, a.newId) {
      FirstCommitWins(db0, r, s.db, a.newId);
      assert FlightOpen(db0, r, split, s.flights[a.k]);
      var user := SignedInAs(First(db0, r), a.newId);
      var s' := Step(r, s, a);
      assert AlreadyWon(db0, r, split, s', user);
    }
  }

  lemma OthersKeepOpen(db0: Db, r: Request, split: bool, s: Sys, a: Action)
    requires StillOpen(db0, r, split, s) && (a.OtherAccount? || a.OtherIdentity?)
    ensures StillOpen(db0, r, split, Step(r, s, a))
  {
    if Unrelated(s.db, r, a) {
      var mine := FindEmail(db0.accounts, r.email);
      if a.OtherAccount? {
        AppendAccount(s.db.accounts, a.a, r.email, if mine.Some? then mine.value.id else 0);
      } else {
        AppendRow(s.db.identities, a.row, r.subject);
        if mine.Some? {
          HasIdentityAppend(s.db.identities, a.row, mine.value.id);
        }
      }
    }
  }

  lemma OthersKeepWon(db0: Db, r: Request, split: bool, s: Sys, a: Action, user: UserId)
    requires AlreadyWon(db0, r, split, s, user) && (a.OtherAccount? || a.OtherIdentity?)
    ensures AlreadyWon(db0, r, split, Step(r, s, a), user)
  {
    if Unrelated(s.db, r, a) {
      if a.OtherAccount? {
        AppendAccount(s.db.accounts, a.a, r.email, user);
      } else {
        AppendRow(s.db.identities, a.row, r.subject);
      }
    }
  }

  lemma StepKeeps(db0: Db, r: Request, split: bool, s: Sys, a: Action)
    requires Ready(db0, r) && Inv(db0, r, split, s) && (if split then LinksAgain(db0, r) else Snapshot(a))
    ensures Inv(db0, r, split, Step(r, s, a))
  {
    if StillOpen(db0, r, split, s) {
      if a.Commit? {
        CommitFromOpen(db0, r, split, s, a);
      } else if a.OtherAccount? || a.OtherIdentity? {
        OthersKeepOpen(db0, r, split, s, a);
      } else {
        ReadsKeepOpen(db0, r, split, s, a);
      }
    } else {
      var user :| AlreadyWon(db0, r, split, s, user);
      if a.Commit? {
        CommitKeepsWon(db0, r, split, s, a, user);
      } else if a.OtherAccount? || a.OtherIdentity? {
        OthersKeepWon(db0, r, split, s, a, user);
      } else {
        ReadsKeepWon(db0, r, split, s, a, user);
      }
    }
  }

  lemma {:induction false} Reachable(db0: Db, r: Request, split: bool, n: nat, acts: seq<Action>)
    requires Ready(db0, r)
    requires if split then LinksAgain(db0, r) else forall i :: 0 <= i < |acts| ==> Snapshot(acts[i])
    ensures Inv(db0, r, split, Play(r, db0, n, acts))
    decreases |acts|
  {
    if acts == [] {
      assert StillOpen(db0, r, split, Start(db0, n));
    } else {
      Reachable(db0, r, split, n, acts[..|acts| - 1]);
      StepKeeps(db0, r, split, Play(r, db0, n, acts[..|acts| - 1]), acts[|acts| - 1]);
    }
  }

  // ---- what it comes to ----

  /**
   A sign-in that has ended is signed in, to the one account and the one identity row, and one
   that has not is at most in its second attempt.
   */
  ghost predicate AllEndWell(r: Request, s: Sys) {
    (forall k :: 0 <= k < |s.flights| && !s.flights[k].Done? ==> 1 <= s.flights[k].attempt <= 2) &&
    forall k :: 0 <= k < |s.flights| && s.flights[k].Done? ==>
      && s.flights[k].outcome.SignedIn?
      && FindSubject(s.db.identities, r.subject) == Some(s.flights[k].outcome.user)
      && RowsFor(s.db.identities, r.subject) == 1
      && AccountsWith(s.db.accounts, r.email) == 1
      && FindEmail(s.db.accounts, r.email).Some?
      && FindEmail(s.db.accounts, r.email).value.id == s.flights[k].outcome.user
  }

  /**
   Reading from one snapshot, any number of first sign-ins in any order of reads and commits,
   with strangers signing up in between: whoever has ended is signed in, within two attempts,
   and there is exactly one account and one identity row.
   */
  lemma ConcurrentFirstSignIns(db0: Db, r: Request, n: nat, acts: seq<Action>)
    requires Ready(db0, r) && forall i :: 0 <= i < |acts| ==> Snapshot(acts[i])
    ensures AllEndWell(r, Play(r, db0, n, acts))
  {
    Reachable(db0, r, false, n, acts);
  }

  /** Every list of actions over `n` sign-ins ends well, whatever is committed between two reads. */
  ghost predicate SafeUnderSplitReads(db0: Db, r: Request, n: nat) {
    forall acts :: AllEndWell(r, Play(r, db0, n, acts))
  }

  /** The loser looks the subject up, the winner commits, then the loser reads the email. */
  function Overtaken(newId: UserId): seq<Action> {
    [ReadSubject(0), Look(1), Commit(1, newId), ReadRest(0)]
  }

  lemma PlayOneMore(r: Request, db: Db, n: nat, acts: seq<Action>, a: Action)
    ensures Play(r, db, n, acts + [a]) == Step(r, Play(r, db, n, acts), a)
  {
    assert (acts + [a])[..|acts|] == acts;
  }

  lemma PlayOvertaken(r: Request, db: Db, n: nat, newId: UserId)
    ensures Play(r, db, n, Overtaken(newId))
         == Step(r, Step(r, Step(r, Step(r, Start(db, n), ReadSubject(0)), Look(1)), Commit(1, newId)), ReadRest(0))
  {
    PlayOneMore(r, db, n, [], ReadSubject(0));
    PlayOneMore(r, db, n, [] + [ReadSubject(0)], Look(1));
    PlayOneMore(r, db, n, [] + [ReadSubject(0)] + [Look(1)], Commit(1, newId));
    PlayOneMore(r, db, n, [] + [ReadSubject(0)] + [Look(1)] + [Commit(1, newId)], ReadRest(0));
    assert Overtaken(newId) == [] + [ReadSubject(0)] + [Look(1)] + [Commit(1, newId)] + [ReadRest(0)];
  }

  /** The winner's side of the overtaking: its commit leaves the loser half read. */
  lemma Overtakes(db0: Db, r: Request, n: nat, newId: UserId, s: Sys)
    requires Ready(db0, r) && n >= 2 && Fresh(db0, newId)
    requires s == Step(r, Step(r, Step(r, Start(db0, n), ReadSubject(0)), Look(1)), Commit(1, newId))
    ensures |s.flights| == n && s.flights[0] == Looked(1)
    ensures s.db == Written(db0, r, First(db0, r), newId)
    ensures Won(db0, r, s.db, SignedInAs(First(db0, r), newId))
  {
    UnknownWhileOpen(db0, r, db0);
    FirstCommitWins(db0, r, db0, newId);
  }

  lemma LoserIsRefused(db0: Db, r: Request, n: nat, newId: UserId)
    requires Ready(db0, r) && n >= 2 && Fresh(db0, newId) && !LinksAgain(db0, r)
    ensures !AllEndWell(r, Play(r, db0, n, Overtaken(newId)))
  {
    PlayOvertaken(r, db0, n, newId);
    var s3 := Step(r, Step(r, Step(r, Start(db0, n), ReadSubject(0)), Look(1)), Commit(1, newId));
    Overtakes(db0, r, n, newId, s3);
    var user := SignedInAs(First(db0, r), newId);
    HasIdentityAppend(db0.identities, Identity(r.subject, user), user);
    assert DenyReasons(r, Winner(db0, r, user), true) == DenyReasons(r, Winner(db0, r, 0), true);
    var s4 := Step(r, s3, ReadRest(0));
    assert s4.flights[0].Done? && s4.flights[0].outcome.Refused?;
  }

  /** Some id is unused. */
  lemma {:induction false} SomeFresh(accounts: seq<Account>, rows: seq<Identity>) returns (id: UserId)
    ensures Fresh(Db(accounts, rows), id)
    ensures (forall i :: 0 <= i < |accounts| ==> accounts[i].id < id)
    ensures (forall i :: 0 <= i < |rows| ==> rows[i].user < id)
    decreases |accounts| + |rows|
  {
    if accounts != [] {
      var n := |accounts| - 1;
      id := SomeFresh(accounts[..n], rows);
      id := Max(id, accounts[n].id + 1);
    } else if rows != [] {
      var n := |rows| - 1;
      id := SomeFresh(accounts, rows[..n]);
      id := Max(id, rows[n].user + 1);
    } else {
      id := 0;
    }
  }

  /**
   When an attempt's two lookups may see different commits, racing first sign-ins all end well
   exactly when the connection would also link an account that already holds an identity. Under
   the strict policy it would not, so a loser can be refused.
   */
  lemma SplitReadsSafeExactlyWhen(db0: Db, r: Request, n: nat)
    requires Ready(db0, r) && n >= 2
    ensures SafeUnderSplitReads(db0, r, n) <==> LinksAgain(db0, r)
  {
    if LinksAgain(db0, r) {
      forall acts ensures AllEndWell(r, Play(r, db0, n, acts)) {
        Reachable(db0, r, true, n, acts);
      }
    } else {
      var newId := SomeFresh(db0.accounts, db0.identities);
      assert Db(db0.accounts, db0.identities) == db0;
      LoserIsRefused(db0, r, n, newId);
    }
  }
}
