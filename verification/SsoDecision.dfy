/** Which branch a first sign-in takes, said of the tables and the connection alone. */
module SsoDecision {
  import opened Options
  import opened SsoSignIn

  // ---- the tables ----

  /** The first row of the subject ties it to `u`. */
  ghost predicate BelongsTo(db: Db, s: Subject, u: UserId) {
    exists i :: 0 <= i < |db.identities| && db.identities[i] == Identity(s, u)
             && forall j :: 0 <= j < i ==> db.identities[j].subject != s
  }

  ghost predicate IsNew(db: Db, s: Subject) {
    forall i :: 0 <= i < |db.identities| ==> db.identities[i].subject != s
  }

  ghost predicate HasId(db: Db, a: Account) {
    exists i :: 0 <= i < |db.accounts| && db.accounts[i] == a
             && forall j :: 0 <= j < i ==> db.accounts[j].id != a.id
  }

  ghost predicate HasEmail(db: Db, email: Email, a: Account) {
    exists i :: 0 <= i < |db.accounts| && db.accounts[i] == a && a.email == email
             && forall j :: 0 <= j < i ==> db.accounts[j].email != email
  }

  ghost predicate NobodyHasEmail(db: Db, email: Email) {
    forall i :: 0 <= i < |db.accounts| ==> db.accounts[i].email != email
  }

  lemma {:induction false} SubjectFound(rows: seq<Identity>, s: Subject) returns (i: nat)
    ensures i <= |rows| && forall j :: 0 <= j < i ==> rows[j].subject != s
    ensures i < |rows| ==> rows[i].subject == s
    ensures FindSubject(rows, s) == if i < |rows| then Some(rows[i].user) else None
    decreases |rows|
  {
    if rows == [] || rows[0].subject == s {
      i := 0;
    } else {
      var k := SubjectFound(rows[1..], s);
      i := k + 1;
      assert forall j :: 1 <= j < i ==> rows[j] == rows[1..][j - 1];
    }
  }

  lemma {:induction false} AccountFound(accounts: seq<Account>, id: UserId) returns (i: nat)
    ensures i <= |accounts| && forall j :: 0 <= j < i ==> accounts[j].id != id
    ensures i < |accounts| ==> accounts[i].id == id
    ensures FindAccount(accounts, id) == if i < |accounts| then Some(accounts[i]) else None
    decreases |accounts|
  {
    if accounts == [] || accounts[0].id == id {
      i := 0;
    } else {
      var k := AccountFound(accounts[1..], id);
      i := k + 1;
      assert forall j :: 1 <= j < i ==> accounts[j] == accounts[1..][j - 1];
    }
  }

  lemma {:induction false} EmailFound(accounts: seq<Account>, email: Email) returns (i: nat)
    ensures i <= |accounts| && forall j :: 0 <= j < i ==> accounts[j].email != email
    ensures i < |accounts| ==> accounts[i].email == email
    ensures FindEmail(accounts, email) == if i < |accounts| then Some(accounts[i]) else None
    decreases |accounts|
  {
    if accounts == [] || accounts[0].email == email {
      i := 0;
    } else {
      var k := EmailFound(accounts[1..], email);
      i := k + 1;
      assert forall j :: 1 <= j < i ==> accounts[j] == accounts[1..][j - 1];
    }
  }

  lemma SubjectIs(db: Db, s: Subject, u: UserId)
    ensures FindSubject(db.identities, s) == Some(u) <==> BelongsTo(db, s, u)
    ensures FindSubject(db.identities, s).None? <==> IsNew(db, s)
  {
    var i := SubjectFound(db.identities, s);
  }

  lemma AccountIs(db: Db, a: Account)
    ensures FindAccount(db.accounts, a.id) == Some(a) <==> HasId(db, a)
  {
    var i := AccountFound(db.accounts, a.id);
  }

  lemma EmailIs(db: Db, email: Email, a: Account)
    ensures FindEmail(db.accounts, email) == Some(a) <==> HasEmail(db, email, a)
    ensures FindEmail(db.accounts, email).None? <==> NobodyHasEmail(db, email)
  {
    var i := EmailFound(db.accounts, email);
  }

  // ---- the branches ----

  /** Someone may sign in as this account. */
  predicate Usable(a: Account) {
    a.active && !a.deleted && !a.service
  }

  /** A known subject signs in, exactly where its account is one that may. */
  lemma SignsInExactlyWhen(db: Db, r: Request, u: UserId)
    ensures Classify(db, r) == SignInExisting(u)
       <==> BelongsTo(db, r.subject, u) && exists a :: HasId(db, a) && a.id == u && Usable(a)
  {
    SubjectIs(db, r.subject, u);
    var found := FindAccount(db.accounts, u);
    if found.Some? {
      AccountIs(db, found.value);
    }
    forall a | HasId(db, a) && a.id == u ensures found == Some(a) {
      AccountIs(db, a);
    }
    if Classify(db, r) == SignInExisting(u) {
      assert HasId(db, found.value) && found.value.id == u && Usable(found.value);
    }
  }

  /** What has to hold for an account to be linked because its email is the one asserted. */
  ghost predicate Linkable(db: Db, r: Request, a: Account) {
    && (r.policy == Strict || r.policy == AllowVerified) && r.emailVerified && Usable(a)
    && (r.weak ==> r.canTellAdmins && !a.runsPlatform)
    && (r.policy == Strict ==> forall i :: 0 <= i < |db.identities| ==> db.identities[i].user != a.id)
  }

  lemma NoReasonExactlyWhen(db: Db, r: Request, a: Account)
    ensures DenyReasons(r, a, HasIdentity(db.identities, a.id)) == [] <==> Linkable(db, r, a)
  {
  }

  /**
   A new subject is linked by its email exactly to the account that has that email, and exactly when the
   policy links at all, the email is verified, the account may sign in, the connection is trusted with
   it, and under the strict policy the account has no identity yet.
   */
  lemma LinksByEmailExactlyWhen(db: Db, r: Request, u: UserId)
    ensures Classify(db, r) == LinkExisting(u)
       <==> && IsNew(db, r.subject) && r.intent.None?
            && exists a :: HasEmail(db, r.email, a) && a.id == u && Linkable(db, r, a)
  {
    SubjectIs(db, r.subject, u);
    var found := FindEmail(db.accounts, r.email);
    if found.Some? {
      EmailIs(db, r.email, found.value);
      NoReasonExactlyWhen(db, r, found.value);
    }
    forall a | HasEmail(db, r.email, a) ensures found == Some(a) {
      EmailIs(db, r.email, a);
    }
    if Classify(db, r) == LinkExisting(u) {
      assert HasEmail(db, r.email, found.value) && found.value.id == u && Linkable(db, r, found.value);
    }
  }

  /** When a reason to refuse a link applies. */
  ghost predicate Applies(db: Db, r: Request, a: Account, reason: DenyReason) {
    match reason
    case PolicyForbids => r.policy == ManualOnly || r.policy == Disabled
    case UnverifiedConnection => r.weak && (!r.canTellAdmins || a.runsPlatform)
    case EmailUnverified => !r.emailVerified
    case ExistingStatus => !a.active
    case ExistingDeleted => a.deleted
    case ServiceAccount => a.service
    case StrictExistingSso =>
      r.policy == Strict && exists i :: 0 <= i < |db.identities| && db.identities[i].user == a.id
  }

  lemma InWhen(front: seq<DenyReason>, b: bool, x: DenyReason, reason: DenyReason)
    ensures reason in front + When(b, x) <==> reason in front || (b && reason == x)
  {
  }

  lemma ReasonsApply(db: Db, r: Request, a: Account, reason: DenyReason)
    ensures reason in DenyReasons(r, a, HasIdentity(db.identities, a.id)) <==> Applies(db, r, a, reason)
  {
    var known := HasIdentity(db.identities, a.id);
    var s1 := When(r.policy == ManualOnly || r.policy == Disabled, PolicyForbids);
    var s2 := s1 + When(WeakClaimOnAdmin(r, a), UnverifiedConnection);
    var s3 := s2 + When(!r.emailVerified, EmailUnverified);
    var s4 := s3 + When(!a.active, ExistingStatus);
    var s5 := s4 + When(a.deleted, ExistingDeleted);
    var s6 := s5 + When(a.service, ServiceAccount);
    InWhen(s1, WeakClaimOnAdmin(r, a), UnverifiedConnection, reason);
    InWhen(s2, !r.emailVerified, EmailUnverified, reason);
    InWhen(s3, !a.active, ExistingStatus, reason);
    InWhen(s4, a.deleted, ExistingDeleted, reason);
    InWhen(s5, a.service, ServiceAccount, reason);
    InWhen(s6, r.policy == Strict && known, StrictExistingSso, reason);
  }

  /** Otherwise the refusal names every reason that applies to the account, and no other. */
  lemma RefusalNamesItsReasons(db: Db, r: Request, a: Account, reason: DenyReason)
    requires IsNew(db, r.subject) && r.intent.None? && HasEmail(db, r.email, a) && !Linkable(db, r, a)
    ensures Classify(db, r).Rejected? && Classify(db, r).why.UnsafeAutoLink?
    ensures reason in Classify(db, r).why.reasons <==> Applies(db, r, a, reason)
  {
    SubjectIs(db, r.subject, 0);
    EmailIs(db, r.email, a);
    NoReasonExactlyWhen(db, r, a);
    ReasonsApply(db, r, a, reason);
  }

  /** A new account exactly where the subject is new, nobody has the email, and that is allowed. */
  lemma ProvisionsExactlyWhen(db: Db, r: Request)
    ensures Classify(db, r) == ProvisionNew
       <==> IsNew(db, r.subject) && r.intent.None? && NobodyHasEmail(db, r.email) && r.allowJit
  {
    SubjectIs(db, r.subject, 0);
    EmailIs(db, r.email, Account(0, r.email, false, false, false, false));
  }

  /** A signed-in user's own link, exactly to that user, while the account is there and active. */
  lemma LinksOnRequestExactlyWhen(db: Db, r: Request, u: UserId)
    ensures Classify(db, r) == LinkIntent(u)
       <==> && IsNew(db, r.subject) && r.intent == Some(u)
            && exists a :: HasId(db, a) && a.id == u && a.active && !a.deleted
  {
    SubjectIs(db, r.subject, u);
    var found := FindAccount(db.accounts, u);
    if found.Some? {
      AccountIs(db, found.value);
    }
    forall a | HasId(db, a) && a.id == u ensures found == Some(a) {
      AccountIs(db, a);
    }
    if Classify(db, r) == LinkIntent(u) {
      assert HasId(db, found.value) && found.value.id == u;
    }
  }

  // ---- the writes ----

  /** What a committed attempt leaves: the subject belongs to whoever signed in, and nobody else changed. */
  ghost predicate SignedInBy(db: Db, r: Request, d: Decision, u: UserId, db': Db) {
    && db'.accounts[..Min(|db.accounts|, |db'.accounts|)] == db.accounts
    && db'.identities[..Min(|db.identities|, |db'.identities|)] == db.identities
    && |db'.accounts| == |db.accounts| + (if d.ProvisionNew? then 1 else 0)
    && |db'.identities| == |db.identities| + (if d.SignInExisting? then 0 else 1)
    && (!d.SignInExisting? ==> BelongsTo(db', r.subject, u))
    && (d.ProvisionNew? ==> exists a :: HasEmail(db', r.email, a) && HasId(db', a) && a.id == u
                                         && Usable(a) && !a.runsPlatform)
  }

  lemma CommitSignsIn(db: Db, r: Request, d: Decision, newId: UserId)
    requires !d.Rejected? && !Violates(db, r, d) && Fresh(db, newId)
    ensures SignedInBy(db, r, d, SignedInAs(d, newId), Written(db, r, d, newId))
    ensures SignedInAs(d, newId) == match d
                                    case SignInExisting(u) => u
                                    case LinkIntent(u) => u
                                    case LinkExisting(u) => u
                                    case _ => newId
  {
    var u, db' := SignedInAs(d, newId), Written(db, r, d, newId);
    SubjectIs(db, r.subject, u);
    if !d.SignInExisting? {
      assert db'.identities[|db.identities|] == Identity(r.subject, u);
    }
    if d.ProvisionNew? {
      EmailIs(db, r.email, NewAccount(r, newId));
      assert db'.accounts[|db.accounts|] == NewAccount(r, newId);
      assert HasEmail(db', r.email, NewAccount(r, newId)) && HasId(db', NewAccount(r, newId));
    }
  }
}
