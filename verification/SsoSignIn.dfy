/** Single sign-on: which account a verified identity means, and the writes that follow. */
module SsoSignIn {
  import opened Options

  type UserId = nat
  type Email = nat

  datatype Account = Account(id: UserId, email: Email, active: bool, deleted: bool, service: bool, runsPlatform: bool)

  datatype Subject = Subject(provider: nat, external: nat)

  /** A row that ties one provider's subject to an account. */
  datatype Identity = Identity(subject: Subject, user: UserId)

  datatype Db = Db(accounts: seq<Account>, identities: seq<Identity>)

  datatype Policy = Strict | AllowVerified | ManualOnly | Disabled

  /**
   A verified identity and how its connection is configured. `weak`: the connection's
   assurance is below verified and it may not link administrators. `canTellAdmins`: there is
   something to answer whether an account runs the platform.
   */
  datatype Request = Request(
    subject: Subject, email: Email, emailVerified: bool, policy: Policy, weak: bool,
    canTellAdmins: bool, allowJit: bool, intent: Option<UserId>)

  datatype DenyReason =
    | PolicyForbids
    | UnverifiedConnection
    | EmailUnverified
    | ExistingStatus
    | ExistingDeleted
    | ServiceAccount
    | StrictExistingSso

  datatype Refusal = AccountInactive | LinkTargetInactive | JitDisabled | UnsafeAutoLink(reasons: seq<DenyReason>)

  datatype Decision =
    | Rejected(why: Refusal)
    | SignInExisting(user: UserId)
    | LinkIntent(user: UserId)
    | LinkExisting(user: UserId)
    | ProvisionNew

  // ---- reads ----

  function FindAccount(accounts: seq<Account>, id: UserId): (r: Option<Account>)
    ensures r.Some? ==> r.value in accounts && r.value.id == id
  {
    if accounts == [] then None else if accounts[0].id == id then Some(accounts[0]) else FindAccount(accounts[1..], id)
  }

  function FindEmail(accounts: seq<Account>, email: Email): (r: Option<Account>)
    ensures r.Some? ==> r.value in accounts && r.value.email == email
  {
    if accounts == [] then None
    else if accounts[0].email == email then Some(accounts[0]) else FindEmail(accounts[1..], email)
  }

  function FindSubject(rows: seq<Identity>, s: Subject): (r: Option<UserId>) {
    if rows == [] then None else if rows[0].subject == s then Some(rows[0].user) else FindSubject(rows[1..], s)
  }

  predicate HasIdentity(rows: seq<Identity>, id: UserId) {
    exists i :: 0 <= i < |rows| && rows[i].user == id
  }

  // ---- the decision ----

  predicate WeakClaimOnAdmin(r: Request, a: Account) {
    r.weak && (a.runsPlatform || !r.canTellAdmins)
  }

  function When(b: bool, reason: DenyReason): seq<DenyReason> {
    if b then [reason] else []
  }

  function DenyReasons(r: Request, a: Account, hasIdentity: bool): seq<DenyReason> {
    When(r.policy == ManualOnly || r.policy == Disabled, PolicyForbids)
    + When(WeakClaimOnAdmin(r, a), UnverifiedConnection)
    + When(!r.emailVerified, EmailUnverified)
    + When(!a.active, ExistingStatus)
    + When(a.deleted, ExistingDeleted)
    + When(a.service, ServiceAccount)
    + When(r.policy == Strict && hasIdentity, StrictExistingSso)
  }

  predicate MaySignIn(a: Option<Account>) {
    a.Some? && !a.value.deleted && a.value.active && !a.value.service
  }

  predicate MayLinkTo(a: Option<Account>) {
    a.Some? && !a.value.deleted && a.value.active
  }

  /** The subject is known. */
  function Known(db: Db, user: UserId): Decision {
    if MaySignIn(FindAccount(db.accounts, user)) then SignInExisting(user) else Rejected(AccountInactive)
  }

  /** The subject was not found when it was looked up. */
  function Unknown(db: Db, r: Request): Decision {
    if r.intent.Some? then
      if MayLinkTo(FindAccount(db.accounts, r.intent.value))
      then LinkIntent(r.intent.value) else Rejected(LinkTargetInactive)
    else
      match FindEmail(db.accounts, r.email)
      case None => if r.allowJit then ProvisionNew else Rejected(JitDisabled)
      case Some(a) =>
        var reasons := DenyReasons(r, a, HasIdentity(db.identities, a.id));
        if reasons != [] then Rejected(UnsafeAutoLink(reasons)) else LinkExisting(a.id)
  }

  function Classify(db: Db, r: Request): Decision {
    match FindSubject(db.identities, r.subject)
    case Some(user) => Known(db, user)
    case None => Unknown(db, r)
  }

  // ---- the writes of one attempt, in one transaction ----

  function NewAccount(r: Request, id: UserId): Account {
    Account(id, r.email, true, false, false, false)
  }

  predicate Fresh(db: Db, id: UserId) {
    && (forall i :: 0 <= i < |db.accounts| ==> db.accounts[i].id != id)
    && (forall i :: 0 <= i < |db.identities| ==> db.identities[i].user != id)
  }

  /** The unique constraints on (provider, subject) and on the email refuse the transaction. */
  predicate Violates(db: Db, r: Request, d: Decision) {
    match d
    case Rejected(_) => false
    case SignInExisting(_) => false
    case LinkIntent(_) => FindSubject(db.identities, r.subject).Some?
    case LinkExisting(_) => FindSubject(db.identities, r.subject).Some?
    case ProvisionNew => FindEmail(db.accounts, r.email).Some? || FindSubject(db.identities, r.subject).Some?
  }

  function Written(db: Db, r: Request, d: Decision, newId: UserId): Db {
    match d
    case Rejected(_) => db
    case SignInExisting(_) => db
    case LinkIntent(u) => db.(identities := db.identities + [Identity(r.subject, u)])
    case LinkExisting(u) => db.(identities := db.identities + [Identity(r.subject, u)])
    case ProvisionNew => Db(db.accounts + [NewAccount(r, newId)], db.identities + [Identity(r.subject, newId)])
  }

  function SignedInAs(d: Decision, newId: UserId): UserId {
    match d
    case SignInExisting(u) => u
    case LinkIntent(u) => u
    case LinkExisting(u) => u
    case ProvisionNew => newId
    case Rejected(_) => 0
  }

  // ---- sign-ins that run at once, all with the same identity ----

  datatype Outcome = SignedIn(user: UserId) | Refused(why: Refusal) | AccountConflict

  /** `Looked`: the subject was looked up and not found, the rest is still to be read. */
  datatype Phase =
    | Idle(attempt: nat)
    | Looked(attempt: nat)
    | Decided(attempt: nat, decision: Decision)
    | Done(outcome: Outcome)

  datatype Sys = Sys(db: Db, flights: seq<Phase>)

  datatype Action =
    | Look(k: nat)
    | ReadSubject(k: nat)
    | ReadRest(k: nat)
    | Commit(k: nat, newId: UserId)
    | OtherAccount(a: Account)
    | OtherIdentity(row: Identity)

  function Start(db: Db, n: nat): Sys {
    Sys(db, seq(n, _ => Idle(1)))
  }

  function Settle(attempt: nat, d: Decision): Phase {
    if d.Rejected? then Done(Refused(d.why)) else Decided(attempt, d)
  }

  /** Losing to a unique constraint: once more, then refused. */
  function Lost(attempt: nat): Phase {
    if attempt < 2 then Idle(attempt + 1) else Done(AccountConflict)
  }

  function Moved(s: Sys, k: nat, p: Phase): Sys
    requires k < |s.flights|
  {
    s.(flights := s.flights[k := p])
  }

  /** Other people: never this email, never this subject, never this email's account. */
  predicate Unrelated(db: Db, r: Request, a: Action) {
    match a
    case OtherAccount(acc) => acc.email != r.email && Fresh(db, acc.id)
    case OtherIdentity(row) =>
      var mine := FindEmail(db.accounts, r.email);
      row.subject != r.subject && (mine.Some? ==> row.user != mine.value.id)
      && !Fresh(db, row.user)
    case _ => true
  }

  function Step(r: Request, s: Sys, a: Action): Sys {
    match a
    case Look(k) =>
      if k < |s.flights| && s.flights[k].Idle? then Moved(s, k, Settle(s.flights[k].attempt, Classify(s.db, r))) else s
    case ReadSubject(k) =>
      if k < |s.flights| && s.flights[k].Idle? then
        match FindSubject(s.db.identities, r.subject)
        case Some(user) => Moved(s, k, Settle(s.flights[k].attempt, Known(s.db, user)))
        case None => Moved(s, k, Looked(s.flights[k].attempt))
      else s
    case ReadRest(k) =>
      if k < |s.flights| && s.flights[k].Looked? then Moved(s, k, Settle(s.flights[k].attempt, Unknown(s.db, r))) else s
    case Commit(k, newId) =>
      if k < |s.flights| && s.flights[k].Decided? && Fresh(s.db, newId) then
        var d := s.flights[k].decision;
        if Violates(s.db, r, d) then Moved(s, k, Lost(s.flights[k].attempt))
        else Moved(s, k, Done(SignedIn(SignedInAs(d, newId)))).(db := Written(s.db, r, d, newId))
      else s
    case OtherAccount(acc) =>
      if Unrelated(s.db, r, a) then s.(db := s.db.(accounts := s.db.accounts + [acc])) else s
    case OtherIdentity(row) =>
      if Unrelated(s.db, r, a) then s.(db := s.db.(identities := s.db.identities + [row])) else s
  }

  function Play(r: Request, db: Db, n: nat, acts: seq<Action>): Sys {
    if acts == [] then Start(db, n) else Step(r, Play(r, db, n, acts[..|acts| - 1]), acts[|acts| - 1])
  }

  /** Every attempt reads from one snapshot. */
  predicate Snapshot(a: Action) {
    !a.ReadSubject? && !a.ReadRest?
  }

  // ---- the directory ----

  class Directory {
    var accounts: seq<Account>
    var identities: seq<Identity>

    function Tables(): Db
      reads this
    {
      Db(accounts, identities)
    }

    constructor (db: Db)
      ensures Tables() == db
    {
      accounts, identities := db.accounts, db.identities;
    }

    /** One attempt's transaction after its reads: all of its writes or none. */
    method CommitAttempt(r: Request, d: Decision, newId: UserId) returns (conflict: bool, user: UserId)
      requires !d.Rejected?
      modifies this
      ensures conflict <==> Violates(old(Tables()), r, d)
      ensures Tables() == if conflict then old(Tables()) else Written(old(Tables()), r, d, newId)
      ensures !conflict ==> user == SignedInAs(d, newId)
    {
      conflict, user := false, 0;
      if d.SignInExisting? {
        user := d.user;
      } else if d.ProvisionNew? {
        if FindEmail(accounts, r.email).Some? || FindSubject(identities, r.subject).Some? {
          conflict := true;
          return;
        }
        accounts := accounts + [NewAccount(r, newId)];
        identities := identities + [Identity(r.subject, newId)];
        user := newId;
      } else {
        user := d.user;
        if FindSubject(identities, r.subject).Some? {
          conflict := true;
          return;
        }
        identities := identities + [Identity(r.subject, user)];
      }
    }

    /**
     The whole sign-in. Others commit while it waits: `rivals` is what the tables hold before
     its first commit, before it reads again, and before its second commit.
     */
    method CompleteSsoLogin(r: Request, newId: UserId, rivals: seq<Db>) returns (o: Outcome)
      requires |rivals| == 3
      modifies this
      ensures o == Completed(old(Tables()), rivals, r, newId).0
      ensures !Classify(old(Tables()), r).Rejected? ==> Tables() == Completed(old(Tables()), rivals, r, newId).1
    {
      var d := Classify(Tables(), r);
      if d.Rejected? {
        return Refused(d.why);
      }
      accounts, identities := rivals[0].accounts, rivals[0].identities;
      var conflict, user := CommitAttempt(r, d, newId);
      if !conflict {
        return SignedIn(user);
      }
      accounts, identities := rivals[1].accounts, rivals[1].identities;
      d := Classify(Tables(), r);
      if d.Rejected? {
        return Refused(d.why);
      }
      accounts, identities := rivals[2].accounts, rivals[2].identities;
      conflict, user := CommitAttempt(r, d, newId);
      o := if conflict then AccountConflict else SignedIn(user);
    }
  }

  function Completed(db: Db, rivals: seq<Db>, r: Request, newId: UserId): (Outcome, Db)
    requires |rivals| == 3
  {
    var d := Classify(db, r);
    if d.Rejected? then (Refused(d.why), db)
    else if !Violates(rivals[0], r, d) then (SignedIn(SignedInAs(d, newId)), Written(rivals[0], r, d, newId))
    else
      var again := Classify(rivals[1], r);
      if again.Rejected? then (Refused(again.why), rivals[1])
      else if Violates(rivals[2], r, again) then (AccountConflict, rivals[2])
      else (SignedIn(SignedInAs(again, newId)), Written(rivals[2], r, again, newId))
  }
}
