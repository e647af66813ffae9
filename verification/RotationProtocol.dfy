/**
 Refresh-token rotation as a transition system: any number of refreshes in flight, each in its
 own transaction that may abort, against sign-ins, revocations, purges and a clock.

 A transaction reads committed rows. Its conditional UPDATE takes the presented row's lock,
 which it keeps until commit or abort; whatever else would write that row waits for it. Its
 writes reach the table at commit.
 */
module RotationProtocol {
  import opened Options
  import opened RefreshRows
  import opened SessionPolicy

  datatype Phase =
    | Begun                                          // candidate successor minted, nothing read
    | Loaded(record: Record)                         // read a row that was not revoked
    | Holding(held: Record, stamp: int)              // UPDATE matched, ceilings passed, not committed
    | Owing                                          // rolled back; the family is still to be revoked
    | Probing(lastChecked: Option<int>)              // committed; upstream liveness not settled
    | Stamping(confirmedAt: int)                     // upstream said yes; the anchor is not written

  /** One refresh request. `next` is the successor it minted, or was handed. */
  datatype Flight = Flight(claims: Claims, next: Claims, outage: set<Slug>, phase: Phase)

  /** What a sign-in fixed for its family. */
  datatype SignIn = SignIn(root: Jti, startMs: int, user: UserId, authTime: Option<int>, provider: Option<Provider>,
                           idpExp: Option<int>, pwfb: Option<int>)

  datatype Basis = NotChecked | ConfirmedNow | WithinAllowance(grace: int)

  datatype Event =
    | EvClaimed(jti: Jti, next: Claims)                           // a rotation committed
    | EvReplayed(jti: Jti, family: Family, rotation: Rotation, at: int)
    | EvRenewed(family: Family, at: int, account: Account, outage: set<Slug>)  // ceilings cleared
    // Liveness settled. After a confirmation the tokens are returned once the anchor is stamped; the
    // event is the confirmation's, whose instant is what the stamp should have recorded.
    | EvReturned(family: Family, at: int, basis: Basis, lastReal: int)

  /**
   `rows` is the committed table. The rest is bookkeeping for stating properties, except
   `flights` and `now`: `log` is every row ever committed, purged ones at their last value;
   `issued` the tokens a client can present; `used` the ids ever drawn; `lastReal` the last
   instant the upstream vouched for a family; `lag` the longest delay so far, family by family,
   between such an answer and the clock reading stored for it.
   */
  datatype Sys = Sys(
    now: int, rows: Rows, log: Rows, flights: map<nat, Flight>, issued: set<Claims>, used: set<Jti>,
    signIns: map<Family, SignIn>, lastReal: map<Family, int>, lag: map<Family, int>, events: seq<Event>)

  const INITIAL := Sys(0, map[], map[], map[], {}, {}, map[], map[], map[], [])

  datatype Answer = TokenAbsent | SaidNo | SaidYes | NoAnswer

  datatype Action =
    | Tick(to: int)
    | DoSignIn(jti: Jti, family: Family, user: UserId, authTime: Option<int>, provider: Option<Provider>,
               idpExp: Option<int>, pwfb: Option<int>)
    | Begin(id: nat, claims: Claims, nextJti: Jti, outage: set<Slug>)
    | Load(id: nat)
    | Judge(id: nat, account: Account, started: Option<int>)
    | Commit(id: nat)
    | Abort(id: nat)
    | SettleRejection(id: nat)
    | Probe(id: nat, resolved: Option<int>, answer: Answer)
    | Stamp(id: nat)
    | RevokeAll(family: Family)
    | Purge(doomed: set<Jti>)

  // ---- small parts ----

  predicate HoldsLock(fl: Flight, j: Jti) {
    fl.phase.Holding? && fl.claims.jti == j
  }

  predicate Locked(s: Sys, j: Jti) {
    exists id :: id in s.flights && HoldsLock(s.flights[id], j)
  }

  predicate FamilyLocked(s: Sys, f: Family) {
    exists id :: id in s.flights && s.flights[id].phase.Holding? && s.flights[id].claims.family == f
  }

  function Successor(lim: Limits, c: Claims, j: Jti, now: int): Claims {
    c.(jti := j, exp := Seconds(now) + lim.lifetime, mintMs := Millis(now))
  }

  function AsCandidate(c: Claims): Candidate {
    Candidate(c.jti, c.exp, c.mintMs)
  }

  /** The table as a claiming transaction sees it: committed rows plus its own two writes. */
  function AfterClaim(rows: Rows, fl: Flight, record: Record, stamp: int): Rows {
    Minted(Consumed(rows, fl.claims.jti, fl.next.jti, stamp),
           SuccessorRow(record, fl.claims.family, AsCandidate(fl.next)))
  }

  /** Everything but the flights, the tokens handed out and the events. */
  ghost predicate SameTables(s: Sys, s': Sys) {
    && s'.now == s.now && s'.rows == s.rows && s'.log == s.log && s'.used == s.used && s'.signIns == s.signIns
  }

  /** What is known of upstream answers. */
  ghost predicate SameAnchors(s: Sys, s': Sys) {
    s'.lastReal == s.lastReal && s'.lag == s.lag
  }

  /** `s'` reports what `s` did and then `more`. */
  ghost predicate Appends(s: Sys, s': Sys, more: seq<Event>) {
    s'.events == s.events + more
  }

  /** Flight `k` as it was. */
  ghost predicate SameFlight(s: Sys, s': Sys, k: nat) {
    (k in s'.flights <==> k in s.flights) && (k in s.flights ==> s'.flights[k] == s.flights[k])
  }

  /** Replaces the table, keeping the history of rows in step. */
  function WithRows(s: Sys, rows: Rows): Sys {
    s.(rows := rows, log := s.log + rows)
  }

  function WithFlight(s: Sys, id: nat, fl: Flight): Sys {
    s.(flights := s.flights[id := fl])
  }

  function Ended(s: Sys, id: nat): Sys {
    s.(flights := s.flights - {id})
  }

  function Logged(s: Sys, e: Event): Sys {
    s.(events := s.events + [e])
  }

  /** The longest delay with which a confirmation of the family has been stamped. */
  function LagOf(lag: map<Family, int>, f: Family): int {
    if f in lag then lag[f] else 0
  }

  // ---- the steps ----

  function SignInStep(lim: Limits, s: Sys, a: Action): (s': Sys)
    requires a.DoSignIn?
    ensures s'.now == s.now && s'.flights == s.flights && s'.lag == s.lag && s'.events == s.events
  {
    var c := Claims(a.user, a.jti, a.family, Seconds(s.now) + lim.lifetime, a.authTime, a.idpExp, a.pwfb,
                    Millis(s.now));
    var checked := if a.provider.Some? then Some(Seconds(s.now)) else None;
    var row := Record(a.jti, a.family, a.user, a.authTime, c.mintMs, c.exp, None, None, None, a.provider, checked);
    WithRows(s, Minted(s.rows, row)).(
      issued := s.issued + {c},
      used := s.used + {a.jti},
      signIns := s.signIns[a.family := SignIn(a.jti, c.mintMs, a.user, a.authTime, a.provider, a.idpExp, a.pwfb)],
      lastReal := s.lastReal[a.family := Seconds(s.now)])
  }

  function BeginStep(lim: Limits, s: Sys, a: Action): (s': Sys)
    requires a.Begin?
    ensures s'.now == s.now && s'.rows == s.rows && s'.log == s.log && s'.issued == s.issued
    ensures s'.signIns == s.signIns && SameAnchors(s, s') && s'.events == s.events
  {
    WithFlight(s, a.id, Flight(a.claims, Successor(lim, a.claims, a.nextJti, s.now), a.outage, Begun)).(
      used := s.used + {a.nextJti})
  }

  /** First read. No row, or a revoked one, ends the refresh with nothing left to revoke. */
  function LoadStep(s: Sys, id: nat): (s': Sys)
    requires id in s.flights
    ensures SameTables(s, s') && SameAnchors(s, s') && s'.issued == s.issued && s'.events == s.events
  {
    var fl := s.flights[id];
    if fl.claims.jti !in s.rows || s.rows[fl.claims.jti].revokedAt.Some? then Ended(s, id)
    else WithFlight(s, id, fl.(phase := Loaded(s.rows[fl.claims.jti])))
  }

  /** The phase a refresh enters once its tokens are minted: a session with a provider still
      has its liveness to settle. */
  function Renewed(s: Sys, id: nat, fl: Flight, record: Record): (s': Sys)
    ensures SameTables(s, s') && SameAnchors(s, s') && s'.events == s.events
    ensures forall k {:trigger SameFlight(s, s', k)} :: k != id ==> SameFlight(s, s', k)
    ensures id in s'.flights ==> s'.flights[id] == fl.(phase := Probing(record.checkedAt))
  {
    var s1 := s.(issued := s.issued + {fl.next});
    if record.provider.Some?
    then WithFlight(s1, id, fl.(phase := Probing(record.checkedAt)))
    else Ended(s1, id)
  }

  /** The replay branch: no write, the successor is the one already issued. */
  function ReplayStep(lim: Limits, s: Sys, id: nat, fl: Flight, o: Outcome, a: Action): (s': Sys)
    requires o.Replay? && a.Judge?
    ensures SameTables(s, s') && SameAnchors(s, s')
    ensures var e := EvReplayed(fl.claims.jti, fl.claims.family, o.successor, s.now);
            Appends(s, s', [e]) || Appends(s, s', [e, EvRenewed(fl.claims.family, s.now, a.account, fl.outage)])
    ensures forall k {:trigger SameFlight(s, s', k)} :: k != id ==> SameFlight(s, s', k)
    ensures id in s'.flights ==> s'.flights[id].claims == fl.claims
    ensures id in s'.flights ==> s'.flights[id].phase.Owing? || s'.flights[id].phase == Probing(o.record.checkedAt)
  {
    var s1 := Logged(s, EvReplayed(fl.claims.jti, fl.claims.family, o.successor, s.now));
    if Rule(lim, fl.claims, o.record, a.started, a.account, fl.outage, s.now).Denied?
    then WithFlight(s1, id, fl.(phase := Owing))
    else
      var next := fl.claims.(jti := o.successor.jti, exp := o.successor.exp, mintMs := o.successor.mintMs,
                             authTime := o.record.authTime);
      Renewed(Logged(s1, EvRenewed(fl.claims.family, s.now, a.account, fl.outage)), id,
              fl.(next := next), o.record)
  }

  /** A verdict is due: the refresh has read its row. */
  predicate CanJudge(s: Sys, a: Action) {
    a.Judge? && a.id in s.flights && s.flights[a.id].phase.Loaded?
  }

  /** The conditional UPDATE, the verdict, and the ceilings, all at one clock reading. */
  function JudgeStep(lim: Limits, s: Sys, a: Action): (s': Sys)
    requires CanJudge(s, a)
    ensures SameTables(s, s') && SameAnchors(s, s')
    ensures var fl := s.flights[a.id];
            var e := EvRenewed(fl.claims.family, s.now, a.account, fl.outage);
            if Consumable(s.rows, fl.claims.jti) then Appends(s, s', []) || Appends(s, s', [e])
            else
              var o := Loser(s.rows, fl.phase.record, lim.grace, s.now);
              if !o.Replay? then Appends(s, s', [])
              else
                var r := EvReplayed(fl.claims.jti, fl.claims.family, o.successor, s.now);
                Appends(s, s', [r]) || Appends(s, s', [r, e])
    ensures forall k {:trigger SameFlight(s, s', k)} :: k != a.id ==> SameFlight(s, s', k)
    ensures a.id in s'.flights ==> s'.flights[a.id].claims == s.flights[a.id].claims
    ensures a.id in s'.flights && !Consumable(s.rows, s.flights[a.id].claims.jti) ==>
              s'.flights[a.id].phase.Owing? || s'.flights[a.id].phase.Probing?
  {
    var fl := s.flights[a.id];
    var record := fl.phase.record;
    if Consumable(s.rows, fl.claims.jti) then
      if Rule(lim, fl.claims, record, a.started, a.account, fl.outage, s.now).Denied?
      then WithFlight(s, a.id, fl.(phase := Owing))
      else Logged(WithFlight(s, a.id, fl.(phase := Holding(record, s.now))),
                  EvRenewed(fl.claims.family, s.now, a.account, fl.outage))
    else
      var o := Loser(s.rows, record, lim.grace, s.now);
      if o.Replay? then ReplayStep(lim, s, a.id, fl, o, a)
      else if o.Reuse? then WithFlight(s, a.id, fl.(phase := Owing))
      else Ended(s, a.id)
  }

  /** The table the session-start query runs against. */
  function JudgedRows(s: Sys, fl: Flight): Rows
    requires fl.phase.Loaded?
  {
    if Consumable(s.rows, fl.claims.jti) then AfterClaim(s.rows, fl, fl.phase.record, s.now) else s.rows
  }

  function CommitStep(s: Sys, id: nat): (s': Sys)
    requires id in s.flights && s.flights[id].phase.Holding?
    ensures s'.now == s.now && s'.used == s.used && s'.signIns == s.signIns && SameAnchors(s, s')
    ensures s'.events == s.events + [EvClaimed(s.flights[id].claims.jti, s.flights[id].next)]
    ensures forall k {:trigger SameFlight(s, s', k)} :: k != id ==> SameFlight(s, s', k)
    ensures id in s'.flights ==>
              s'.flights[id] == s.flights[id].(phase := Probing(s.flights[id].phase.held.checkedAt))
  {
    var fl := s.flights[id];
    var s1 := WithRows(s, AfterClaim(s.rows, fl, fl.phase.held, fl.phase.stamp));
    Renewed(Logged(s1, EvClaimed(fl.claims.jti, fl.next)), id, fl, fl.phase.held)
  }

  function RevokeStep(s: Sys, f: Family): (s': Sys)
    ensures s'.now == s.now && s'.flights == s.flights && s'.issued == s.issued && s'.used == s.used
    ensures s'.signIns == s.signIns && SameAnchors(s, s') && s'.events == s.events
  {
    WithRows(s, FamilyRevoked(s.rows, f, s.now))
  }

  function Confirmed(s: Sys, id: nat, fl: Flight, t: int): Sys {
    Logged(WithFlight(s, id, fl.(phase := Stamping(t))), EvReturned(fl.claims.family, s.now, ConfirmedNow, t)).(
      lastReal := s.lastReal[fl.claims.family := t])
  }

  function ProbeStep(s: Sys, a: Action): (s': Sys)
    requires a.Probe? && a.id in s.flights && s.flights[a.id].phase.Probing?
    requires s.flights[a.id].claims.family in s.lastReal
    ensures SameTables(s, s') && s'.issued == s.issued && s'.lag == s.lag
    ensures forall k {:trigger SameFlight(s, s', k)} :: k != a.id ==> SameFlight(s, s', k)
    ensures a.id in s'.flights ==> s'.flights[a.id].phase.Owing? || s'.flights[a.id].phase.Stamping?
  {
    var fl := s.flights[a.id];
    var f := fl.claims.family;
    var t := Seconds(s.now);
    if a.resolved.None? then Logged(Ended(s, a.id), EvReturned(f, s.now, NotChecked, s.lastReal[f]))
    else match a.answer
      case TokenAbsent => WithFlight(s, a.id, fl.(phase := Owing))
      case SaidNo => WithFlight(s, a.id, fl.(phase := Owing))
      case SaidYes => Confirmed(s, a.id, fl, t)
      case NoAnswer =>
        if LivenessGraceExpired(fl.phase.lastChecked, a.resolved.value, s.now)
        then WithFlight(s, a.id, fl.(phase := Owing))
        else Logged(Ended(s, a.id), EvReturned(f, s.now, WithinAllowance(a.resolved.value), s.lastReal[f]))
  }

  function StampStep(s: Sys, id: nat): (s': Sys)
    requires id in s.flights && s.flights[id].phase.Stamping?
    ensures s'.now == s.now && s'.issued == s.issued && s'.used == s.used && s'.signIns == s.signIns
    ensures s'.lastReal == s.lastReal && s'.events == s.events && s'.flights == s.flights - {id}
  {
    var fl := s.flights[id];
    Ended(WithRows(s, Touched(s.rows, fl.next.jti, Seconds(s.now))), id).(
      lag := s.lag[fl.claims.family := Max(LagOf(s.lag, fl.claims.family), Seconds(s.now) - fl.phase.confirmedAt)])
  }

  // ---- the system ----

  /** When a step can be taken. Ids drawn at random are fresh; a token presented was issued and has not
      expired;
      a write waits for the locks it needs; a purge deletes only expired rows. */
  ghost predicate Enabled(lim: Limits, s: Sys, a: Action) {
    match a
    case Tick(to) => s.now <= to
    case DoSignIn(j, f, _, _, _, _, _) => j !in s.used && f !in s.signIns
    case Begin(id, c, j, _) =>
      id !in s.flights && c in s.issued && Seconds(s.now) < c.exp + lim.leeway && j !in s.used
    case Load(id) => id in s.flights && s.flights[id].phase.Begun?
    case Judge(id, _, started) =>
      && CanJudge(s, a) && !Locked(s, s.flights[id].claims.jti)
      && IsFamilyStart(JudgedRows(s, s.flights[id]), s.flights[id].claims.family, started)
    case Commit(id) => id in s.flights && s.flights[id].phase.Holding?
    case Abort(id) => id in s.flights
    case SettleRejection(id) =>
      id in s.flights && s.flights[id].phase.Owing? && !FamilyLocked(s, s.flights[id].claims.family)
    case Probe(id, _, _) => id in s.flights && s.flights[id].phase.Probing? && s.flights[id].claims.family in s.lastReal
    case Stamp(id) => id in s.flights && s.flights[id].phase.Stamping? && !Locked(s, s.flights[id].next.jti)
    case RevokeAll(f) => !FamilyLocked(s, f)
    case Purge(doomed) =>
      forall j :: j in doomed ==> j in s.rows && Expired(s.rows[j], s.now) && !Locked(s, j)
  }

  ghost function Apply(lim: Limits, s: Sys, a: Action): Sys
    requires Enabled(lim, s, a)
  {
    match a
    case Tick(to) => s.(now := to)
    case DoSignIn(_, _, _, _, _, _, _) => SignInStep(lim, s, a)
    case Begin(_, _, _, _) => BeginStep(lim, s, a)
    case Load(id) => LoadStep(s, id)
    case Judge(_, _, _) => JudgeStep(lim, s, a)
    case Commit(id) => CommitStep(s, id)
    case Abort(id) => Ended(s, id)
    case SettleRejection(id) => Ended(RevokeStep(s, s.flights[id].claims.family), id)
    case Probe(_, _, _) => ProbeStep(s, a)
    case Stamp(id) => StampStep(s, id)
    case RevokeAll(f) => RevokeStep(s, f)
    case Purge(doomed) => s.(rows := s.rows - doomed)
  }

  /** A step that cannot be taken changes nothing, so every list of actions is a run. */
  ghost function Step(lim: Limits, s: Sys, a: Action): Sys {
    if Enabled(lim, s, a) then Apply(lim, s, a) else s
  }

  ghost function Play(lim: Limits, acts: seq<Action>): Sys {
    PlayFrom(lim, INITIAL, acts)
  }

  ghost function PlayFrom(lim: Limits, s: Sys, acts: seq<Action>): Sys
    decreases |acts|
  {
    if acts == [] then s
    else Step(lim, PlayFrom(lim, s, acts[..|acts| - 1]), acts[|acts| - 1])
  }
}
