/**
 The refresh-token table as a value, and what each statement of the store does to it.

 One row per token ever minted; a token is refused unless an active row says otherwise.
 Instants are microseconds since the epoch; `mintMs` is milliseconds and `expiresAt`,
 `authTime` and `checkedAt` are seconds, as in the columns they stand for.
 */
module RefreshRows {
  import opened Options

  /** Random identifiers, only ever compared for equality. */
  type Jti = nat
  type Family = nat
  type UserId = nat
  type Provider = nat

  const US_PER_SECOND := 1_000_000

  function Seconds(us: int): int {
    us / US_PER_SECOND
  }

  function Millis(us: int): int {
    us / 1000
  }

  /** A timestamp column: an instant, or text no ISO parser accepts. */
  datatype Stamp = At(us: int) | Unreadable

  datatype Record = Record(
    jti: Jti,
    family: Family,
    user: UserId,
    authTime: Option<int>,
    mintMs: int,
    expiresAt: int,
    consumedAt: Option<Stamp>,
    successor: Option<Jti>,
    revokedAt: Option<Stamp>,
    provider: Option<Provider>,
    checkedAt: Option<int>)
  {
    predicate Active() {
      consumedAt.None? && revokedAt.None?
    }

    function MintSecond(): int {
      mintMs / 1000
    }

    /** Everything about a row that no statement ever rewrites. */
    predicate SameToken(other: Record) {
      && jti == other.jti && family == other.family && user == other.user
      && authTime == other.authTime && provider == other.provider
      && mintMs == other.mintMs && expiresAt == other.expiresAt
    }
  }

  type Rows = map<Jti, Record>

  /** INSERT; a duplicate jti leaves the table as it was. */
  function Minted(rows: Rows, r: Record): Rows {
    if r.jti in rows then rows else rows[r.jti := r]
  }

  /** The predicate of the conditional UPDATE. */
  predicate Consumable(rows: Rows, j: Jti) {
    j in rows && rows[j].Active()
  }

  function Consumed(rows: Rows, j: Jti, successor: Jti, now: int): Rows {
    if Consumable(rows, j)
    then rows[j := rows[j].(consumedAt := Some(At(now)), successor := Some(successor))]
    else rows
  }

  function Revoked(r: Record, f: Family, now: int): Record {
    if r.family == f && r.revokedAt.None? then r.(revokedAt := Some(At(now))) else r
  }

  function FamilyRevoked(rows: Rows, f: Family, now: int): Rows {
    map j | j in rows :: Revoked(rows[j], f, now)
  }

  predicate IsFamilyRevoked(rows: Rows, f: Family) {
    exists j :: j in rows && rows[j].family == f && rows[j].revokedAt.Some?
  }

  function Touched(rows: Rows, j: Jti, checkedAt: int): Rows {
    if j in rows then rows[j := rows[j].(checkedAt := Some(checkedAt))] else rows
  }

  /** A row the purge sweep may delete: its token has expired. */
  predicate Expired(r: Record, now: int) {
    r.expiresAt * US_PER_SECOND < now
  }

  /** `m` is the earliest mint of the family, in milliseconds; None for a family without rows. */
  ghost predicate IsFamilyStart(rows: Rows, f: Family, m: Option<int>) {
    match m
    case None => forall j :: j in rows ==> rows[j].family != f
    case Some(ms) =>
      && (exists j :: j in rows && rows[j].family == f && rows[j].mintMs == ms)
      && (forall j :: j in rows && rows[j].family == f ==> ms <= rows[j].mintMs)
  }

  // ---- the verdict on a presented token ----

  /** What a consumed jti rotated into. */
  datatype Rotation = Rotation(consumedAt: Stamp, jti: Jti, exp: int, mintMs: int)

  datatype Outcome =
    | Claimed(record: Record)
    | Replay(successor: Rotation, record: Record)
    | Reuse(record: Record)
    | FamilyDead(dead: Option<Record>)
    | Unknown

  function Age(s: Stamp, now: int): Option<int> {
    match s
    case At(us) => Some(now - us)
    case Unreadable => None
  }

  predicate WithinGrace(s: Stamp, grace: int, now: int) {
    var age := Age(s, now);
    age.Some? && 0 <= age.value <= grace * US_PER_SECOND
  }

  function SuccessorOf(rows: Rows, r: Record): Option<Rotation> {
    if r.consumedAt.None? || r.successor.None? then None
    else if r.successor.value !in rows then None
    else
      var next := rows[r.successor.value];
      Some(Rotation(r.consumedAt.value, next.jti, next.expiresAt, next.mintMs))
  }

  /** The verdict on a refresh whose conditional UPDATE matched nothing.
      `loaded` is the row it read first, used if the row has since gone. */
  function Loser(rows: Rows, loaded: Record, grace: int, now: int): Outcome {
    var contended := if loaded.jti in rows then rows[loaded.jti] else loaded;
    if contended.revokedAt.Some? then FamilyDead(Some(contended))
    else if grace > 0 && contended.consumedAt.Some? && WithinGrace(contended.consumedAt.value, grace, now)
            && SuccessorOf(rows, contended).Some?
    then Replay(SuccessorOf(rows, contended).value, contended)
    else Reuse(contended)
  }

  /** The identity of the candidate successor, minted before the transaction opens. */
  datatype Candidate = Candidate(jti: Jti, exp: int, mintMs: int)

  /** The successor's row: identity from the candidate, everything about the session from the
      row it replaces. */
  function SuccessorRow(r: Record, f: Family, c: Candidate): Record {
    Record(c.jti, f, r.user, r.authTime, c.mintMs, c.exp, None, None, None, r.provider, r.checkedAt)
  }

  /** What the presented token says of itself. */
  datatype Presented = Presented(jti: Jti, family: Family, exp: int, user: UserId,
                                 authTime: Option<int>, mintMs: int)

  /** The row adoption writes for a token that has none. */
  function AdoptedRow(p: Presented): Record {
    Record(p.jti, p.family, p.user, p.authTime, p.mintMs, p.exp, None, None, None, None, None)
  }

  /** A whole rotation run without interruption: the verdict and the table it leaves. */
  function Rotate(rows: Rows, p: Presented, c: Candidate, grace: int, adopt: bool, now: int): (Outcome, Rows) {
    if p.jti !in rows && IsFamilyRevoked(rows, p.family) then (FamilyDead(None), rows)
    else if p.jti !in rows && !adopt then (Unknown, rows)
    else
      var rows := Minted(rows, AdoptedRow(p));
      var record := rows[p.jti];
      if record.revokedAt.Some? then (FamilyDead(Some(record)), rows)
      else if Consumable(rows, p.jti) then
        (Claimed(record), Minted(Consumed(rows, p.jti, c.jti, now), SuccessorRow(record, p.family, c)))
      else (Loser(rows, record, grace, now), rows)
  }

  /** Keyed by its own jti: what every statement keeps. */
  ghost predicate Keyed(rows: Rows) {
    forall j :: j in rows ==> rows[j].jti == j
  }
}
