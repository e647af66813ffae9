/** A rotation's verdict and the rows it writes, said of the rows alone. */
module RotationExact {
  import opened Options
  import opened RefreshRows

  /** `next` carries the session of `r` on, under the candidate's identity. */
  predicate CarriesOn(next: Record, r: Record, c: Candidate) {
    && next.jti == c.jti && next.expiresAt == c.exp && next.mintMs == c.mintMs
    && next.family == r.family && next.user == r.user && next.authTime == r.authTime
    && next.provider == r.provider && next.checkedAt == r.checkedAt
    && next.consumedAt.None? && next.successor.None? && next.revokedAt.None?
  }

  /** `r` as it was, used at `now` for `c`. */
  predicate UsedUp(before: Record, after: Record, c: Candidate, now: int) {
    after.SameToken(before) && after.revokedAt == before.revokedAt && after.checkedAt == before.checkedAt
    && after.consumedAt == Some(At(now)) && after.successor == Some(c.jti)
  }

  /** The table after `r` was claimed for `c`: two rows written, and no other. */
  ghost predicate ClaimWritten(rows: Rows, r: Record, c: Candidate, now: int, rows': Rows) {
    && r.jti in rows' && UsedUp(r, rows'[r.jti], c, now)
    && c.jti in rows' && CarriesOn(rows'[c.jti], r, c)
    && rows'.Keys == rows.Keys + {r.jti, c.jti}
    && forall j :: j in rows && j != r.jti ==> rows'[j] == rows[j]
  }

  /** A row for a token that never had one: what the token says of itself, and no provider to ask. */
  predicate Adopted(r: Record, p: Presented) {
    && r.jti == p.jti && r.family == p.family && r.user == p.user && r.authTime == p.authTime
    && r.mintMs == p.mintMs && r.expiresAt == p.exp && r.provider.None? && r.checkedAt.None?
    && r.consumedAt.None? && r.successor.None? && r.revokedAt.None?
  }

  /**
   A token without a row: refused if its family has a revoked row, refused if adoption is off, and
   otherwise given the row it should have had and claimed.
   */
  lemma AdoptsExactlyWhen(rows: Rows, p: Presented, c: Candidate, grace: int, adopt: bool, now: int)
    requires p.jti !in rows && c.jti !in rows && c.jti != p.jti
    ensures var (o, rows') := Rotate(rows, p, c, grace, adopt, now);
            if exists j :: j in rows && rows[j].family == p.family && rows[j].revokedAt.Some?
            then o == FamilyDead(None) && rows' == rows
            else if !adopt then o == Unknown && rows' == rows
            else o.Claimed? && Adopted(o.record, p) && ClaimWritten(rows, o.record, c, now, rows')
  {
  }

  /** Used at most `grace` seconds ago, by a rotation whose successor is still there. */
  predicate JustUsed(rows: Rows, r: Record, grace: int, now: int) {
    && r.consumedAt.Some? && r.consumedAt.value.At? && grace > 0
    && 0 <= now - r.consumedAt.value.us <= grace * 1_000_000
    && r.successor.Some? && r.successor.value in rows
  }

  /**
   A token with a row: refused once revoked; claimed while unused; answered with the winner's token
   just after; and taken for stolen from then on.
   */
  lemma RotatesExactlyWhen(rows: Rows, p: Presented, c: Candidate, grace: int, adopt: bool, now: int)
    requires Keyed(rows) && p.jti in rows && rows[p.jti].family == p.family && c.jti !in rows
    ensures var (o, rows') := Rotate(rows, p, c, grace, adopt, now);
            var r := rows[p.jti];
            if r.revokedAt.Some? then o == FamilyDead(Some(r)) && rows' == rows
            else if r.consumedAt.None? then o == Claimed(r) && ClaimWritten(rows, r, c, now, rows')
            else if JustUsed(rows, r, grace, now) then
              var w := rows[r.successor.value];
              o == Replay(Rotation(r.consumedAt.value, w.jti, w.expiresAt, w.mintMs), r) && rows' == rows
            else o == Reuse(r) && rows' == rows
  {
    assert Minted(rows, AdoptedRow(p)) == rows;
  }
}
