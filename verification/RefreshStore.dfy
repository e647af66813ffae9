/** The refresh-token store and the rotation that drives it, statement by statement. */
module RefreshStore {
  import opened Options
  import opened RefreshRows

  const REVOKE_FAMILY_PASSES := 3

  class Store {
    var rows: Rows

    constructor ()
      ensures rows == map[]
    {
      rows := map[];
    }

    method RecordMint(r: Record) returns (inserted: bool)
      modifies this
      ensures rows == if r.jti in old(rows) then old(rows) else old(rows)[r.jti := r]
      ensures inserted <==> r.jti !in old(rows)
    {
      inserted := r.jti !in rows;
      if inserted {
        rows := rows[r.jti := r];
      }
    }

    method GetRecord(j: Jti) returns (r: Option<Record>)
      ensures r == if j in rows then Some(rows[j]) else None
    {
      r := if j in rows then Some(rows[j]) else None;
    }

    /** Compare-and-set on `consumed_at`. */
    method Consume(j: Jti, successor: Jti, now: int) returns (won: bool)
      modifies this
      ensures rows == Consumed(old(rows), j, successor, now)
      ensures won <==> j in old(rows) && old(rows)[j].consumedAt.None? && old(rows)[j].revokedAt.None?
      ensures won ==> j in rows && rows[j] == old(rows)[j].(consumedAt := Some(At(now)), successor := Some(successor))
      ensures rows.Keys == old(rows).Keys
      ensures forall k :: k in rows && !(won && k == j) ==> rows[k] == old(rows)[k]
    {
      won := j in rows && rows[j].Active();
      if won {
        rows := rows[j := rows[j].(consumedAt := Some(At(now)), successor := Some(successor))];
      }
    }

    /** Marks every row of the family, in passes that stop once one marks nothing. Run without
        interference two passes suffice; the third is a bound. */
    method RevokeFamily(f: Family, now: int) returns (marked: bool)
      modifies this
      ensures rows == FamilyRevoked(old(rows), f, now)
      ensures marked <==> exists j :: j in old(rows) && old(rows)[j].family == f && old(rows)[j].revokedAt.None?
      ensures rows.Keys == old(rows).Keys
      ensures forall j :: j in rows && (rows[j].family != f || old(rows)[j].revokedAt.Some?) ==> rows[j] == old(rows)[j]
      ensures forall j :: j in rows && rows[j].family == f && old(rows)[j].revokedAt.None? ==>
                            rows[j] == old(rows)[j].(revokedAt := Some(At(now)))
    {
      marked := false;
      for pass := 0 to REVOKE_FAMILY_PASSES
        invariant rows == if marked then FamilyRevoked(old(rows), f, now) else old(rows)
        invariant marked ==> exists j :: j in old(rows) && old(rows)[j].family == f && old(rows)[j].revokedAt.None?
        invariant pass > 0 ==> marked
      {
        var hit := exists j :: j in rows && rows[j].family == f && rows[j].revokedAt.None?;
        rows := map j | j in rows :: Revoked(rows[j], f, now);
        if !hit {
          assert rows == FamilyRevoked(old(rows), f, now);
          break;
        }
        marked := true;
      }
    }

    method TouchIdpCheck(j: Jti, checkedAt: int) returns (found: bool)
      modifies this
      ensures found <==> j in old(rows)
      ensures rows == if j in old(rows) then old(rows)[j := old(rows)[j].(checkedAt := Some(checkedAt))] else old(rows)
    {
      found := j in rows;
      if found {
        rows := rows[j := rows[j].(checkedAt := Some(checkedAt))];
      }
    }

    method FamilyStartedMs(f: Family) returns (m: Option<int>)
      ensures IsFamilyStart(rows, f, m)
    {
      m := None;
      var left := rows.Keys;
      ghost var seen: Rows := map[];
      while left != {}
        invariant left <= rows.Keys
        invariant seen == map j | j in rows && j !in left :: rows[j]
        invariant IsFamilyStart(seen, f, m)
        decreases |left|
      {
        var j :| j in left;
        left := left - {j};
        ghost var before := seen;
        seen := seen[j := rows[j]];
        if rows[j].family == f && (m.None? || rows[j].mintMs < m.value) {
          m := Some(rows[j].mintMs);
          assert j in seen && seen[j].family == f && seen[j].mintMs == m.value;
        } else if m.Some? {
          ghost var k :| k in before && before[k].family == f && before[k].mintMs == m.value;
          assert k in seen && seen[k].family == f && seen[k].mintMs == m.value;
        }
      }
      assert seen == rows;
    }

    /** Deletes up to `batch` rows, all of them of expired tokens, and fewer only if that is all. */
    method PurgeExpired(now: int, batch: nat) returns (doomed: set<Jti>)
      modifies this
      ensures |doomed| <= batch && doomed <= old(rows).Keys
      ensures forall j :: j in doomed ==> old(rows)[j].expiresAt * 1_000_000 < now
      ensures |doomed| < batch ==>
                forall j :: j in old(rows) && old(rows)[j].expiresAt * 1_000_000 < now ==> j in doomed
      ensures rows == old(rows) - doomed
    {
      doomed := {};
      var left := set j | j in rows && Expired(rows[j], now);
      while left != {} && |doomed| < batch
        invariant left !! doomed && left <= rows.Keys && doomed <= rows.Keys
        invariant |doomed| <= batch && rows == old(rows)
        invariant forall j :: j in left || j in doomed <==> j in rows && Expired(rows[j], now)
        decreases |left|
      {
        var j :| j in left;
        left, doomed := left - {j}, doomed + {j};
      }
      rows := rows - doomed;
    }
  }

  /** One rotation, in one transaction. */
  method CheckAndRecordRotation(store: Store, p: Presented, c: Candidate, grace: int, adopt: bool, now: int)
    returns (outcome: Outcome)
    requires Keyed(store.rows)
    modifies store
    ensures (outcome, store.rows) == Rotate(old(store.rows), p, c, grace, adopt, now)
    ensures Keyed(store.rows)
  {
    var read := store.GetRecord(p.jti);
    if read.None? {
      var dead := exists j :: j in store.rows && store.rows[j].family == p.family && store.rows[j].revokedAt.Some?;
      if dead {
        return FamilyDead(None);
      }
      if !adopt {
        return Unknown;
      }
      var _ := store.RecordMint(AdoptedRow(p));
      read := store.GetRecord(p.jti);
    }
    var record := read.value;
    if record.revokedAt.Some? {
      return FamilyDead(Some(record));
    }
    var won := store.Consume(p.jti, c.jti, now);
    if won {
      var _ := store.RecordMint(SuccessorRow(record, p.family, c));
      return Claimed(record);
    }
    var again := store.GetRecord(p.jti);
    var contended := if again.Some? then again.value else record;
    if contended.revokedAt.Some? {
      return FamilyDead(Some(contended));
    }
    if grace > 0 && contended.consumedAt.Some? && WithinGrace(contended.consumedAt.value, grace, now) {
      var rotation := SuccessorOf(store.rows, contended);
      if rotation.Some? {
        return Replay(rotation.value, contended);
      }
    }
    return Reuse(contended);
  }
}
