/** Trimming the job streams by age, without touching what a worker still owes an answer on. */
module StreamTrim {
  import opened Options
  import opened StreamIds

  ghost predicate Ordered(log: seq<Id>) {
    forall i, j :: 0 <= i < j < |log| ==> Before(log[i], log[j])
  }

  ghost predicate IsOldest(pending: set<Id>, id: Id) {
    id in pending && forall x :: x in pending ==> UpTo(id, x)
  }

  /** What the server answers: no pending entry, or the smallest pending id. */
  ghost predicate Summary(pending: set<Id>, answer: Option<Id>) {
    if pending == {} then answer.None? else answer.Some? && IsOldest(pending, answer.value)
  }

  function Cutoff(now: nat, age: int): nat {
    Max(0, now - age)
  }

  /** The oldest pending entry is older than the cutoff, so the stream is left alone. */
  predicate Guarded(oldest: Option<Id>, cutoff: nat) {
    oldest.Some? && oldest.value.ms < cutoff
  }

  /** Entries an exact trim by minimum id would remove: a prefix. */
  function Expired(log: seq<Id>, cutoff: nat): (k: nat)
    ensures k <= |log|
    ensures forall i :: 0 <= i < k ==> Before(log[i], Id(cutoff, 0))
    ensures k < |log| ==> !Before(log[k], Id(cutoff, 0))
  {
    if log == [] || !Before(log[0], Id(cutoff, 0)) then 0 else 1 + Expired(log[1..], cutoff)
  }

  /** An approximate trim stops at a node boundary: it may remove fewer, never others. */
  function Trimmed(log: seq<Id>, cutoff: nat, atMost: nat): seq<Id> {
    log[Min(atMost, Expired(log, cutoff))..]
  }

  /** What the server does in one pass for one stream. */
  datatype Turn = Turn(oldest: Option<Id>, pendingFails: bool, atMost: nat, trimFails: bool)

  datatype Result = Result(trimmed: int, skipped: bool)

  predicate Skips(t: Turn, cutoff: nat) {
    t.pendingFails || Guarded(t.oldest, cutoff) || t.trimFails
  }

  class Streams {
    var logs: seq<seq<Id>>

    constructor (logs: seq<seq<Id>>)
      ensures this.logs == logs
    {
      this.logs := logs;
    }

    /** One pass over all streams; `turns` is how the server answers for each. */
    method TrimByMinId(now: nat, age: int, turns: seq<Turn>) returns (out: seq<Result>)
      requires |turns| == |logs|
      modifies this
      ensures |logs| == |old(logs)| == |out|
      ensures forall i :: 0 <= i < |logs| ==> logs[i] == After(old(logs)[i], turns[i], Cutoff(now, age))
      ensures forall i :: 0 <= i < |logs| ==> out[i] == ResultOf(old(logs)[i], turns[i], Cutoff(now, age))
    {
      var cutoff := Cutoff(now, age);
      out := [];
      for i := 0 to |turns|
        invariant |logs| == |old(logs)| && |out| == i
        invariant forall j :: i <= j < |logs| ==> logs[j] == old(logs)[j]
        invariant forall j :: 0 <= j < i ==> logs[j] == After(old(logs)[j], turns[j], cutoff)
        invariant forall j :: 0 <= j < i ==> out[j] == ResultOf(old(logs)[j], turns[j], cutoff)
      {
        var t := turns[i];
        var log, result := TrimOne(logs[i], t, cutoff);
        logs := logs[i := log];
        out := out + [result];
      }
    }
  }

  /** One stream's turn: each failure is caught and the stream skipped. */
  method TrimOne(log: seq<Id>, t: Turn, cutoff: nat) returns (left: seq<Id>, result: Result)
    ensures left == After(log, t, cutoff) && result == ResultOf(log, t, cutoff)
  {
    if t.pendingFails {
      return log, Result(0, true);
    }
    if t.oldest.Some? && t.oldest.value.ms < cutoff {
      return log, Result(0, true);
    }
    if t.trimFails {
      return log, Result(0, true);
    }
    var gone := Min(t.atMost, Expired(log, cutoff));
    return log[gone..], Result(gone, false);
  }

  function After(log: seq<Id>, t: Turn, cutoff: nat): seq<Id> {
    if Skips(t, cutoff) then log else Trimmed(log, cutoff, t.atMost)
  }

  function ResultOf(log: seq<Id>, t: Turn, cutoff: nat): Result {
    Result(|log| - |After(log, t, cutoff)|, Skips(t, cutoff))
  }

  /**
   Whatever the stream looks like when the trim runs, an entry that was pending when the
   summary was read is not removed; and what the trim keeps is the rest, in order.
   */
  lemma TrimSparesPending(pending: set<Id>, t: Turn, log: seq<Id>, cutoff: nat, id: Id)
    requires Summary(pending, t.oldest) && id in pending && id in log
    ensures id in After(log, t, cutoff)
  {
    if !Skips(t, cutoff) {
      var k := Min(t.atMost, Expired(log, cutoff));
      var i :| 0 <= i < |log| && log[i] == id;
      assert UpTo(t.oldest.value, id);
      assert !Before(id, Id(cutoff, 0));
      assert i >= k;
      assert log[k..][i - k] == id;
    }
  }

  /** Nothing at or past the cutoff is removed, and a trim that is not cut short removes the rest. */
  lemma TrimRemovesOnlyOld(log: seq<Id>, cutoff: nat, atMost: nat, id: Id)
    requires Ordered(log) && id in log
    ensures !Before(id, Id(cutoff, 0)) ==> id in Trimmed(log, cutoff, atMost)
    ensures atMost >= |log| ==> (id in Trimmed(log, cutoff, atMost) <==> !Before(id, Id(cutoff, 0)))
  {
    var n := Expired(log, cutoff);
    var k := Min(atMost, n);
    var i :| 0 <= i < |log| && log[i] == id;
    if i >= k {
      assert log[k..][i - k] == id;
    }
    if atMost >= |log| && id in log[k..] {
      var j :| 0 <= j < |log| - k && log[k..][j] == id;
      assert log[n + j] == id;
      if j > 0 {
        assert Before(log[n], log[n + j]);
      }
    }
  }

  /**
   By age: no entry of at most `age` milliseconds is removed; and where the stream is not left alone and
   the trim is not cut short, every older one is.
   */
  lemma TrimSparesTheYoung(now: nat, age: int, log: seq<Id>, t: Turn, id: Id)
    requires Ordered(log) && id in log
    ensures now - id.ms <= age ==> id in After(log, t, Cutoff(now, age))
    ensures now - id.ms > age && !Skips(t, Cutoff(now, age)) && t.atMost >= |log| ==>
              id !in After(log, t, Cutoff(now, age))
  {
    TrimRemovesOnlyOld(log, Cutoff(now, age), t.atMost, id);
  }

  /** The stream is left alone exactly when the server errs, or owes an answer on an entry older than `age`. */
  lemma LeftAloneExactlyWhen(now: nat, age: int, t: Turn)
    ensures Skips(t, Cutoff(now, age))
       <==> t.pendingFails || t.trimFails || (t.oldest.Some? && now - t.oldest.value.ms > age)
  {
  }
}
