/**
 Provider health: outcomes buffered in memory, drained to one row per provider. A drain swaps
 the buffer, then waits on the database, so reports and other drains run in between; it ends
 by committing its snapshot or by folding it back.
 */
module HealthWindow {
  import opened Options

  type Provider = nat

  datatype Pending = Pending(success: int, failure: int, consecutive: int, lastMs: Option<int>)

  type Buffer = map<Provider, Pending>

  datatype Row = Row(success: int, failure: int, windowStart: int, consecutive: int, lastMs: Option<int>)

  /**
   `pending`, `failing` and `durations` are the controller's fields, `drains` the snapshots of
   drains that wait on the database, `rows` the table.
   */
  datatype Health = Health(
    pending: Buffer, failing: map<Provider, int>, durations: map<Provider, int>, drains: seq<Buffer>,
    rows: map<Provider, Row>)

  const INITIAL := Health(map[], map[], map[], [], map[])

  function CountOr(m: map<Provider, int>, p: Provider): int {
    if p in m then m[p] else 0
  }

  function DurationOf(m: map<Provider, int>, p: Provider): Option<int> {
    if p in m then Some(m[p]) else None
  }

  function RowOf(rows: map<Provider, Row>, p: Provider): Option<Row> {
    if p in rows then Some(rows[p]) else None
  }

  function PendingOf(b: Buffer, p: Provider): Option<Pending> {
    if p in b then Some(b[p]) else None
  }

  /**
   What a flush of `d` makes of a provider's row: within the window its counts are added and the
   window stays; past it, or with no row yet, they are the counts of a window that opens now.
   */
  predicate RolledOver(row: Option<Row>, d: Option<Pending>, now: int, window: nat, after: Option<Row>) {
    if d.None? || (d.value.success == 0 && d.value.failure == 0) then after == row
    else
      && after.Some? && after.value.consecutive == d.value.consecutive
      && (d.value.lastMs.Some? ==> after.value.lastMs == d.value.lastMs)
      && (d.value.lastMs.None? ==> after.value.lastMs == if row.Some? then row.value.lastMs else None)
      && if row.Some? && now - row.value.windowStart <= window
         then && after.value.success == row.value.success + d.value.success
              && after.value.failure == row.value.failure + d.value.failure
              && after.value.windowStart == row.value.windowStart
         else && after.value.success == d.value.success && after.value.failure == d.value.failure
              && after.value.windowStart == now
  }

  /** What a failed flush of `d` leaves of a provider's bucket: its counts are added back, the streak is the flush's. */
  predicate PutBack(bucket: Option<Pending>, d: Option<Pending>, after: Option<Pending>) {
    if d.None? then after == bucket
    else if bucket.None? then after == d
    else
      && after.Some? && after.value.success == bucket.value.success + d.value.success
      && after.value.failure == bucket.value.failure + d.value.failure
      && after.value.consecutive == d.value.consecutive && after.value.lastMs == bucket.value.lastMs
  }

  // ---- what each operation does ----

  function BucketOf(b: Buffer, p: Provider): Pending {
    if p in b then b[p] else Pending(0, 0, 0, None)
  }

  /** The bucket of a provider after one more outcome. */
  function Bumped(b: Pending, ok: bool, consecutive: int, lastMs: Option<int>): Pending {
    if ok then Pending(b.success + 1, b.failure, consecutive, lastMs)
    else Pending(b.success, b.failure + 1, consecutive, lastMs)
  }

  /** One counted outcome. */
  function Reported(h: Health, p: Provider, ok: bool): Health {
    var streak := if ok then 0 else CountOr(h.failing, p) + 1;
    h.(failing := h.failing[p := streak],
       pending := h.pending[p := Bumped(BucketOf(h.pending, p), ok, streak, DurationOf(h.durations, p))])
  }

  function Timed(h: Health, p: Provider, ms: int): Health {
    if ms < 0 then h else h.(durations := h.durations[p := ms])
  }

  function Swapped(h: Health): Health {
    if h.pending == map[] then h else h.(pending := map[], drains := h.drains + [h.pending])
  }

  /** A window opened before the cutoff is started afresh by the next flush. */
  predicate Stale(start: int, now: int, window: nat) {
    start < now - window
  }

  function Upserted(row: Option<Row>, d: Pending, now: int, window: nat): Row {
    match row
    case None => Row(d.success, d.failure, now, d.consecutive, d.lastMs)
    case Some(r) =>
      var lastMs := if d.lastMs.Some? then d.lastMs else r.lastMs;
      if Stale(r.windowStart, now, window) then Row(d.success, d.failure, now, d.consecutive, lastMs)
      else Row(r.success + d.success, r.failure + d.failure, r.windowStart, d.consecutive, lastMs)
  }

  predicate HasNews(snap: Buffer, p: Provider) {
    p in snap && (snap[p].success != 0 || snap[p].failure != 0)
  }

  function RowsAfter(rows: map<Provider, Row>, snap: Buffer, now: int, window: nat): map<Provider, Row> {
    map p | p in rows.Keys + snap.Keys && (p in rows || HasNews(snap, p)) ::
      if HasNews(snap, p) then Upserted(RowOf(rows, p), snap[p], now, window) else rows[p]
  }

  function Dropped(drains: seq<Buffer>, k: nat): seq<Buffer>
    requires k < |drains|
  {
    drains[..k] + drains[k + 1..]
  }

  /** Drain `k` commits. */
  function Committed(h: Health, k: nat, now: int, window: nat): Health
    requires k < |h.drains|
  {
    h.(drains := Dropped(h.drains, k), rows := RowsAfter(h.rows, h.drains[k], now, window))
  }

  function Refilled(b: Pending, s: Pending): Pending {
    Pending(b.success + s.success, b.failure + s.failure, s.consecutive, b.lastMs)
  }

  function FoldedInto(b: Buffer, snap: Buffer): Buffer {
    map p | p in b.Keys + snap.Keys ::
      if p !in snap then b[p] else if p !in b then snap[p] else Refilled(b[p], snap[p])
  }

  /** Drain `k` fails and is folded back into the buffer. */
  function Folded(h: Health, k: nat): Health
    requires k < |h.drains|
  {
    h.(drains := Dropped(h.drains, k), pending := FoldedInto(h.pending, h.drains[k]))
  }

  // ---- the controller ----

  class Controller {
    var pending: Buffer
    var failing: map<Provider, int>
    var durations: map<Provider, int>
    var drains: seq<Buffer>
    var rows: map<Provider, Row>
    const window: nat

    function State(): Health
      reads this
    {
      Health(pending, failing, durations, drains, rows)
    }

    /** The bucket of a provider has its streak and duration as they are now. */
    predicate Latest(p: Provider)
      reads this
    {
      && p in pending && p in failing && pending[p].consecutive == failing[p]
      && pending[p].lastMs == if p in durations then Some(durations[p]) else None
    }

    constructor (window: nat)
      ensures State() == INITIAL && this.window == window
    {
      pending, failing, durations, drains, rows := map[], map[], map[], [], map[];
      this.window := window;
    }

    method ReportSuccess(p: Provider)
      modifies this
      ensures State() == Reported(old(State()), p, true)
      ensures failing == old(failing)[p := 0] && Latest(p)
    {
      failing := failing[p := 0];
      PersistOutcome(p, true);
    }

    /** A timeout is reachable-but-slow: it is not counted at all. */
    method ReportFailure(p: Provider, isTimeout: bool)
      modifies this
      ensures State() == if isTimeout then old(State()) else Reported(old(State()), p, false)
      ensures !isTimeout ==>
                failing == old(failing)[p := (if p in old(failing) then old(failing)[p] else 0) + 1] && Latest(p)
    {
      if isTimeout {
        return;
      }
      failing := failing[p := CountOr(failing, p) + 1];
      PersistOutcome(p, false);
    }

    method PersistOutcome(p: Provider, ok: bool)
      modifies this`pending
      ensures pending == old(pending)[p := Bumped(BucketOf(old(pending), p), ok, CountOr(failing, p),
                                                  DurationOf(durations, p))]
    {
      var bucket := BucketOf(pending, p);
      if ok {
        bucket := bucket.(success := bucket.success + 1);
      } else {
        bucket := bucket.(failure := bucket.failure + 1);
      }
      bucket := bucket.(consecutive := CountOr(failing, p));
      bucket := bucket.(lastMs := DurationOf(durations, p));
      pending := pending[p := bucket];
    }

    method RecordLatency(p: Provider, ms: int)
      modifies this
      ensures State() == old(State()).(durations := if ms < 0 then old(durations) else old(durations)[p := ms])
    {
      if ms >= 0 {
        durations := durations[p := ms];
      }
    }

    /** The start of a drain, up to its first wait. */
    method BeginDrain() returns (started: bool)
      modifies this
      ensures State() == Swapped(old(State())) && (started <==> old(pending) != map[])
    {
      started := pending != map[];
      if started {
        drains, pending := drains + [pending], map[];
      }
    }

    /** The upserts of drain `k`, one per provider with something to add, in one transaction. */
    method CommitDrain(k: nat, now: int)
      requires k < |drains|
      modifies this
      ensures State() == Committed(old(State()), k, now, window)
      ensures AllRolledOver(old(rows), old(drains)[k], now, window, rows)
    {
      var table := UpsertAll(rows, drains[k], now, window);
      drains, rows := Dropped(drains, k), table;
    }

    /** Drain `k` raised: its snapshot goes back into the buffer. */
    method FailDrain(k: nat)
      requires k < |drains|
      modifies this
      ensures State() == Folded(old(State()), k)
      ensures AllPutBack(old(pending), old(drains)[k], pending)
    {
      var merged := FoldBack(pending, drains[k]);
      drains, pending := Dropped(drains, k), merged;
    }
  }

  /** The row of a provider once its upsert, if it has one, is done. */
  function RowAfter(rows: map<Provider, Row>, snap: Buffer, p: Provider, now: int, window: nat): Option<Row> {
    if HasNews(snap, p) then Some(Upserted(RowOf(rows, p), snap[p], now, window)) else RowOf(rows, p)
  }

  lemma RowsAgree(table: map<Provider, Row>, rows: map<Provider, Row>, snap: Buffer, now: int, window: nat)
    requires forall p :: RowOf(table, p) == RowAfter(rows, snap, p, now, window)
    ensures table == RowsAfter(rows, snap, now, window)
  {
    var expected := RowsAfter(rows, snap, now, window);
    forall p
      ensures p in table <==> p in expected
      ensures p in table ==> table[p] == expected[p]
    {
      assert RowOf(table, p) == RowAfter(rows, snap, p, now, window);
    }
  }

  lemma FlushRollsOver(rows: map<Provider, Row>, snap: Buffer, now: int, window: nat, p: Provider)
    ensures RolledOver(RowOf(rows, p), PendingOf(snap, p), now, window, RowOf(RowsAfter(rows, snap, now, window), p))
  {
  }

  /** Every row of the table after a flush, in plain terms. */
  ghost predicate AllRolledOver(rows: map<Provider, Row>, snap: Buffer, now: int, window: nat,
                                table: map<Provider, Row>)
  {
    forall p :: RolledOver(RowOf(rows, p), PendingOf(snap, p), now, window, RowOf(table, p))
  }

  lemma AllRollOver(rows: map<Provider, Row>, snap: Buffer, now: int, window: nat)
    ensures AllRolledOver(rows, snap, now, window, RowsAfter(rows, snap, now, window))
  {
    forall p
      ensures RolledOver(RowOf(rows, p), PendingOf(snap, p), now, window, RowOf(RowsAfter(rows, snap, now, window), p))
    {
      FlushRollsOver(rows, snap, now, window, p);
    }
  }

  method UpsertAll(rows: map<Provider, Row>, snap: Buffer, now: int, window: nat) returns (table: map<Provider, Row>)
    ensures table == RowsAfter(rows, snap, now, window)
    ensures AllRolledOver(rows, snap, now, window, table)
  {
    table := rows;
    var left := snap.Keys;
    while left != {}
      invariant left <= snap.Keys
      invariant forall p ::
        RowOf(table, p) == if p in left then RowOf(rows, p) else RowAfter(rows, snap, p, now, window)
      decreases |left|
    {
      var p :| p in left;
      left := left - {p};
      if HasNews(snap, p) {
        table := table[p := Upserted(RowOf(table, p), snap[p], now, window)];
      }
    }
    RowsAgree(table, rows, snap, now, window);
    AllRollOver(rows, snap, now, window);
  }

  function PendingAfter(b: Buffer, snap: Buffer, p: Provider): Option<Pending> {
    if p !in snap then PendingOf(b, p)
    else if p !in b then Some(snap[p]) else Some(Refilled(b[p], snap[p]))
  }

  lemma BuffersAgree(merged: Buffer, b: Buffer, snap: Buffer)
    requires forall p :: PendingOf(merged, p) == PendingAfter(b, snap, p)
    ensures merged == FoldedInto(b, snap)
  {
    var expected := FoldedInto(b, snap);
    forall p
      ensures p in merged <==> p in expected
      ensures p in merged ==> merged[p] == expected[p]
    {
      assert PendingOf(merged, p) == PendingAfter(b, snap, p);
    }
  }

  /** Every bucket after a failed flush, in plain terms. */
  ghost predicate AllPutBack(buffer: Buffer, snap: Buffer, merged: Buffer) {
    forall p :: PutBack(PendingOf(buffer, p), PendingOf(snap, p), PendingOf(merged, p))
  }

  lemma FoldedIsPutBack(buffer: Buffer, snap: Buffer)
    ensures AllPutBack(buffer, snap, FoldedInto(buffer, snap))
  {
  }

  method FoldBack(buffer: Buffer, snap: Buffer) returns (merged: Buffer)
    ensures merged == FoldedInto(buffer, snap)
    ensures AllPutBack(buffer, snap, merged)
  {
    merged := buffer;
    var left := snap.Keys;
    while left != {}
      invariant left <= snap.Keys
      invariant forall p ::
        PendingOf(merged, p) == if p in left then PendingOf(buffer, p) else PendingAfter(buffer, snap, p)
      decreases |left|
    {
      var p :| p in left;
      left := left - {p};
      match PendingOf(merged, p)
      case None => merged := merged[p := snap[p]];
      case Some(existing) => merged := merged[p := Refilled(existing, snap[p])];
    }
    BuffersAgree(merged, buffer, snap);
    FoldedIsPutBack(buffer, snap);
  }

  // ---- runs ----

  datatype Action =
    | Report(p: Provider, ok: bool)
    | Latency(p: Provider, ms: int)
    | Begin
    | Commit(k: nat, now: int)
    | Fail(k: nat)

  /** An action that cannot be taken changes nothing, so every list of actions is a run. */
  function Step(h: Health, a: Action, window: nat): Health {
    match a
    case Report(p, ok) => Reported(h, p, ok)
    case Latency(p, ms) => Timed(h, p, ms)
    case Begin => Swapped(h)
    case Commit(k, now) => if k < |h.drains| then Committed(h, k, now, window) else h
    case Fail(k) => if k < |h.drains| then Folded(h, k) else h
  }

  function Play(acts: seq<Action>, window: nat): Health {
    if acts == [] then INITIAL else Step(Play(acts[..|acts| - 1], window), acts[|acts| - 1], window)
  }

  /** Outcomes of one kind (`ok`) that a run reports for a provider, read off the actions alone. */
  function OutcomesIn(acts: seq<Action>, p: Provider, ok: bool): int {
    if acts == [] then 0
    else OutcomesIn(acts[..|acts| - 1], p, ok) + (if acts[|acts| - 1] == Report(p, ok) then 1 else 0)
  }

  datatype Flush = Flush(at: int, success: int, failure: int)

  function FlushesBy(h: Health, a: Action, p: Provider): seq<Flush> {
    if a.Commit? && a.k < |h.drains| && HasNews(h.drains[a.k], p)
    then [Flush(a.now, h.drains[a.k][p].success, h.drains[a.k][p].failure)]
    else []
  }

  /** The upserts a run writes for a provider, in order. */
  function FlushesIn(acts: seq<Action>, window: nat, p: Provider): seq<Flush> {
    if acts == [] then []
    else FlushesIn(acts[..|acts| - 1], window, p) + FlushesBy(Play(acts[..|acts| - 1], window), acts[|acts| - 1], p)
  }

  function SumFlushes(fs: seq<Flush>, ok: bool): int {
    if fs == [] then 0
    else SumFlushes(fs[..|fs| - 1], ok) + (if ok then fs[|fs| - 1].success else fs[|fs| - 1].failure)
  }

  function Held(b: Buffer, p: Provider, ok: bool): int {
    if p !in b then 0 else if ok then b[p].success else b[p].failure
  }

  function SumDrains(drains: seq<Buffer>, p: Provider, ok: bool): int {
    if drains == [] then 0 else Held(drains[0], p, ok) + SumDrains(drains[1..], p, ok)
  }

  lemma {:induction false} SumDrainsConcat(a: seq<Buffer>, b: seq<Buffer>, p: Provider, ok: bool)
    ensures SumDrains(a + b, p, ok) == SumDrains(a, p, ok) + SumDrains(b, p, ok)
  {
    if a == [] {
      assert a + b == b;
    } else {
      SumDrainsConcat(a[1..], b, p, ok);
      assert (a + b)[1..] == a[1..] + b;
    }
  }

  lemma SumDropped(drains: seq<Buffer>, k: nat, p: Provider, ok: bool)
    requires k < |drains|
    ensures SumDrains(drains, p, ok) == SumDrains(Dropped(drains, k), p, ok) + Held(drains[k], p, ok)
  {
    SumDrainsConcat(drains[..k], drains[k + 1..], p, ok);
    SumDrainsConcat(drains[..k], drains[k..], p, ok);
    assert drains[..k] + drains[k..] == drains;
    assert drains[k..][1..] == drains[k + 1..];
  }

  lemma SumAppended(fs: seq<Flush>, f: Flush, ok: bool)
    ensures SumFlushes(fs + [f], ok) == SumFlushes(fs, ok) + (if ok then f.success else f.failure)
  {
    assert (fs + [f])[..|fs|] == fs;
  }

  /** What is still in memory: the buffer and the snapshots in flight. */
  function Unflushed(h: Health, p: Provider, ok: bool): int {
    Held(h.pending, p, ok) + SumDrains(h.drains, p, ok)
  }

  lemma ReportConserves(h: Health, q: Provider, told: bool, p: Provider, ok: bool)
    ensures Unflushed(Reported(h, q, told), p, ok) == Unflushed(h, p, ok) + if q == p && told == ok then 1 else 0
  {
  }

  lemma SwapConserves(h: Health, p: Provider, ok: bool)
    ensures Unflushed(Swapped(h), p, ok) == Unflushed(h, p, ok)
  {
    SumDrainsConcat(h.drains, [h.pending], p, ok);
    assert SumDrains([h.pending], p, ok) == Held(h.pending, p, ok) + SumDrains([h.pending][1..], p, ok);
  }

  lemma NothingNew(snap: Buffer, p: Provider, ok: bool)
    requires !HasNews(snap, p)
    ensures Held(snap, p, ok) == 0
  {
  }

  lemma CommitConserves(h: Health, k: nat, now: int, window: nat, p: Provider, ok: bool)
    requires k < |h.drains|
    ensures Unflushed(Committed(h, k, now, window), p, ok) + SumFlushes(FlushesBy(h, Commit(k, now), p), ok)
         == Unflushed(h, p, ok)
  {
    SumDropped(h.drains, k, p, ok);
    if HasNews(h.drains[k], p) {
      SumAppended([], FlushesBy(h, Commit(k, now), p)[0], ok);
    } else {
      NothingNew(h.drains[k], p, ok);
    }
  }

  lemma HeldFolded(b: Buffer, snap: Buffer, p: Provider, ok: bool)
    ensures Held(FoldedInto(b, snap), p, ok) == Held(b, p, ok) + Held(snap, p, ok)
  {
  }

  lemma FailConserves(h: Health, k: nat, p: Provider, ok: bool)
    requires k < |h.drains|
    ensures Unflushed(Folded(h, k), p, ok) == Unflushed(h, p, ok)
  {
    SumDropped(h.drains, k, p, ok);
    HeldFolded(h.pending, h.drains[k], p, ok);
  }

  /** A step moves counts; only a report adds one, and only a committed upsert takes some away. */
  lemma StepConserves(h: Health, a: Action, window: nat, p: Provider, ok: bool)
    ensures Unflushed(Step(h, a, window), p, ok) + SumFlushes(FlushesBy(h, a, p), ok)
         == Unflushed(h, p, ok) + (if a == Report(p, ok) then 1 else 0)
  {
    match a
    case Report(q, told) => ReportConserves(h, q, told, p, ok);
    case Latency(_, _) =>
    case Begin => SwapConserves(h, p, ok);
    case Commit(k, now) =>
      if k < |h.drains| {
        CommitConserves(h, k, now, window, p, ok);
      }
    case Fail(k) =>
      if k < |h.drains| {
        FailConserves(h, k, p, ok);
      }
  }

  lemma SumGrows(fs: seq<Flush>, more: seq<Flush>, ok: bool)
    requires |more| <= 1
    ensures SumFlushes(fs + more, ok) == SumFlushes(fs, ok) + SumFlushes(more, ok)
  {
    if more == [] {
      assert fs + more == fs;
    } else {
      SumAppended(fs, more[0], ok);
      SumAppended([], more[0], ok);
      assert more == [more[0]] && [] + [more[0]] == [more[0]];
    }
  }

  /**
   However reports interleave with drains that commit or fail, what has been reported for a
   provider is what has been flushed, plus the buffer, plus the snapshots in flight.
   */
  lemma {:induction false} CountersConserved(acts: seq<Action>, window: nat, p: Provider, ok: bool)
    ensures OutcomesIn(acts, p, ok)
         == SumFlushes(FlushesIn(acts, window, p), ok)
          + Held(Play(acts, window).pending, p, ok) + SumDrains(Play(acts, window).drains, p, ok)
    decreases |acts|
  {
    if acts != [] {
      var prev := acts[..|acts| - 1];
      CountersConserved(prev, window, p, ok);
      StepConserves(Play(prev, window), acts[|acts| - 1], window, p, ok);
      SumGrows(FlushesIn(prev, window, p), FlushesBy(Play(prev, window), acts[|acts| - 1], p), ok);
    }
  }

  /** Failures of a provider since its last success, read off the actions alone. */
  function Streak(acts: seq<Action>, p: Provider): nat {
    if acts == [] then 0
    else
      match acts[|acts| - 1]
      case Report(q, ok) =>
        if q != p then Streak(acts[..|acts| - 1], p) else if ok then 0 else Streak(acts[..|acts| - 1], p) + 1
      case _ => Streak(acts[..|acts| - 1], p)
  }

  /** The streak outlives drains: in every run it is the failures since the last success. */
  lemma {:induction false} StreakIsFailuresSinceSuccess(acts: seq<Action>, window: nat, p: Provider)
    ensures CountOr(Play(acts, window).failing, p) == Streak(acts, p)
    decreases |acts|
  {
    if acts != [] {
      StreakIsFailuresSinceSuccess(acts[..|acts| - 1], window, p);
    }
  }

  // ---- the rolling window ----

  /** Which flush opened the current window, from the flush times alone. */
  function Opening(fs: seq<Flush>, window: nat): (k: nat)
    requires fs != []
    ensures k < |fs|
  {
    if |fs| == 1 then 0
    else
      var k := Opening(fs[..|fs| - 1], window);
      if fs[|fs| - 1].at - fs[k].at > window then |fs| - 1 else k
  }

  /** The row's counts are exactly what was flushed since the flush that opened its window. */
  ghost predicate CountsWindow(row: Row, fs: seq<Flush>, window: nat) {
    && fs != []
    && row.windowStart == fs[Opening(fs, window)].at
    && row.success == SumFlushes(fs[Opening(fs, window)..], true)
    && row.failure == SumFlushes(fs[Opening(fs, window)..], false)
  }

  lemma FirstFlush(d: Pending, now: int, window: nat)
    ensures CountsWindow(Upserted(None, d, now, window), [Flush(now, d.success, d.failure)], window)
  {
    SumAppended([], Flush(now, d.success, d.failure), true);
    SumAppended([], Flush(now, d.success, d.failure), false);
    assert [] + [Flush(now, d.success, d.failure)] == [Flush(now, d.success, d.failure)];
  }

  lemma NextFlush(row: Row, fs: seq<Flush>, d: Pending, now: int, window: nat)
    requires CountsWindow(row, fs, window)
    ensures CountsWindow(Upserted(Some(row), d, now, window), fs + [Flush(now, d.success, d.failure)], window)
  {
    var f := Flush(now, d.success, d.failure);
    var k := Opening(fs, window);
    assert (fs + [f])[..|fs|] == fs;
    if Stale(row.windowStart, now, window) {
      FirstFlush(d, now, window);
      assert (fs + [f])[|fs|..] == [f];
    } else {
      assert (fs + [f])[k..] == fs[k..] + [f];
      SumAppended(fs[k..], f, true);
      SumAppended(fs[k..], f, false);
    }
  }

  lemma StepRow(h: Health, a: Action, window: nat, p: Provider)
    ensures RowOf(Step(h, a, window).rows, p)
         == if a.Commit? && a.k < |h.drains| && HasNews(h.drains[a.k], p)
            then Some(Upserted(RowOf(h.rows, p), h.drains[a.k][p], a.now, window)) else RowOf(h.rows, p)
  {
  }

  /** In every reachable state a row exists once something was flushed, and counts its window. */
  lemma {:induction false} RowsCountTheirWindow(acts: seq<Action>, window: nat, p: Provider)
    ensures p in Play(acts, window).rows <==> FlushesIn(acts, window, p) != []
    ensures p in Play(acts, window).rows ==>
      CountsWindow(Play(acts, window).rows[p], FlushesIn(acts, window, p), window)
    decreases |acts|
  {
    if acts != [] {
      var prev := acts[..|acts| - 1];
      var h, a := Play(prev, window), acts[|acts| - 1];
      RowsCountTheirWindow(prev, window, p);
      StepRow(h, a, window, p);
      assert RowOf(Play(acts, window).rows, p) == RowOf(Step(h, a, window).rows, p);
      var fs := FlushesIn(prev, window, p);
      if FlushesBy(h, a, p) == [] {
        assert FlushesIn(acts, window, p) == fs;
      } else if p in h.rows {
        NextFlush(h.rows[p], fs, h.drains[a.k][p], a.now, window);
      } else {
        FirstFlush(h.drains[a.k][p], a.now, window);
        assert FlushesIn(acts, window, p) == FlushesBy(h, a, p);
      }
    }
  }

  /** Every flush a row counts came at most one window after the flush that opened it. */
  lemma {:induction false} WindowStaysBounded(fs: seq<Flush>, window: nat, j: nat)
    requires fs != [] && Opening(fs, window) <= j < |fs|
    ensures fs[j].at <= fs[Opening(fs, window)].at + window
    decreases |fs|
  {
    var n := |fs| - 1;
    if n > 0 && j < n && Opening(fs, window) < n {
      WindowStaysBounded(fs[..n], window, j);
    }
  }
}
