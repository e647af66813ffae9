/**
 Job streams, the shared dead-letter stream and redrives between them. A redrive is three
 steps against the server (read, XADD, XDEL) with anything in between, a crash included.
 */
module DlqRedrive {
  import opened Options
  import opened StreamIds

  type StreamName = nat

  /** The text of a counter: a number, or something that does not read as one. */
  datatype Count = Number(n: int) | Garbled

  /** A message's fields: the job's own, and those the dead-letter path reads and writes. */
  datatype Fields = Fields(
    envelope: map<string, string>, kind: Option<string>, originalId: Option<Id>,
    originalStream: Option<StreamName>, reason: Option<string>, redriveCount: Option<Count>)

  /**
   `hops` and `origin` are history, which no operation reads: how many redrives stand behind the
   entry, and the dead letter a redrive made it from.
   */
  datatype Entry = Entry(id: Id, fields: Fields, hops: nat, origin: Option<Id>)

  datatype Job = Job(stream: StreamName, entry: Entry)

  datatype Config = Config(limit: int, kinds: map<StreamName, string>)

  /** A redrive in progress, from its read on. */
  datatype Flight = Flight(entry: Entry, added: bool)

  /**
   `jobs` is every job stream's log in one, `dlq` the dead-letter log. `dead` and `dropped` are
   history: all entries the dead-letter log has had, and the ids an operator deleted or the
   length cap evicted.
   */
  datatype Server = Server(jobs: seq<Job>, dlq: seq<Entry>, flights: seq<Flight>, dead: seq<Entry>, dropped: set<Id>)

  const INITIAL := Server([], [], [], [], {})

  // ---- the field maps ----

  function DeadFields(f: Fields, from: Id, stream: StreamName, kind: string, reason: string): Fields {
    Fields(f.envelope, Some(kind), Some(from), Some(stream), Some(reason),
           if f.redriveCount.Some? then f.redriveCount else Some(Number(0)))
  }

  function CountOf(f: Fields): int {
    match f.redriveCount
    case Some(Number(n)) => n
    case Some(Garbled) => 0
    case None => 0
  }

  function RedrivenFields(f: Fields): Fields {
    Fields(f.envelope, f.kind, None, None, None, Some(Number(CountOf(f) + 1)))
  }

  /** A worker that rebuilds the fields from the parsed envelope leaves the counter behind. */
  function Rebuilt(f: Fields): Fields {
    Fields(f.envelope, f.kind, None, None, None, None)
  }

  // ---- the server's commands ----

  function Find(log: seq<Entry>, id: Id): Option<Entry> {
    if log == [] then None else if log[0].id == id then Some(log[0]) else Find(log[1..], id)
  }

  function Without(log: seq<Entry>, id: Id): (r: seq<Entry>)
    ensures forall e :: e in r <==> e in log && e.id != id
  {
    if log == [] then []
    else if log[0].id == id then Without(log[1..], id) else [log[0]] + Without(log[1..], id)
  }

  /** XADD takes only an id after every id the stream has had. */
  predicate NewestDead(s: Server, id: Id) {
    s.dead == [] || Before(s.dead[|s.dead| - 1].id, id)
  }

  // ---- steps ----

  datatype Refusal = NotFound | UnknownStream | LimitReached

  function Refused(cfg: Config, e: Option<Entry>): Option<Refusal> {
    if e.None? then Some(NotFound)
    else
      var f := e.value.fields;
      if f.originalStream.None? || f.originalStream.value !in cfg.kinds then Some(UnknownStream)
      else if CountOf(f) >= cfg.limit then Some(LimitReached) else None
  }

  function Enqueued(s: Server, stream: StreamName, id: Id, envelope: map<string, string>, kind: string): Server {
    s.(jobs := s.jobs + [Job(stream, Entry(id, Fields(envelope, Some(kind), None, None, None, None), 0, None))])
  }

  /** A worker gives up on job `k`: handing back its fields, or rebuilding them. */
  function DeadLettered(cfg: Config, s: Server, k: nat, handBack: bool, id: Id, reason: string): Server
    requires k < |s.jobs| && s.jobs[k].stream in cfg.kinds
  {
    var j := s.jobs[k];
    var f := if handBack then j.entry.fields else Rebuilt(j.entry.fields);
    var e := Entry(id, DeadFields(f, j.entry.id, j.stream, cfg.kinds[j.stream], reason), j.entry.hops, None);
    s.(dlq := s.dlq + [e], dead := s.dead + [e])
  }

  function ReadBack(cfg: Config, s: Server, id: Id): Server {
    var e := Find(s.dlq, id);
    if Refused(cfg, e).Some? || e.None? then s else s.(flights := s.flights + [Flight(e.value, false)])
  }

  /** The job a redrive of dead letter `e` adds. */
  function Redelivery(e: Entry, id: Id): Job
    requires e.fields.originalStream.Some?
  {
    Job(e.fields.originalStream.value, Entry(id, RedrivenFields(e.fields), e.hops + 1, Some(e.id)))
  }

  function AddedBack(s: Server, k: nat, id: Id): Server
    requires k < |s.flights| && s.flights[k].entry.fields.originalStream.Some?
  {
    var e := s.flights[k].entry;
    s.(jobs := s.jobs + [Redelivery(e, id)],
       flights := s.flights[k := Flight(e, true)])
  }

  function Landed(s: Server, k: nat): Server
    requires k < |s.flights|
  {
    s.(flights := s.flights[..k] + s.flights[k + 1..])
  }

  function DeletedBehind(s: Server, k: nat): Server
    requires k < |s.flights|
  {
    Landed(s, k).(dlq := Without(s.dlq, s.flights[k].entry.id))
  }

  function Dropped(s: Server, id: Id): Server {
    s.(dlq := Without(s.dlq, id), dropped := s.dropped + {id})
  }

  datatype Action =
    | Enqueue(stream: StreamName, id: Id, envelope: map<string, string>, kind: string)
    | DeadLetter(k: nat, handBack: bool, id: Id, reason: string)
    | Read(id: Id)
    | Add(k: nat, id: Id)
    | Delete(k: nat)
    | Crash(k: nat)
    | Drop(id: Id)

  /** An action whose turn it is not changes nothing, so every list of actions is a run. */
  function Step(cfg: Config, s: Server, a: Action): Server {
    match a
    case Enqueue(stream, id, envelope, kind) => Enqueued(s, stream, id, envelope, kind)
    case DeadLetter(k, handBack, id, reason) =>
      if k < |s.jobs| && s.jobs[k].stream in cfg.kinds && NewestDead(s, id)
      then DeadLettered(cfg, s, k, handBack, id, reason) else s
    case Read(id) => ReadBack(cfg, s, id)
    case Add(k, id) =>
      if k < |s.flights| && !s.flights[k].added && s.flights[k].entry.fields.originalStream.Some?
      then AddedBack(s, k, id) else s
    case Delete(k) => if k < |s.flights| && s.flights[k].added then DeletedBehind(s, k) else s
    case Crash(k) => if k < |s.flights| then Landed(s, k) else s
    case Drop(id) => Dropped(s, id)
  }

  function Play(cfg: Config, acts: seq<Action>): Server {
    if acts == [] then INITIAL else Step(cfg, Play(cfg, acts[..|acts| - 1]), acts[|acts| - 1])
  }

  // ---- what a dead letter and a redrive must carry ----

  /** The counter stands at `n`; what does not read as a number stands at 0. */
  predicate StandsAt(c: Option<Count>, n: int) {
    if c.Some? && c.value.Number? then c.value.n == n else n == 0
  }

  /** One up from where it stood. */
  predicate OneUp(before: Option<Count>, after: Option<Count>) {
    after.Some? && after.value.Number? && StandsAt(before, after.value.n - 1)
  }

  /** A job made from dead letter `e`, on the stream it came from: the same message, counted once more. */
  predicate MadeFrom(j: Job, e: Entry) {
    var f, g := e.fields, j.entry.fields;
    && j.entry.origin == Some(e.id) && j.entry.hops == e.hops + 1 && f.originalStream == Some(j.stream)
    && g.envelope == f.envelope && g.kind == f.kind && OneUp(f.redriveCount, g.redriveCount)
    && g.originalId.None? && g.originalStream.None? && g.reason.None?
  }

  /** A dead letter of job `j`: the same message, and where, from what and why it failed. */
  predicate DeadLetterOf(cfg: Config, e: Entry, j: Job, reason: string) {
    var f := e.fields;
    && f.envelope == j.entry.fields.envelope
    && f.originalId == Some(j.entry.id) && f.originalStream == Some(j.stream)
    && j.stream in cfg.kinds && f.kind == Some(cfg.kinds[j.stream]) && f.reason == Some(reason)
    && e.hops == j.entry.hops && e.origin.None?
  }

  // ---- the operator's redrive, start to end ----

  /** The three steps one after the other, cut short by whichever fails. */
  function Redone(cfg: Config, s: Server, id: Id, newId: Id, addFails: bool, deleteFails: bool): Server {
    var k := |s.flights|;
    var read := Step(cfg, s, Read(id));
    if addFails then Step(cfg, read, Crash(k))
    else Step(cfg, Step(cfg, read, Add(k, newId)), if deleteFails then Crash(k) else Delete(k))
  }

  lemma RedoneIs(cfg: Config, s: Server, id: Id, newId: Id, addFails: bool, deleteFails: bool)
    requires Refused(cfg, Find(s.dlq, id)).None?
    ensures var e := Find(s.dlq, id).value;
            var left := if deleteFails then s.dlq else Without(s.dlq, id);
            var added := s.(jobs := s.jobs + [Redelivery(e, newId)], dlq := left);
            Redone(cfg, s, id, newId, addFails, deleteFails) == if addFails then s else added
  {
    FindIs(s.dlq, id);
    var e := Find(s.dlq, id).value;
    assert (s.flights + [Flight(e, false)])[..|s.flights|] == s.flights;
    assert (s.flights + [Flight(e, true)])[..|s.flights|] == s.flights;
  }

  datatype Redrive = Redriven(stream: StreamName, count: int) | Rejected(refusal: Refusal) | AddFailed

  /** The stream a dead letter names is one of ours. */
  predicate Routable(cfg: Config, f: Fields) {
    f.originalStream.Some? && f.originalStream.value in cfg.kinds
  }

  /** What a redrive of `e` must do: refuse it, or add the same message once, counted once more. */
  ghost predicate RedriveOf(cfg: Config, s: Server, e: Entry, newId: Id, addFails: bool, deleteFails: bool,
                            r: Redrive, s': Server)
  {
    if !Routable(cfg, e.fields) then r == Rejected(UnknownStream) && s' == s
    else if exists n :: StandsAt(e.fields.redriveCount, n) && n >= cfg.limit then r == Rejected(LimitReached) && s' == s
    else if addFails then r == AddFailed && s' == s
    else
      && r.Redriven? && e.fields.originalStream == Some(r.stream) && StandsAt(e.fields.redriveCount, r.count - 1)
      && |s'.jobs| == |s.jobs| + 1 && s'.jobs[..|s.jobs|] == s.jobs
      && s'.jobs[|s.jobs|].entry.id == newId && MadeFrom(s'.jobs[|s.jobs|], e)
      && (deleteFails ==> s'.dlq == s.dlq)
      && (!deleteFails ==> forall x :: x in s'.dlq <==> x in s.dlq && x.id != e.id)
      && s'.flights == s.flights && s'.dead == s.dead && s'.dropped == s.dropped
  }

  /** An operator's redrive by id. */
  ghost predicate PlainRedrive(cfg: Config, s: Server, id: Id, newId: Id, addFails: bool, deleteFails: bool,
                               r: Redrive, s': Server)
  {
    if forall e :: e in s.dlq ==> e.id != id then r == Rejected(NotFound) && s' == s
    else exists e :: e in s.dlq && e.id == id && RedriveOf(cfg, s, e, newId, addFails, deleteFails, r, s')
  }

  lemma PlainlyRefused(cfg: Config, s: Server, id: Id, newId: Id, addFails: bool, deleteFails: bool)
    requires Refused(cfg, Find(s.dlq, id)).Some?
    ensures PlainRedrive(cfg, s, id, newId, addFails, deleteFails, Rejected(Refused(cfg, Find(s.dlq, id)).value), s)
  {
    FindIs(s.dlq, id);
    if Find(s.dlq, id).Some? {
      var e := Find(s.dlq, id).value;
      assert StandsAt(e.fields.redriveCount, CountOf(e.fields));
      assert RedriveOf(cfg, s, e, newId, addFails, deleteFails, Rejected(Refused(cfg, Some(e)).value), s);
    }
  }

  lemma PlainlyRedone(cfg: Config, s: Server, id: Id, newId: Id, addFails: bool, deleteFails: bool)
    requires Refused(cfg, Find(s.dlq, id)).None?
    ensures var f := Find(s.dlq, id).value.fields;
            var r := if addFails then AddFailed else Redriven(f.originalStream.value, CountOf(f) + 1);
            PlainRedrive(cfg, s, id, newId, addFails, deleteFails, r, Redone(cfg, s, id, newId, addFails, deleteFails))
  {
    FindIs(s.dlq, id);
    RedoneIs(cfg, s, id, newId, addFails, deleteFails);
    var e := Find(s.dlq, id).value;
    var r := if addFails then AddFailed else Redriven(e.fields.originalStream.value, CountOf(e.fields) + 1);
    assert StandsAt(e.fields.redriveCount, CountOf(e.fields));
    assert RedriveOf(cfg, s, e, newId, addFails, deleteFails, r, Redone(cfg, s, id, newId, addFails, deleteFails));
  }

  class Redis {
    var jobs: seq<Job>
    var dlq: seq<Entry>
    var flights: seq<Flight>
    ghost var dead: seq<Entry>
    ghost var dropped: set<Id>

    ghost function State(): Server
      reads this
    {
      Server(jobs, dlq, flights, dead, dropped)
    }

    constructor ()
      ensures State() == INITIAL
    {
      jobs, dlq, flights, dead, dropped := [], [], [], [], {};
    }

    /** Eviction by the stream's length cap is a `Drop` of its own. */
    method SendToDlq(cfg: Config, k: nat, handBack: bool, id: Id, reason: string)
      requires k < |jobs| && jobs[k].stream in cfg.kinds && NewestDead(State(), id)
      modifies this
      ensures State() == DeadLettered(cfg, old(State()), k, handBack, id, reason)
      ensures exists e :: && dlq == old(dlq) + [e] && e.id == id && DeadLetterOf(cfg, e, jobs[k], reason)
                          && e.fields.redriveCount == if handBack && jobs[k].entry.fields.redriveCount.Some?
                                                      then jobs[k].entry.fields.redriveCount else Some(Number(0))
    {
      var j := jobs[k];
      var f := if handBack then j.entry.fields else Rebuilt(j.entry.fields);
      var existing := if f.redriveCount.Some? then f.redriveCount.value else Number(0);
      var payload := f.(originalId := Some(j.entry.id), originalStream := Some(j.stream),
                        kind := Some(cfg.kinds[j.stream]), reason := Some(reason), redriveCount := Some(existing));
      dlq := dlq + [Entry(id, payload, j.entry.hops, None)];
      dead := dead + [Entry(id, payload, j.entry.hops, None)];
    }

    /** A redrive with nothing in between its steps; the XADD or the XDEL may fail. */
    method RedriveEntry(cfg: Config, id: Id, newId: Id, addFails: bool, deleteFails: bool) returns (r: Redrive)
      modifies this
      ensures var e := Find(old(dlq), id);
              if Refused(cfg, e).Some? then r == Rejected(Refused(cfg, e).value) && State() == old(State())
              else
                && State() == Redone(cfg, old(State()), id, newId, addFails, deleteFails)
                && (addFails <==> r.AddFailed?)
                && (!addFails ==> r == Redriven(e.value.fields.originalStream.value, CountOf(e.value.fields) + 1))
      ensures PlainRedrive(cfg, old(State()), id, newId, addFails, deleteFails, r, State())
    {
      var found := Find(dlq, id);
      if Refused(cfg, found).Some? {
        PlainlyRefused(cfg, State(), id, newId, addFails, deleteFails);
      } else {
        RedoneIs(cfg, State(), id, newId, addFails, deleteFails);
        PlainlyRedone(cfg, State(), id, newId, addFails, deleteFails);
      }
      if found.None? {
        return Rejected(NotFound);
      }
      var e := found.value;
      if e.fields.originalStream.None? || e.fields.originalStream.value !in cfg.kinds {
        return Rejected(UnknownStream);
      }
      if CountOf(e.fields) >= cfg.limit {
        return Rejected(LimitReached);
      }
      var fields := e.fields.(originalId := None, originalStream := None, reason := None,
                              redriveCount := Some(Number(CountOf(e.fields) + 1)));
      if addFails {
        return AddFailed;
      }
      jobs := jobs + [Job(e.fields.originalStream.value, Entry(newId, fields, e.hops + 1, Some(e.id)))];
      if !deleteFails {
        dlq := Without(dlq, id);
      }
      r := Redriven(e.fields.originalStream.value, CountOf(e.fields) + 1);
    }
  }

  lemma {:induction false} FindIs(log: seq<Entry>, id: Id)
    ensures Find(log, id).Some? ==> Find(log, id).value in log && Find(log, id).value.id == id
    ensures Find(log, id).None? <==> forall e :: e in log ==> e.id != id
    decreases |log|
  {
    if log != [] && log[0].id != id {
      FindIs(log[1..], id);
    }
  }

  // ---- no redrive loses a message ----

  /** The message is on its stream again because a redrive put it there. */
  ghost predicate BackOnStream(jobs: seq<Job>, e: Entry) {
    exists i :: 0 <= i < |jobs| && MadeFrom(jobs[i], e)
  }

  ghost predicate Kept(s: Server, e: Entry) {
    e.id in s.dropped || e in s.dlq || BackOnStream(s.jobs, e)
  }

  ghost predicate Ascending(log: seq<Entry>) {
    forall i, j :: 0 <= i < j < |log| ==> Before(log[i].id, log[j].id)
  }

  ghost predicate FlightOk(s: Server, f: Flight) {
    f.entry in s.dead && (f.added ==> BackOnStream(s.jobs, f.entry))
  }

  ghost predicate Inv(s: Server) {
    && Ascending(s.dead)
    && (forall e :: e in s.dlq ==> e in s.dead)
    && (forall i :: 0 <= i < |s.flights| ==> FlightOk(s, s.flights[i]))
    && (forall e :: e in s.dead ==> Kept(s, e))
  }

  lemma BackStays(jobs: seq<Job>, j: Job, e: Entry)
    requires BackOnStream(jobs, e)
    ensures BackOnStream(jobs + [j], e)
  {
    var i :| 0 <= i < |jobs| && MadeFrom(jobs[i], e);
    assert (jobs + [j])[i] == jobs[i];
  }

  lemma MoreJobsKeep(s: Server, s': Server, j: Job)
    requires Inv(s) && s' == s.(jobs := s.jobs + [j])
    ensures Inv(s')
  {
    forall e | BackOnStream(s.jobs, e) ensures BackOnStream(s'.jobs, e) {
      BackStays(s.jobs, j, e);
    }
  }

  lemma SameIdSameEntry(log: seq<Entry>, a: Entry, b: Entry)
    requires Ascending(log) && a in log && b in log && a.id == b.id
    ensures a == b
  {
    var i :| 0 <= i < |log| && log[i] == a;
    var j :| 0 <= j < |log| && log[j] == b;
  }

  lemma DeadLetterKeeps(cfg: Config, s: Server, k: nat, handBack: bool, id: Id, reason: string)
    requires Inv(s) && k < |s.jobs| && s.jobs[k].stream in cfg.kinds && NewestDead(s, id)
    ensures Inv(DeadLettered(cfg, s, k, handBack, id, reason))
  {
    var s' := DeadLettered(cfg, s, k, handBack, id, reason);
    forall e | e in s.dead ensures Kept(s', e) {
      assert Kept(s, e);
    }
    forall i | 0 <= i < |s.flights| ensures FlightOk(s', s'.flights[i]) {
      assert FlightOk(s, s.flights[i]);
    }
    assert Ascending(s'.dead);
  }

  lemma AddKeeps(s: Server, k: nat, id: Id)
    requires Inv(s) && k < |s.flights| && s.flights[k].entry.fields.originalStream.Some?
    ensures Inv(AddedBack(s, k, id))
  {
    var e := s.flights[k].entry;
    var j := Redelivery(e, id);
    var mid := s.(jobs := s.jobs + [j]);
    MoreJobsKeep(s, mid, j);
    assert mid.jobs[|s.jobs|] == j;
    assert FlightOk(mid, s.flights[k]);
    var s' := AddedBack(s, k, id);
    forall i | 0 <= i < |s.flights| ensures FlightOk(s', s'.flights[i]) {
      assert FlightOk(mid, s.flights[i]);
    }
    forall x | x in s.dead ensures Kept(s', x) {
      assert Kept(mid, x);
    }
  }

  lemma LandKeeps(s: Server, k: nat)
    requires Inv(s) && k < |s.flights|
    ensures Inv(Landed(s, k))
  {
    var s' := Landed(s, k);
    forall i | 0 <= i < |s'.flights| ensures FlightOk(s', s'.flights[i]) {
      assert FlightOk(s, s.flights[if i < k then i else i + 1]);
    }
    forall x | x in s.dead ensures Kept(s', x) {
      assert Kept(s, x);
    }
  }

  lemma DeleteKeeps(s: Server, k: nat)
    requires Inv(s) && k < |s.flights| && s.flights[k].added
    ensures Inv(DeletedBehind(s, k))
  {
    LandKeeps(s, k);
    var mid, e := Landed(s, k), s.flights[k].entry;
    var s' := DeletedBehind(s, k);
    assert FlightOk(s, s.flights[k]);
    forall x | x in s.dead ensures Kept(s', x) {
      assert Kept(mid, x);
      if x.id == e.id {
        SameIdSameEntry(s.dead, x, e);
      }
    }
    forall i | 0 <= i < |s'.flights| ensures FlightOk(s', s'.flights[i]) {
      assert FlightOk(mid, mid.flights[i]);
    }
  }

  lemma DropKeeps(s: Server, id: Id)
    requires Inv(s)
    ensures Inv(Dropped(s, id))
  {
    var s' := Dropped(s, id);
    forall x | x in s.dead ensures Kept(s', x) {
      assert Kept(s, x);
    }
    forall i | 0 <= i < |s'.flights| ensures FlightOk(s', s'.flights[i]) {
      assert FlightOk(s, s.flights[i]);
    }
  }

  lemma ReadKeeps(cfg: Config, s: Server, id: Id)
    requires Inv(s)
    ensures Inv(ReadBack(cfg, s, id))
  {
    FindIs(s.dlq, id);
    var s' := ReadBack(cfg, s, id);
    forall x | x in s.dead ensures Kept(s', x) {
      assert Kept(s, x);
    }
    forall i | 0 <= i < |s'.flights| ensures FlightOk(s', s'.flights[i]) {
      if i < |s.flights| {
        assert FlightOk(s, s.flights[i]);
      }
    }
  }

  lemma StepKeeps(cfg: Config, s: Server, a: Action)
    requires Inv(s)
    ensures Inv(Step(cfg, s, a))
  {
    match a
    case Enqueue(stream, id, envelope, kind) =>
      MoreJobsKeep(s, Step(cfg, s, a), Step(cfg, s, a).jobs[|s.jobs|]);
    case DeadLetter(k, handBack, id, reason) =>
      if k < |s.jobs| && s.jobs[k].stream in cfg.kinds && NewestDead(s, id) {
        DeadLetterKeeps(cfg, s, k, handBack, id, reason);
      }
    case Read(id) => ReadKeeps(cfg, s, id);
    case Add(k, id) =>
      if k < |s.flights| && !s.flights[k].added && s.flights[k].entry.fields.originalStream.Some? {
        AddKeeps(s, k, id);
      }
    case Delete(k) =>
      if k < |s.flights| && s.flights[k].added {
        DeleteKeeps(s, k);
      }
    case Crash(k) =>
      if k < |s.flights| {
        LandKeeps(s, k);
      }
    case Drop(id) => DropKeeps(s, id);
  }

  lemma {:induction false} Reachable(cfg: Config, acts: seq<Action>)
    ensures Inv(Play(cfg, acts))
    decreases |acts|
  {
    if acts != [] {
      Reachable(cfg, acts[..|acts| - 1]);
      StepKeeps(cfg, Play(cfg, acts[..|acts| - 1]), acts[|acts| - 1]);
    }
  }

  /**
   Redrives may overlap and may stop anywhere between their steps: every message that was ever
   dead-lettered is still in the dead-letter stream, or a redrive of it has put it back on its own
   stream with its own envelope, or it was deleted by an operator or evicted.
   */
  lemma NoRedriveLosesAMessage(cfg: Config, acts: seq<Action>, e: Entry)
    requires e in Play(cfg, acts).dead
    ensures Kept(Play(cfg, acts), e)
  {
    Reachable(cfg, acts);
  }

  // ---- and none invents one ----

  /** A job that a redrive made has its dead letter in the history. */
  ghost predicate HasSource(dead: seq<Entry>, j: Job) {
    j.entry.origin.Some? ==> exists i :: 0 <= i < |dead| && MadeFrom(j, dead[i])
  }

  ghost predicate Sourced(s: Server) {
    forall i :: 0 <= i < |s.jobs| ==> HasSource(s.dead, s.jobs[i])
  }

  lemma SourceStays(dead: seq<Entry>, e: Entry, j: Job)
    requires HasSource(dead, j)
    ensures HasSource(dead + [e], j)
  {
    if j.entry.origin.Some? {
      var i :| 0 <= i < |dead| && MadeFrom(j, dead[i]);
      assert (dead + [e])[i] == dead[i];
    }
  }

  lemma SourcedStep(cfg: Config, s: Server, a: Action)
    requires Inv(s) && Sourced(s)
    ensures Sourced(Step(cfg, s, a))
  {
    var s' := Step(cfg, s, a);
    if a.DeadLetter? && s'.dead != s.dead {
      forall i | 0 <= i < |s.jobs| ensures HasSource(s'.dead, s'.jobs[i]) {
        SourceStays(s.dead, s'.dead[|s.dead|], s.jobs[i]);
      }
    } else if a.Add? && s'.jobs != s.jobs {
      var e := s.flights[a.k].entry;
      assert FlightOk(s, s.flights[a.k]);
      var i :| 0 <= i < |s.dead| && s.dead[i] == e;
      assert MadeFrom(Redelivery(e, a.id), s.dead[i]);
    }
  }

  /** Every job that a redrive put on a stream repeats a message that was dead-lettered from it. */
  lemma {:induction false} RedrivesInventNothing(cfg: Config, acts: seq<Action>)
    ensures Sourced(Play(cfg, acts))
    decreases |acts|
  {
    if acts != [] {
      var n := |acts| - 1;
      RedrivesInventNothing(cfg, acts[..n]);
      Reachable(cfg, acts[..n]);
      SourcedStep(cfg, Play(cfg, acts[..n]), acts[n]);
    }
  }
}
