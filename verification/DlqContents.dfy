/** What jobs and dead letters say, over whole runs. */
module DlqContents {
  import opened Options
  import opened StreamIds
  import opened DlqRedrive

  /** Action `i` of the run enqueued this very message, before any redrive. */
  predicate EnqueuedBy(cfg: Config, acts: seq<Action>, i: nat, j: Job) {
    && i < |acts| && acts[i].Enqueue? && acts[i].stream == j.stream && acts[i].envelope == j.entry.fields.envelope
    && (j.entry.hops == 0 ==> j.entry.fields.kind == Some(acts[i].kind))
    && (j.entry.hops > 0 ==> j.stream in cfg.kinds && j.entry.fields.kind == Some(cfg.kinds[j.stream]))
  }

  ghost predicate Enqueued(cfg: Config, acts: seq<Action>, j: Job) {
    exists i :: EnqueuedBy(cfg, acts, i, j)
  }

  /** Job `i` failed, and the dead letter says so. */
  ghost predicate LetterFor(cfg: Config, jobs: seq<Job>, i: nat, e: Entry) {
    i < |jobs| && e.fields.reason.Some? && DeadLetterOf(cfg, e, jobs[i], e.fields.reason.value)
  }

  ghost predicate HasJob(cfg: Config, jobs: seq<Job>, e: Entry) {
    exists i :: LetterFor(cfg, jobs, i, e)
  }

  ghost predicate Carried(cfg: Config, acts: seq<Action>, s: Server) {
    && (forall k :: 0 <= k < |s.jobs| ==> Enqueued(cfg, acts, s.jobs[k]))
    && (forall k :: 0 <= k < |s.dead| ==> HasJob(cfg, s.jobs, s.dead[k]))
  }

  lemma LongerRun(cfg: Config, acts: seq<Action>, a: Action, j: Job)
    requires Enqueued(cfg, acts, j)
    ensures Enqueued(cfg, acts + [a], j)
  {
    var i: nat :| EnqueuedBy(cfg, acts, i, j);
    assert EnqueuedBy(cfg, acts + [a], i, j);
  }

  lemma MoreJobs(cfg: Config, jobs: seq<Job>, j: Job, e: Entry)
    requires HasJob(cfg, jobs, e)
    ensures HasJob(cfg, jobs + [j], e)
  {
    var i: nat :| LetterFor(cfg, jobs, i, e);
    assert LetterFor(cfg, jobs + [j], i, e);
  }

  lemma RedeliveryIsEnqueued(cfg: Config, acts: seq<Action>, s: Server, k: nat, id: Id)
    requires Inv(s) && Carried(cfg, acts, s) && k < |s.flights| && s.flights[k].entry.fields.originalStream.Some?
    ensures Enqueued(cfg, acts, Redelivery(s.flights[k].entry, id))
  {
    var e := s.flights[k].entry;
    assert FlightOk(s, s.flights[k]);
    var d :| 0 <= d < |s.dead| && s.dead[d] == e;
    var i: nat :| LetterFor(cfg, s.jobs, i, e);
    var n: nat :| EnqueuedBy(cfg, acts, n, s.jobs[i]);
    assert EnqueuedBy(cfg, acts, n, Redelivery(e, id));
  }

  lemma JobAdded(cfg: Config, acts: seq<Action>, s: Server, a: Action, j: Job)
    requires Carried(cfg, acts, s) && Step(cfg, s, a).jobs == s.jobs + [j] && Step(cfg, s, a).dead == s.dead
    requires Enqueued(cfg, acts + [a], j)
    ensures Carried(cfg, acts + [a], Step(cfg, s, a))
  {
    forall k | 0 <= k < |s.jobs| ensures Enqueued(cfg, acts + [a], s.jobs[k]) {
      LongerRun(cfg, acts, a, s.jobs[k]);
    }
    forall k | 0 <= k < |s.dead| ensures HasJob(cfg, s.jobs + [j], s.dead[k]) {
      MoreJobs(cfg, s.jobs, j, s.dead[k]);
    }
  }

  lemma NoJobAdded(cfg: Config, acts: seq<Action>, s: Server, a: Action)
    requires Carried(cfg, acts, s) && Step(cfg, s, a).jobs == s.jobs
    requires forall e :: e in Step(cfg, s, a).dead && e !in s.dead ==> HasJob(cfg, s.jobs, e)
    ensures Carried(cfg, acts + [a], Step(cfg, s, a))
  {
    forall k | 0 <= k < |s.jobs| ensures Enqueued(cfg, acts + [a], s.jobs[k]) {
      LongerRun(cfg, acts, a, s.jobs[k]);
    }
    var dead := Step(cfg, s, a).dead;
    forall k | 0 <= k < |dead| ensures HasJob(cfg, s.jobs, dead[k]) {
      if dead[k] in s.dead {
        var i :| 0 <= i < |s.dead| && s.dead[i] == dead[k];
      }
    }
  }

  lemma DeadLetterHasJob(cfg: Config, s: Server, a: Action)
    requires a.DeadLetter? && a.k < |s.jobs| && s.jobs[a.k].stream in cfg.kinds && NewestDead(s, a.id)
    ensures forall e :: e in Step(cfg, s, a).dead && e !in s.dead ==> HasJob(cfg, s.jobs, e)
  {
    var e := Step(cfg, s, a).dead[|s.dead|];
    assert LetterFor(cfg, s.jobs, a.k, e);
  }

  lemma CarriedStep(cfg: Config, acts: seq<Action>, s: Server, a: Action)
    requires Inv(s) && Carried(cfg, acts, s)
    ensures Carried(cfg, acts + [a], Step(cfg, s, a))
  {
    var s' := Step(cfg, s, a);
    if a.Enqueue? {
      assert EnqueuedBy(cfg, acts + [a], |acts|, s'.jobs[|s.jobs|]);
      JobAdded(cfg, acts, s, a, s'.jobs[|s.jobs|]);
    } else if a.Add? && s'.jobs != s.jobs {
      RedeliveryIsEnqueued(cfg, acts, s, a.k, a.id);
      LongerRun(cfg, acts, a, s'.jobs[|s.jobs|]);
      JobAdded(cfg, acts, s, a, s'.jobs[|s.jobs|]);
    } else {
      if a.DeadLetter? && s'.dead != s.dead {
        DeadLetterHasJob(cfg, s, a);
      }
      NoJobAdded(cfg, acts, s, a);
    }
  }

  /**
   However often a message fails and is redriven: every job on a stream is a message that was
   enqueued on that stream, envelope unchanged, and every dead letter names the job it was made
   from, with that job's envelope.
   */
  lemma {:induction false} MessagesKeepTheirContents(cfg: Config, acts: seq<Action>)
    ensures Carried(cfg, acts, Play(cfg, acts))
    decreases |acts|
  {
    if acts != [] {
      var n := |acts| - 1;
      MessagesKeepTheirContents(cfg, acts[..n]);
      Reachable(cfg, acts[..n]);
      CarriedStep(cfg, acts[..n], Play(cfg, acts[..n]), acts[n]);
      assert acts[..n] + [acts[n]] == acts;
    }
  }
}
