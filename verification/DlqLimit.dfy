/** How often one message can be redriven. */
module DlqLimit {
  import opened Options
  import opened StreamIds
  import opened DlqRedrive

  predicate HandsBack(a: Action) {
    a.DeadLetter? ==> a.handBack
  }

  /** Every worker hands back the fields it received. */
  ghost predicate AllHandBack(acts: seq<Action>) {
    forall i :: 0 <= i < |acts| ==> HandsBack(acts[i])
  }

  /** The counter a message carries is the number of redrives behind it, within the limit. */
  ghost predicate Counted(cfg: Config, e: Entry) {
    CountOf(e.fields) == e.hops && e.hops <= Max(cfg.limit, 0)
  }

  /** A redrive past its read was still allowed one more. */
  ghost predicate FlightCounted(cfg: Config, f: Flight) {
    Counted(cfg, f.entry) && CountOf(f.entry.fields) < cfg.limit
  }

  ghost predicate AllCounted(cfg: Config, s: Server) {
    && (forall i :: 0 <= i < |s.jobs| ==> Counted(cfg, s.jobs[i].entry))
    && (forall e :: e in s.dlq ==> Counted(cfg, e))
    && (forall i :: 0 <= i < |s.flights| ==> FlightCounted(cfg, s.flights[i]))
  }

  lemma StepCounts(cfg: Config, s: Server, a: Action)
    requires AllCounted(cfg, s) && HandsBack(a)
    ensures AllCounted(cfg, Step(cfg, s, a))
  {
    if a.Read? {
      FindIs(s.dlq, a.id);
    }
  }

  /**
   When workers hand back the fields they received, every entry of every reachable state counts
   its own redrives, and none has more than the limit behind it.
   */
  lemma {:induction false} RedrivesAreCounted(cfg: Config, acts: seq<Action>)
    requires AllHandBack(acts)
    ensures AllCounted(cfg, Play(cfg, acts))
    decreases |acts|
  {
    if acts != [] {
      RedrivesAreCounted(cfg, acts[..|acts| - 1]);
      StepCounts(cfg, Play(cfg, acts[..|acts| - 1]), acts[|acts| - 1]);
    }
  }

  // ---- the worker's failure path rebuilds the fields ----

  const STREAM: StreamName := 0
  const KIND := "stats_poll"
  const FAILED := "failed"

  /** Job `n` fails, its worker rebuilds the fields, and an operator redrives it. */
  function Round(acts: seq<Action>, n: nat): seq<Action> {
    acts + [DeadLetter(n, false, Id(n, 0), FAILED)] + [Read(Id(n, 0))] + [Add(0, Id(n, 0))] + [Delete(0)]
  }

  /** Over and over. */
  function Again(first: Action, n: nat): seq<Action> {
    if n == 0 then [first] else Round(Again(first, n - 1), n - 1)
  }

  ghost predicate AfterLoops(s: Server, n: nat) {
    && |s.jobs| == n + 1 && s.jobs[n].stream == STREAM && s.jobs[n].entry.hops == n
    && s.dlq == [] && s.flights == []
    && (s.dead == [] <==> n == 0) && (n > 0 ==> s.dead[|s.dead| - 1].id == Id(n - 1, 0))
  }

  lemma PlayOneMore(cfg: Config, acts: seq<Action>, a: Action)
    ensures Play(cfg, acts + [a]) == Step(cfg, Play(cfg, acts), a)
  {
    assert (acts + [a])[..|acts|] == acts;
  }

  function FourSteps(cfg: Config, s: Server, a: Action, b: Action, c: Action, d: Action): Server {
    Step(cfg, Step(cfg, Step(cfg, Step(cfg, s, a), b), c), d)
  }

  lemma PlayFourMore(cfg: Config, acts: seq<Action>, a: Action, b: Action, c: Action, d: Action)
    ensures Play(cfg, acts + [a] + [b] + [c] + [d]) == FourSteps(cfg, Play(cfg, acts), a, b, c, d)
  {
    PlayOneMore(cfg, acts, a);
    PlayOneMore(cfg, acts + [a], b);
    PlayOneMore(cfg, acts + [a] + [b], c);
    PlayOneMore(cfg, acts + [a] + [b] + [c], d);
  }

  lemma OnlyOneDead(e: Entry)
    ensures Find([e], e.id) == Some(e) && Without([e], e.id) == []
  {
    assert [e][1..] == [];
  }

  /** One round, from any state that looks like the end of the last one. */
  lemma OneRound(cfg: Config, s: Server, n: nat)
    requires cfg.limit >= 1 && STREAM in cfg.kinds && AfterLoops(s, n)
    ensures AfterLoops(FourSteps(cfg, s, DeadLetter(n, false, Id(n, 0), FAILED), Read(Id(n, 0)), Add(0, Id(n, 0)),
                                 Delete(0)), n + 1)
  {
    var s1 := Step(cfg, s, DeadLetter(n, false, Id(n, 0), FAILED));
    var e := s1.dlq[0];
    assert s1.dlq == [e] && e.id == Id(n, 0) && e.hops == n && CountOf(e.fields) == 0;
    OnlyOneDead(e);
    var s2 := Step(cfg, s1, Read(Id(n, 0)));
    assert s2.flights == [Flight(e, false)];
    var s3 := Step(cfg, s2, Add(0, Id(n, 0)));
    assert s3.flights == [Flight(e, true)] && s3.jobs[n + 1].entry.hops == n + 1;
  }

  lemma NextRound(cfg: Config, acts: seq<Action>, n: nat)
    requires cfg.limit >= 1 && STREAM in cfg.kinds && AfterLoops(Play(cfg, acts), n)
    ensures AfterLoops(Play(cfg, Round(acts, n)), n + 1)
  {
    OneRound(cfg, Play(cfg, acts), n);
    PlayFourMore(cfg, acts, DeadLetter(n, false, Id(n, 0), FAILED), Read(Id(n, 0)), Add(0, Id(n, 0)), Delete(0));
  }

  /** With the limit at 1 or more, a message can be redriven any number of times. */
  lemma {:induction false} RedriveForever(cfg: Config, first: Action, n: nat)
    requires first.Enqueue? && first.stream == STREAM && cfg.limit >= 1 && STREAM in cfg.kinds
    ensures AfterLoops(Play(cfg, Again(first, n)), n)
    decreases n
  {
    if n == 0 {
      FirstJob(cfg, first);
    } else {
      RedriveForever(cfg, first, n - 1);
      NextRound(cfg, Again(first, n - 1), n - 1);
    }
  }

  lemma FirstJob(cfg: Config, first: Action)
    requires first.Enqueue? && first.stream == STREAM
    ensures AfterLoops(Play(cfg, [first]), 0)
  {
    PlayOneMore(cfg, [], first);
    assert [] + [first] == [first];
  }

  ghost predicate WithinLimit(cfg: Config, s: Server) {
    forall i :: 0 <= i < |s.jobs| ==> s.jobs[i].entry.hops <= Max(cfg.limit, 0)
  }

  /** The limit bounds the redrives of every message in every run. */
  ghost predicate LimitEnforced(cfg: Config, handBack: bool) {
    forall acts :: (handBack ==> AllHandBack(acts)) ==> WithinLimit(cfg, Play(cfg, acts))
  }

  ghost predicate NoHops(s: Server) {
    && (forall i :: 0 <= i < |s.jobs| ==> s.jobs[i].entry.hops == 0)
    && (forall e :: e in s.dlq ==> CountOf(e.fields) == 0)
    && (forall i :: 0 <= i < |s.jobs| ==> CountOf(s.jobs[i].entry.fields) == 0)
    && s.flights == []
  }

  lemma {:induction false} NoRedrivesAtAll(cfg: Config, acts: seq<Action>)
    requires cfg.limit <= 0
    ensures NoHops(Play(cfg, acts))
    decreases |acts|
  {
    if acts != [] {
      NoRedrivesAtAll(cfg, acts[..|acts| - 1]);
      var s := Play(cfg, acts[..|acts| - 1]);
      if acts[|acts| - 1].Read? {
        FindIs(s.dlq, acts[|acts| - 1].id);
      }
    }
  }

  /**
   The redrive limit does what it is for exactly when workers hand back the fields they
   received, or when it allows no redrive to begin with.
   */
  lemma LimitHoldsExactlyWhen(cfg: Config, handBack: bool)
    requires STREAM in cfg.kinds
    ensures LimitEnforced(cfg, handBack) <==> handBack || cfg.limit <= 0
  {
    if handBack || cfg.limit <= 0 {
      forall acts | handBack ==> AllHandBack(acts) ensures WithinLimit(cfg, Play(cfg, acts)) {
        if handBack {
          RedrivesAreCounted(cfg, acts);
        } else {
          NoRedrivesAtAll(cfg, acts);
        }
      }
    } else {
      var n := cfg.limit + 1;
      var first := Enqueue(STREAM, Id(0, 0), map[], KIND);
      RedriveForever(cfg, first, n);
      var s := Play(cfg, Again(first, n));
      assert !(s.jobs[n].entry.hops <= Max(cfg.limit, 0));
      assert !WithinLimit(cfg, s);
    }
  }
}
