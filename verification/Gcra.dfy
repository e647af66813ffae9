/**
 The admission bucket: one theoretical arrival time per provider in a key with a time to live
 (the Generic Cell Rate Algorithm of ITU-T I.371, Annex A). Times are milliseconds.
 */
module Gcra {
  import opened Options

  /** The bucket as time: `emission` between tokens, at most `capacity` of them saved up. */
  datatype Rate = Rate(capacity: int, emission: real) {
    /** The largest burst, expressed in time. */
    function Tolerance(): real {
      capacity as real * emission
    }
  }

  /** The settings passed with every request; the rate in tokens per second is positive. */
  datatype Config = Config(capacity: int, refillPerSec: real) {
    function AsRate(): (r: Rate)
      requires refillPerSec > 0.0
      ensures r.capacity == capacity && r.emission > 0.0
    {
      Rate.Rate(capacity, 1000.0 / refillPerSec)
    }
  }

  function MaxReal(a: real, b: real): real {
    if a < b then b else a
  }

  function Ceil(x: real): int {
    -(-x).Floor
  }

  /** The arrival time a request at `now` would set, given the stored one (absent reads as 0). */
  function NextTat(tat: Option<real>, e: real, now: real): real {
    MaxReal(if tat.Some? then tat.value else 0.0, now) + e
  }

  /** How far a request at `now` overshoots the tolerance; it is granted when not at all. */
  function Deficit(tat: Option<real>, rate: Rate, now: real): real {
    NextTat(tat, rate.emission, now) - now - rate.Tolerance()
  }

  predicate Grants(tat: Option<real>, rate: Rate, now: real) {
    Deficit(tat, rate, now) <= 0.0
  }

  /** The wait a denied request is told, in whole milliseconds. */
  function Hint(tat: Option<real>, rate: Rate, now: real): int {
    Deficit(tat, rate, now).Floor
  }

  /** The stored key and the server instant from which Redis no longer returns it. */
  datatype Key = Key(tat: real, expiresAt: real)

  function Visible(key: Option<Key>, server: real): Option<real> {
    if key.Some? && server < key.value.expiresAt then Some(key.value.tat) else None
  }

  /** One request: the rate it is made under, the worker's clock reading and the server's. */
  datatype Request = Request(rate: Rate, now: real, server: real)

  function After(key: Option<Key>, r: Request): Option<Key> {
    var tat := Visible(key, r.server);
    if Grants(tat, r.rate, r.now)
    then Some(Key(NextTat(tat, r.rate.emission, r.now), r.server + Ceil(r.rate.Tolerance() + 1000.0) as real))
    else key
  }

  class Bucket {
    var key: Option<Key>

    constructor ()
      ensures key == None
    {
      key := None;
    }

    /** The script: a verdict and, when denied, how long to wait. */
    method Eval(cfg: Config, now: real, server: real) returns (granted: bool, waitMs: int)
      requires cfg.refillPerSec > 0.0
      modifies this
      ensures granted <==> Grants(Visible(old(key), server), cfg.AsRate(), now)
      ensures key == After(old(key), Request(cfg.AsRate(), now, server))
      ensures granted ==> waitMs == 0
      ensures !granted ==>
                var d := Deficit(Visible(old(key), server), cfg.AsRate(), now);
                && d - 1.0 < waitMs as real <= d && key == old(key)
                && waitMs == Hint(Visible(old(key), server), cfg.AsRate(), now)
    {
      var emission := 1000.0 / cfg.refillPerSec;
      var dvt := cfg.capacity as real * emission;
      ghost var rate := cfg.AsRate();
      assert emission == rate.emission && dvt == rate.Tolerance();
      var tat := if key.Some? && server < key.value.expiresAt then key.value.tat else 0.0;
      if tat < now {
        tat := now;
      }
      var newTat := tat + emission;
      assert newTat == NextTat(Visible(key, server), rate.emission, now);
      var diff := newTat - now;
      if diff > dvt {
        return false, (diff - dvt).Floor;
      }
      key := Some(Key(newTat, server + Ceil(dvt + 1000.0) as real));
      return true, 0;
    }
  }

  /**
   One turn of the acquire loop: the key other workers have left by then, what the clocks say,
   and whether the script could be run.
   */
  datatype Attempt = Attempt(key: Option<Key>, now: real, server: real, fault: bool, mono: real)

  predicate Denied(cfg: Config, a: Attempt)
    requires cfg.refillPerSec > 0.0
  {
    !a.fault && !Grants(Visible(a.key, a.server), cfg.AsRate(), a.now)
  }

  /** Denied, and the wait it was told, in whole milliseconds, ends past the deadline. */
  predicate GivesUp(cfg: Config, a: Attempt, deadline: real)
    requires cfg.refillPerSec > 0.0
  {
    && Denied(cfg, a)
    && a.mono + Hint(Visible(a.key, a.server), cfg.AsRate(), a.now) as real / 1000.0 > deadline
  }

  /**
   Tries until granted, until the script cannot be run (which lets the caller through), or
   until waiting would pass the deadline; `None` if the attempts observed end first. Other
   workers take tokens between its attempts. The bucket is charged exactly when the script
   granted, and then once.
   */
  method AcquireToken(b: Bucket, cfg: Config, deadline: real, attempts: seq<Attempt>)
    returns (answer: Option<bool>, tried: nat)
    requires cfg.refillPerSec > 0.0
    modifies b
    ensures tried <= |attempts| && (answer.Some? ==> tried > 0)
    ensures forall i :: 0 <= i < tried - 1 ==> Denied(cfg, attempts[i]) && !GivesUp(cfg, attempts[i], deadline)
    ensures answer == Some(true) <==> tried > 0 && !Denied(cfg, attempts[tried - 1])
    ensures answer == Some(false) <==> tried > 0 && GivesUp(cfg, attempts[tried - 1], deadline)
    ensures answer == None ==> tried == |attempts|
    ensures tried > 0 ==>
              var a := attempts[tried - 1];
              b.key == if a.fault then a.key else After(a.key, Request(cfg.AsRate(), a.now, a.server))
  {
    answer, tried := None, 0;
    while tried < |attempts|
      invariant tried <= |attempts| && answer == None
      invariant forall i :: 0 <= i < tried ==> Denied(cfg, attempts[i]) && !GivesUp(cfg, attempts[i], deadline)
      invariant tried > 0 ==> b.key == attempts[tried - 1].key
    {
      var a := attempts[tried];
      tried := tried + 1;
      b.key := a.key;
      if a.fault {
        return Some(true), tried;
      }
      var granted, waitMs := b.Eval(cfg, a.now, a.server);
      if granted {
        return Some(true), tried;
      }
      var waitSecs := waitMs as real / 1000.0;
      if a.mono + waitSecs > deadline {
        return Some(false), tried;
      }
    }
  }

  // ---- the retry hint ----

  /** After a denial, with no grant in between, a bucket that can hold a token denies every
      retry before the exact deficit has elapsed and grants every one from then on. */
  lemma RetryAfterDenial(tat: Option<real>, rate: Rate, now: real, later: real)
    requires rate.emission > 0.0 && rate.capacity >= 1 && 0.0 <= now <= later
    requires !Grants(tat, rate, now)
    ensures Grants(tat, rate, later) <==> now + Deficit(tat, rate, now) <= later
  {
    assert rate.Tolerance() - rate.emission == (rate.capacity - 1) as real * rate.emission;
    assert NextTat(tat, rate.emission, now) - now > rate.emission;
  }

  /** A bucket that cannot hold a token never grants, whatever its hint said. */
  lemma EmptyBucketNeverGrants(tat: Option<real>, rate: Rate, now: real)
    requires rate.emission > 0.0 && rate.capacity < 1
    ensures !Grants(tat, rate, now)
  {
    assert rate.capacity as real * rate.emission <= 0.0;
  }

  /** So the hint is right for every stored time exactly when the capacity is at least one. */
  lemma HintIsRightExactlyWhenATokenFits(rate: Rate)
    requires rate.emission > 0.0
    ensures rate.capacity >= 1 <==>
              forall tat: Option<real>, now: real, later: real ::
                0.0 <= now <= later && !Grants(tat, rate, now) ==>
                  (Grants(tat, rate, later) <==> now + Deficit(tat, rate, now) <= later)
  {
    if rate.capacity >= 1 {
      forall tat: Option<real>, now: real, later: real | 0.0 <= now <= later && !Grants(tat, rate, now)
        ensures Grants(tat, rate, later) <==> now + Deficit(tat, rate, now) <= later
      {
        RetryAfterDenial(tat, rate, now, later);
      }
    } else {
      EmptyBucketNeverGrants(None, rate, 0.0);
      var d := Deficit(None, rate, 0.0);
      EmptyBucketNeverGrants(None, rate, d);
      assert 0.0 <= 0.0 <= d && !Grants(None, rate, 0.0);
    }
  }
}
