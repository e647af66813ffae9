/** Whole runs of the admission bucket: its rate, the token bucket it stands for, and why its
    key may expire. */
module GcraRuns {
  import opened Options
  import opened Gcra

  // ---- one rate, a clock that does not go back, and a key that stays ----

  ghost predicate Nondecreasing(times: seq<real>) {
    forall i, j :: 0 <= i < j < |times| ==> times[i] <= times[j]
  }

  /** The stored arrival time after `times`, and the verdict on each. */
  function Tat(tat: Option<real>, rate: Rate, times: seq<real>): Option<real>
    requires rate.emission > 0.0
    decreases |times|
  {
    if times == [] then tat
    else
      var before := Tat(tat, rate, times[..|times| - 1]);
      var now := times[|times| - 1];
      if Grants(before, rate, now) then Some(NextTat(before, rate.emission, now)) else before
  }

  predicate Granted(tat: Option<real>, rate: Rate, times: seq<real>, i: nat)
    requires rate.emission > 0.0 && i < |times|
  {
    Grants(Tat(tat, rate, times[..i]), rate, times[i])
  }

  /** How many of the requests from `i` up to, not including, `n` were granted. */
  function Count(tat: Option<real>, rate: Rate, times: seq<real>, i: nat, n: nat): nat
    requires rate.emission > 0.0 && i <= n <= |times|
    decreases n
  {
    if n == i then 0
    else Count(tat, rate, times, i, n - 1) + (if Granted(tat, rate, times, n - 1) then 1 else 0)
  }

  lemma TatStep(tat: Option<real>, rate: Rate, times: seq<real>, n: nat)
    requires rate.emission > 0.0 && n < |times|
    ensures Tat(tat, rate, times[..n + 1]) ==
            if Granted(tat, rate, times, n)
            then Some(NextTat(Tat(tat, rate, times[..n]), rate.emission, times[n]))
            else Tat(tat, rate, times[..n])
  {
    assert times[..n + 1][..n] == times[..n];
  }

  /** The time `k` emissions take. */
  function Spent(k: nat, e: real): real {
    if k == 0 then 0.0 else Spent(k - 1, e) + e
  }

  lemma {:induction false} SpentIsProduct(k: nat, e: real)
    ensures Spent(k, e) == k as real * e
  {
    if k > 0 {
      SpentIsProduct(k - 1, e);
      assert k as real * e == (k - 1) as real * e + e;
    }
  }

  /** The stored arrival time is at least `k` emissions past `start`. */
  ghost predicate Outruns(tat: Option<real>, start: real, k: nat, e: real) {
    tat.Some? && tat.value >= start + Spent(k, e)
  }

  lemma OutrunsMore(tat: Option<real>, start: real, k: nat, e: real, now: real)
    requires e > 0.0 && (Outruns(tat, start, k, e) || (k == 0 && now == start))
    ensures Outruns(Some(NextTat(tat, e, now)), start, k + 1, e)
  {
  }

  /** From a grant at `i` on, every grant pushes the arrival time one emission further. */
  lemma {:induction false} TatOutruns(tat: Option<real>, rate: Rate, times: seq<real>, i: nat, n: nat)
    requires rate.emission > 0.0 && i < n <= |times| && Granted(tat, rate, times, i)
    ensures Outruns(Tat(tat, rate, times[..n]), times[i], Count(tat, rate, times, i, n), rate.emission)
    decreases n
  {
    TatStep(tat, rate, times, n - 1);
    if n - 1 > i {
      TatOutruns(tat, rate, times, i, n - 1);
    }
    if Granted(tat, rate, times, n - 1) {
      OutrunsMore(Tat(tat, rate, times[..n - 1]), times[i], Count(tat, rate, times, i, n - 1), rate.emission,
                  times[n - 1]);
    }
  }

  /** Rate bound: `k` grants whose first and last are `w` apart satisfy k <= capacity + w / e. */
  lemma RateBound(tat: Option<real>, rate: Rate, times: seq<real>, i: nat, j: nat)
    requires rate.emission > 0.0 && i <= j < |times|
    requires Granted(tat, rate, times, i) && Granted(tat, rate, times, j)
    ensures var k := Count(tat, rate, times, i, j + 1);
            RateHolds(k, rate, times[j] - times[i])
  {
    var k, last := GrantsSpend(tat, rate, times, i, j);
    GrantsFit(k, rate, times[i], times[j], last);
  }

  lemma BoundFor(tat: Option<real>, rate: Rate, times: seq<real>, i: nat, j: nat, k: nat, w: real)
    requires rate.emission > 0.0 && i <= j < |times|
    requires Granted(tat, rate, times, i) && Granted(tat, rate, times, j)
    requires k == Count(tat, rate, times, i, j + 1) && w == times[j] - times[i]
    ensures RateHolds(k, rate, w)
  {
    RateBound(tat, rate, times, i, j);
  }

  lemma GrantsSpend(tat: Option<real>, rate: Rate, times: seq<real>, i: nat, j: nat) returns (k: nat, last: real)
    requires rate.emission > 0.0 && i <= j < |times|
    requires Granted(tat, rate, times, i) && Granted(tat, rate, times, j)
    ensures k == Count(tat, rate, times, i, j + 1)
    ensures times[i] + Spent(k, rate.emission) <= last && last - times[j] <= rate.Tolerance()
  {
    GrantLeavesRoom(tat, rate, times, j);
    TatOutruns(tat, rate, times, i, j + 1);
    k, last := Count(tat, rate, times, i, j + 1), Tat(tat, rate, times[..j + 1]).value;
  }

  /** A full bucket and what drips in over `w`. */
  function Supply(rate: Rate, w: real): real
    requires rate.emission > 0.0
  {
    rate.capacity as real + w / rate.emission
  }

  predicate RateHolds(k: nat, rate: Rate, w: real)
    requires rate.emission > 0.0
  {
    k as real <= Supply(rate, w)
  }

  lemma GrantsFit(k: nat, rate: Rate, start: real, now: real, last: real)
    requires rate.emission > 0.0 && start + Spent(k, rate.emission) <= last && last - now <= rate.Tolerance()
    ensures RateHolds(k, rate, now - start)
  {
    SpentIsProduct(k, rate.emission);
    DivideThrough(k as real, rate.capacity as real, now - start, rate.emission);
  }

  lemma GrantLeavesRoom(tat: Option<real>, rate: Rate, times: seq<real>, j: nat)
    requires rate.emission > 0.0 && j < |times| && Granted(tat, rate, times, j)
    ensures var t := Tat(tat, rate, times[..j + 1]);
            t.Some? && t.value - times[j] <= rate.Tolerance()
  {
    TatStep(tat, rate, times, j);
  }

  lemma DivideThrough(k: real, c: real, w: real, e: real)
    requires e > 0.0 && k * e <= c * e + w
    ensures k <= c + w / e
  {
    assert w / e * e == w;
    var bound := c + w / e;
    assert bound * e == c * e + w;
    assert (k - bound) * e <= 0.0;
  }

  // ---- the token bucket it stands for ----

  /** An explicit bucket: how many tokens it held when it was last looked at. */
  datatype Tokens = Tokens(level: real, at: real)

  function MinReal(a: real, b: real): real {
    if a < b then a else b
  }

  function Refilled(b: Tokens, rate: Rate, now: real): real
    requires rate.emission > 0.0
  {
    MinReal(rate.capacity as real, b.level + (now - b.at) / rate.emission)
  }

  /** Grants when at least one token is there, and takes it. */
  function Taken(b: Tokens, rate: Rate, now: real): (bool, Tokens)
    requires rate.emission > 0.0
  {
    var level := Refilled(b, rate, now);
    if level >= 1.0 then (true, Tokens(level - 1.0, now)) else (false, Tokens(level, now))
  }

  function TokensAfter(rate: Rate, times: seq<real>): Tokens
    requires rate.emission > 0.0
    decreases |times|
  {
    if times == [] then Tokens(rate.capacity as real, 0.0)
    else Taken(TokensAfter(rate, times[..|times| - 1]), rate, times[|times| - 1]).1
  }

  /** The tokens a stored arrival time stands for at `now`. */
  function LevelOf(tat: Option<real>, rate: Rate, now: real): real
    requires rate.emission > 0.0
  {
    rate.capacity as real - MaxReal(0.0, (if tat.Some? then tat.value else 0.0) - now) / rate.emission
  }

  lemma DivSum(a: real, b: real, e: real)
    requires e > 0.0
    ensures (a + b) / e == a / e + b / e
    ensures a <= b <==> a / e <= b / e
    ensures e / e == 1.0
  {
    assert a / e * e == a && b / e * e == b;
    assert (a / e + b / e) * e == a + b;
  }

  lemma MulDiv(c: real, e: real)
    requires e > 0.0
    ensures c * e / e == c
  {
    var q := c * e / e;
    assert q * e == c * e;
    SameFactor(q, c, e);
  }

  lemma SameFactor(a: real, b: real, e: real)
    requires e > 0.0 && a * e == b * e
    ensures a == b
  {
    assert (a - b) * e == 0.0;
  }

  /** Time passing refills the level a stored arrival time stands for. */
  lemma LevelRefills(tat: Option<real>, rate: Rate, at: real, now: real)
    requires rate.emission > 0.0 && 0.0 <= at <= now
    ensures Refilled(Tokens(LevelOf(tat, rate, at), at), rate, now) == LevelOf(tat, rate, now)
  {
    var e := rate.emission;
    var debt := MaxReal(0.0, (if tat.Some? then tat.value else 0.0) - at);
    DivSum(debt, at - now, e);
    DivSum(debt + (at - now), now - at, e);
    DivSum(0.0, debt + (at - now), e);
    DivSum(debt + (at - now), 0.0, e);
    assert 0.0 / e == 0.0;
    assert (now - at) / e == -((at - now) / e);
  }

  /** How far the stored arrival time is ahead of `now`. */
  function Debt(tat: Option<real>, now: real): real {
    MaxReal(0.0, (if tat.Some? then tat.value else 0.0) - now)
  }

  lemma OneMoreToken(debt: real, c: real, e: real)
    requires e > 0.0
    ensures debt + e - c * e <= 0.0 <==> c - debt / e >= 1.0
    ensures c - (debt + e) / e == c - debt / e - 1.0
  {
    DivSum(debt, e, e);
    DivSum(debt + e, c * e, e);
    MulDiv(c, e);
  }

  /** A request is granted exactly when that level holds a token, and then takes one. */
  lemma LevelGrants(tat: Option<real>, rate: Rate, now: real)
    requires rate.emission > 0.0 && 0.0 <= now
    ensures Grants(tat, rate, now) <==> LevelOf(tat, rate, now) >= 1.0
    ensures LevelOf(Some(NextTat(tat, rate.emission, now)), rate, now) == LevelOf(tat, rate, now) - 1.0
  {
    var debt := Debt(tat, now);
    assert NextTat(tat, rate.emission, now) - now == debt + rate.emission;
    OneMoreToken(debt, rate.capacity as real, rate.emission);
  }

  /** One request, of the number and of the bucket it stands for. */
  lemma LevelTaken(tat: Option<real>, rate: Rate, at: real, now: real)
    requires rate.emission > 0.0 && 0.0 <= at <= now
    ensures var next := if Grants(tat, rate, now) then Some(NextTat(tat, rate.emission, now)) else tat;
            Taken(Tokens(LevelOf(tat, rate, at), at), rate, now)
            == (Grants(tat, rate, now), Tokens(LevelOf(next, rate, now), now))
  {
    LevelRefills(tat, rate, at, now);
    LevelGrants(tat, rate, now);
  }

  lemma FullAtStart(rate: Rate)
    requires rate.emission > 0.0
    ensures LevelOf(None, rate, 0.0) == rate.capacity as real
  {
    assert 0.0 / rate.emission == 0.0;
  }

  function LastOr(times: seq<real>): real {
    if times == [] then 0.0 else times[|times| - 1]
  }

  /** From a missing key, and for as long as the clock does not go back, the one number is the
      explicit token bucket. */
  lemma {:induction false} SameLevel(rate: Rate, times: seq<real>)
    requires rate.emission > 0.0 && Nondecreasing(times) && (forall i :: 0 <= i < |times| ==> 0.0 <= times[i])
    ensures TokensAfter(rate, times) == Tokens(LevelOf(Tat(None, rate, times), rate, LastOr(times)), LastOr(times))
    decreases |times|
  {
    if times == [] {
      FullAtStart(rate);
    } else {
      var n := |times| - 1;
      SameLevel(rate, times[..n]);
      LevelTaken(Tat(None, rate, times[..n]), rate, LastOr(times[..n]), times[n]);
    }
  }

  /** So it has the bucket's level and gives the bucket's answer, at every request. */
  lemma RefinesTokenBucket(rate: Rate, times: seq<real>, i: nat)
    requires rate.emission > 0.0 && Nondecreasing(times) && (forall i :: 0 <= i < |times| ==> 0.0 <= times[i])
    requires i < |times|
    ensures TokensAfter(rate, times[..i]).level == LevelOf(Tat(None, rate, times[..i]), rate, LastOr(times[..i]))
    ensures Granted(None, rate, times, i) <==> Taken(TokensAfter(rate, times[..i]), rate, times[i]).0
  {
    SameLevel(rate, times[..i]);
    LevelTaken(Tat(None, rate, times[..i]), rate, LastOr(times[..i]), times[i]);
  }

  // ---- the time to live ----

  const SKEW := 500.0

  /** Server time moves forward and every worker's clock is within half a second of it.
      The rate may differ at every request. */
  ghost predicate Skewed(rs: seq<Request>) {
    && (forall i :: 0 <= i < |rs| ==> rs[i].rate.emission > 0.0)
    && (forall i :: 0 <= i < |rs| ==> 0.0 <= rs[i].now && -SKEW <= rs[i].now - rs[i].server <= SKEW)
    && (forall i, j :: 0 <= i < j < |rs| ==> rs[i].server <= rs[j].server)
  }

  /** The key as Redis keeps it, and as it would be if it never expired. */
  ghost function KeyAfter(rs: seq<Request>): Option<Key>
    decreases |rs|
  {
    if rs == [] then None else After(KeyAfter(rs[..|rs| - 1]), rs[|rs| - 1])
  }

  ghost function TatAfter(rs: seq<Request>): Option<real>
    decreases |rs|
  {
    if rs == [] then None
    else
      var tat := TatAfter(rs[..|rs| - 1]);
      var r := rs[|rs| - 1];
      if Grants(tat, r.rate, r.now) then Some(NextTat(tat, r.rate.emission, r.now)) else tat
  }

  /** The two agree, and a key outlives its arrival time by the allowed skew. */
  ghost predicate InStep(key: Option<Key>, tat: Option<real>) {
    match key
    case None => tat == None
    case Some(k) => tat == Some(k.tat) && k.tat + SKEW <= k.expiresAt
  }

  /** Past its expiry a key no longer mattered: the arrival time it held is behind every clock. */
  lemma ExpiryIsInvisible(key: Option<Key>, tat: Option<real>, r: Request)
    requires InStep(key, tat) && r.rate.emission > 0.0 && 0.0 <= r.now && -SKEW <= r.now - r.server <= SKEW
    ensures Grants(Visible(key, r.server), r.rate, r.now) <==> Grants(tat, r.rate, r.now)
    ensures NextTat(Visible(key, r.server), r.rate.emission, r.now) == NextTat(tat, r.rate.emission, r.now)
    ensures Grants(tat, r.rate, r.now) ==>
              InStep(After(key, r), Some(NextTat(tat, r.rate.emission, r.now)))
  {
  }

  lemma {:induction false} StaysInStep(rs: seq<Request>)
    requires Skewed(rs)
    ensures InStep(KeyAfter(rs), TatAfter(rs))
    decreases |rs|
  {
    if rs != [] {
      var n := |rs| - 1;
      StaysInStep(rs[..n]);
      ExpiryIsInvisible(KeyAfter(rs[..n]), TatAfter(rs[..n]), rs[n]);
    }
  }

  /** Deleting the key when its time to live runs out never changes an answer. */
  lemma TtlNeverChangesAnAnswer(rs: seq<Request>, i: nat)
    requires Skewed(rs) && i < |rs|
    ensures Grants(Visible(KeyAfter(rs[..i]), rs[i].server), rs[i].rate, rs[i].now)
       <==> Grants(TatAfter(rs[..i]), rs[i].rate, rs[i].now)
  {
    StaysInStep(rs[..i]);
    ExpiryIsInvisible(KeyAfter(rs[..i]), TatAfter(rs[..i]), rs[i]);
  }

  // ---- the stored key, end to end ----

  /** The script's answers, each from the key as Redis holds it then. */
  ghost function Answers(rs: seq<Request>): (b: seq<bool>)
    ensures |b| == |rs|
  {
    if rs == [] then []
    else
      var r := rs[|rs| - 1];
      Answers(rs[..|rs| - 1]) + [Grants(Visible(KeyAfter(rs[..|rs| - 1]), r.server), r.rate, r.now)]
  }

  /** The answers of a key that never expires, under one rate. */
  function Verdicts(rate: Rate, times: seq<real>): (b: seq<bool>)
    requires rate.emission > 0.0
    ensures |b| == |times|
  {
    if times == [] then []
    else
      var n := |times| - 1;
      Verdicts(rate, times[..n]) + [Grants(Tat(None, rate, times[..n]), rate, times[n])]
  }

  /** The answers of the explicit token bucket. */
  function Takes(rate: Rate, times: seq<real>): (b: seq<bool>)
    requires rate.emission > 0.0
    ensures |b| == |times|
  {
    if times == [] then []
    else
      var n := |times| - 1;
      Takes(rate, times[..n]) + [Taken(TokensAfter(rate, times[..n]), rate, times[n]).0]
  }

  /** How many of the answers from `i` up to, not including, `n` are yes. */
  function Yeses(b: seq<bool>, i: nat, n: nat): nat
    requires i <= n <= |b|
    decreases n
  {
    if n == i then 0 else Yeses(b, i, n - 1) + (if b[n - 1] then 1 else 0)
  }

  function Nows(rs: seq<Request>): (times: seq<real>)
    ensures |times| == |rs| && forall i :: 0 <= i < |rs| ==> times[i] == rs[i].now
  {
    if rs == [] then [] else Nows(rs[..|rs| - 1]) + [rs[|rs| - 1].now]
  }

  /** Every request is made under the same rate. */
  ghost predicate Fixed(rs: seq<Request>, rate: Rate) {
    forall i :: 0 <= i < |rs| ==> rs[i].rate == rate
  }

  /** With one rate the key that never expires is the arrival time of the earlier part. */
  lemma {:induction false} TatAfterIsTat(rs: seq<Request>, rate: Rate)
    requires rate.emission > 0.0 && Fixed(rs, rate)
    ensures TatAfter(rs) == Tat(None, rate, Nows(rs))
    decreases |rs|
  {
    if rs != [] {
      TatAfterIsTat(rs[..|rs| - 1], rate);
      assert Nows(rs)[..|rs| - 1] == Nows(rs[..|rs| - 1]);
    }
  }

  lemma LastAnswer(rs: seq<Request>, rate: Rate)
    requires rate.emission > 0.0 && Fixed(rs, rate) && Skewed(rs) && rs != []
    ensures var before, r := rs[..|rs| - 1], rs[|rs| - 1];
            Grants(Visible(KeyAfter(before), r.server), r.rate, r.now)
            <==> Grants(Tat(None, rate, Nows(before)), rate, r.now)
  {
    TtlNeverChangesAnAnswer(rs, |rs| - 1);
    TatAfterIsTat(rs[..|rs| - 1], rate);
  }

  lemma {:induction false} AnswersAreVerdicts(rs: seq<Request>, rate: Rate)
    requires rate.emission > 0.0 && Fixed(rs, rate) && Skewed(rs)
    ensures Answers(rs) == Verdicts(rate, Nows(rs))
    decreases |rs|
  {
    if rs != [] {
      AnswersAreVerdicts(rs[..|rs| - 1], rate);
      LastAnswer(rs, rate);
      assert Nows(rs)[..|rs| - 1] == Nows(rs[..|rs| - 1]);
    }
  }

  lemma {:induction false} VerdictAt(rate: Rate, times: seq<real>, i: nat)
    requires rate.emission > 0.0 && i < |times|
    ensures Verdicts(rate, times)[i] <==> Granted(None, rate, times, i)
    decreases |times|
  {
    var n := |times| - 1;
    if i < n {
      VerdictAt(rate, times[..n], i);
      assert times[..n][..i] == times[..i];
    }
  }

  lemma {:induction false} VerdictsAreCounted(rate: Rate, times: seq<real>, i: nat, n: nat)
    requires rate.emission > 0.0 && i <= n <= |times|
    ensures Yeses(Verdicts(rate, times), i, n) == Count(None, rate, times, i, n)
    decreases n
  {
    if n > i {
      VerdictsAreCounted(rate, times, i, n - 1);
      VerdictAt(rate, times, n - 1);
    }
  }

  lemma VerdictsBound(rate: Rate, times: seq<real>, i: nat, j: nat, k: nat, w: real)
    requires rate.emission > 0.0 && i <= j < |times| && Verdicts(rate, times)[i] && Verdicts(rate, times)[j]
    requires k == Yeses(Verdicts(rate, times), i, j + 1) && w == times[j] - times[i]
    ensures RateHolds(k, rate, w)
  {
    VerdictAt(rate, times, i);
    VerdictAt(rate, times, j);
    VerdictsAreCounted(rate, times, i, j + 1);
    BoundFor(None, rate, times, i, j, k, w);
  }

  /**
   Of the script itself, with its key's time to live and worker clocks half a second off: any
   `k` grants whose first and last are `w` apart satisfy k <= capacity + w / e.
   */
  lemma StoredKeyRateBound(rs: seq<Request>, rate: Rate, i: nat, j: nat, k: nat, w: real)
    requires rate.emission > 0.0 && Fixed(rs, rate) && Skewed(rs) && i <= j < |rs|
    requires Answers(rs)[i] && Answers(rs)[j]
    requires k == Yeses(Answers(rs), i, j + 1) && w == rs[j].now - rs[i].now
    ensures RateHolds(k, rate, w)
  {
    AnswersAreVerdicts(rs, rate);
    VerdictsBound(rate, Nows(rs), i, j, k, w);
  }

  lemma {:induction false} VerdictsAreTakes(rate: Rate, times: seq<real>)
    requires rate.emission > 0.0 && Nondecreasing(times) && (forall i :: 0 <= i < |times| ==> 0.0 <= times[i])
    ensures Verdicts(rate, times) == Takes(rate, times)
    decreases |times|
  {
    if times != [] {
      VerdictsAreTakes(rate, times[..|times| - 1]);
      RefinesTokenBucket(rate, times, |times| - 1);
    }
  }

  /** And its answers are, one by one, the explicit token bucket's. */
  lemma StoredKeyIsTokenBucket(rs: seq<Request>, rate: Rate)
    requires rate.emission > 0.0 && Fixed(rs, rate) && Skewed(rs) && Nondecreasing(Nows(rs))
    ensures Answers(rs) == Takes(rate, Nows(rs))
  {
    AnswersAreVerdicts(rs, rate);
    VerdictsAreTakes(rate, Nows(rs));
  }

  // ---- in tokens per second ----

  /** A bucket into which `drip(w)` tokens drip over `w` milliseconds, up to the capacity. */
  function DrippedLevel(capacity: int, drip: real -> real, b: Tokens, now: real): real {
    MinReal(capacity as real, b.level + drip(now - b.at))
  }

  function DrippedTokens(capacity: int, drip: real -> real, times: seq<real>): Tokens {
    if times == [] then Tokens(capacity as real, 0.0)
    else
      var now := times[|times| - 1];
      var level := DrippedLevel(capacity, drip, DrippedTokens(capacity, drip, times[..|times| - 1]), now);
      Tokens(if level >= 1.0 then level - 1.0 else level, now)
  }

  /** Request `i` of a run finds a token in that bucket. */
  predicate HasToken(capacity: int, drip: real -> real, times: seq<real>, i: nat)
    requires i < |times|
  {
    DrippedLevel(capacity, drip, DrippedTokens(capacity, drip, times[..i]), times[i]) >= 1.0
  }

  /** The drip the settings ask for. */
  function PerSecond(refillPerSec: real): real -> real {
    (w: real) => w / 1000.0 * refillPerSec
  }

  ghost predicate DripsAt(rate: Rate, drip: real -> real)
    requires rate.emission > 0.0
  {
    forall w {:trigger drip(w)} :: drip(w) == w / rate.emission
  }

  lemma ConfiguredDrip(cfg: Config, w: real)
    requires cfg.refillPerSec > 0.0
    ensures w / 1000.0 * cfg.refillPerSec == w / cfg.AsRate().emission
  {
    var r, e := cfg.refillPerSec, cfg.AsRate().emission;
    assert e * r == 1000.0;
    assert w / 1000.0 * r * e == w / 1000.0 * (e * r);
    assert w / e * e == w;
    SameFactor(w / e, w / 1000.0 * r, e);
  }

  lemma ConfiguredDrips(cfg: Config)
    requires cfg.refillPerSec > 0.0
    ensures DripsAt(cfg.AsRate(), PerSecond(cfg.refillPerSec))
  {
    var drip := PerSecond(cfg.refillPerSec);
    forall w ensures drip(w) == w / cfg.AsRate().emission {
      ConfiguredDrip(cfg, w);
    }
  }

  lemma {:induction false} SameTokens(rate: Rate, drip: real -> real, times: seq<real>)
    requires rate.emission > 0.0 && DripsAt(rate, drip)
    ensures TokensAfter(rate, times) == DrippedTokens(rate.capacity, drip, times)
    decreases |times|
  {
    if times != [] {
      SameTokens(rate, drip, times[..|times| - 1]);
    }
  }

  lemma {:induction false} TakesAt(rate: Rate, drip: real -> real, times: seq<real>, i: nat)
    requires rate.emission > 0.0 && DripsAt(rate, drip) && i < |times|
    ensures Takes(rate, times)[i] <==> HasToken(rate.capacity, drip, times, i)
    decreases |times|
  {
    var n := |times| - 1;
    if i < n {
      TakesAt(rate, drip, times[..n], i);
      assert times[..n][..i] == times[..i];
    } else {
      SameTokens(rate, drip, times[..n]);
    }
  }

  /**
   Under one configuration the script grants a request exactly when a bucket of that capacity, into
   which `refillPerSec` tokens drip every second, holds a token for it.
   */
  lemma ScriptIsConfiguredBucket(cfg: Config, rs: seq<Request>, i: nat)
    requires cfg.refillPerSec > 0.0 && Fixed(rs, cfg.AsRate()) && Skewed(rs) && Nondecreasing(Nows(rs)) && i < |rs|
    ensures Answers(rs)[i] <==> HasToken(cfg.capacity, PerSecond(cfg.refillPerSec), Nows(rs), i)
  {
    ConfiguredDrips(cfg);
    StoredKeyIsTokenBucket(rs, cfg.AsRate());
    TakesAt(cfg.AsRate(), PerSecond(cfg.refillPerSec), Nows(rs), i);
  }

  lemma WithinDrip(k: nat, rate: Rate, drip: real -> real, w: real)
    requires rate.emission > 0.0 && DripsAt(rate, drip) && RateHolds(k, rate, w)
    ensures k as real <= rate.capacity as real + drip(w)
  {
  }

  /** Any `k` grants whose first and last are `w` apart: at most a full bucket and what drips in over `w`. */
  lemma ConfiguredRateBound(cfg: Config, rs: seq<Request>, i: nat, j: nat)
    requires cfg.refillPerSec > 0.0 && Fixed(rs, cfg.AsRate()) && Skewed(rs) && i <= j < |rs|
    requires Answers(rs)[i] && Answers(rs)[j]
    ensures Yeses(Answers(rs), i, j + 1) as real
         <= cfg.capacity as real + PerSecond(cfg.refillPerSec)(rs[j].now - rs[i].now)
  {
    var k, w := Yeses(Answers(rs), i, j + 1), rs[j].now - rs[i].now;
    StoredKeyRateBound(rs, cfg.AsRate(), i, j, k, w);
    ConfiguredDrips(cfg);
    WithinDrip(k, cfg.AsRate(), PerSecond(cfg.refillPerSec), w);
  }
}
