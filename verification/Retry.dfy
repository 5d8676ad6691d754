/** The retrying HTTP transport: how often it calls, which responses it disposes of, and how
    long it waits. Durations are signed 64-bit nanosecond counts that wrap. */
module Retry {
  import opened Prelude

  const MAX_INT64: int := 0x7fff_ffff_ffff_ffff
  const MIN_INT64: int := -0x8000_0000_0000_0000
  const HALF_RANGE: int := 0x4000_0000_0000_0000
  const TWO64: int := 0x1_0000_0000_0000_0000

  /** A 64-bit result, wrapped around. */
  function Wrap(x: int): int {
    var r := x % TWO64;
    if r > MAX_INT64 then r - TWO64 else r
  }

  /** The one 64-bit number that differs by whole turns. */
  lemma WrapMeans(x: int, r: int)
    requires MIN_INT64 <= r <= MAX_INT64
    ensures (exists turns: int :: r == x + turns * TWO64) <==> r == Wrap(x)
  {
    var turns := x / TWO64 + if Wrap(x) < 0 then 1 else 0;
    assert Wrap(x) == x + (-turns) * TWO64;
    forall t: int | r == x + t * TWO64
      ensures r == Wrap(x)
    {
      assert r == Wrap(x) + (t + turns) * TWO64;
    }
  }

  datatype Config = Config(maxRetries: int, baseDelay: int, maxDelay: int)

  datatype Body = NoBody | Replayable | OneShot

  datatype Request = Request(verb: string, body: Body)

  /** A Retry-After header: missing, unreadable, whole seconds that fit an int, or a date
      that is `ahead` of now. */
  datatype Header = Absent | Unreadable | Seconds(n: int) | Date(ahead: int)

  /** What one call of the base transport answers. `ctx` marks a cancelled or expired context. */
  datatype Reply = Response(status: int, after: Header) | Failure(ctx: bool) | Nothing

  /** Everything the loop meets, by attempt: the replies, the random jitter, whether the
      context ends during the wait, and whether a fresh body cannot be had. */
  datatype World = World(reply: nat -> Reply, jitter: nat -> nat, cancelled: nat -> bool, bodyFails: nat -> bool)

  predicate Idempotent(verb: string) {
    verb == "GET" || verb == "HEAD" || verb == "OPTIONS" || verb == "TRACE" || verb == ""
  }

  predicate Retries(cfg: Config, req: Request) {
    cfg.maxRetries > 0 && Idempotent(req.verb) && !req.body.OneShot?
  }

  predicate Retryable(r: Reply) {
    match r
    case Failure(ctx) => !ctx
    case Nothing => false
    case Response(status, _) => status == 429 || 500 <= status <= 599
  }

  function RetryAfter(h: Header): Option<int> {
    match h
    case Absent => None
    case Unreadable => None
    case Seconds(n) => if n < 0 then None else Some(Wrap(n * SECOND))
    case Date(ahead) => Some(if ahead > 0 then ahead else 0)
  }

  function HeaderOf(r: Reply): Header {
    if r.Response? then r.after else Absent
  }

  /** A random number below `bound`: each of them is the draw of some `jitter`. */
  function Draw(jitter: nat, bound: nat): nat {
    if jitter < bound then jitter else 0
  }

  /** How long to wait before the next attempt; None stops the retries. */
  function BackoffFor(r: Reply, delay: int, maxDelay: int, jitter: nat): Option<int> {
    match RetryAfter(HeaderOf(r))
    case Some(d) => if maxDelay > 0 && d > maxDelay then None else Some(d)
    case None =>
      if delay <= 0 then Some(0)
      else
        var half := delay / 2;
        Some(half + Draw(jitter, half + 1))
  }

  /** The delay after one more attempt. */
  function Doubled(delay: int, maxDelay: int): int {
    if delay < maxDelay then
      var d := Wrap(delay * 2);
      if d > maxDelay then maxDelay else d
    else delay
  }

  /** The nominal delay before retry k + 1. */
  function Delay(cfg: Config, k: nat): int {
    if k == 0 then cfg.baseDelay else Doubled(Delay(cfg, k - 1), cfg.maxDelay)
  }

  /** The wait that follows attempt `k`, or None when that attempt is the last. */
  function WaitAfter(cfg: Config, w: World, k: nat): Option<int> {
    if k >= cfg.maxRetries || !Retryable(w.reply(k)) then None
    else BackoffFor(w.reply(k), Delay(cfg, k), cfg.maxDelay, w.jitter(k))
  }

  /** The attempts before `n` that were answered with a response, in order. */
  function ResponsesBefore(w: World, n: nat): seq<nat> {
    if n == 0 then []
    else ResponsesBefore(w, n - 1) + if w.reply(n - 1).Response? then [n - 1] else []
  }

  datatype Result =
    | Answer(k: nat)   // the outcome of attempt k, its body untouched
    | NoFreshBody
    | Cancelled

  /** What a round trip did: its calls, its waits in full, and the responses it drained and
      closed. */
  datatype Trip = Trip(result: Result, calls: nat, waits: seq<int>, closed: seq<nat>)

  ghost predicate EachDue(cfg: Config, w: World, waits: seq<int>) {
    forall k {:trigger waits[k]} :: 0 <= k < |waits| ==> WaitAfter(cfg, w, k) == Some(waits[k])
  }

  ghost predicate NoneCancelled(w: World, n: nat) {
    forall k {:trigger w.cancelled(k)} :: 0 <= k < n ==> !w.cancelled(k)
  }

  ghost predicate BodiesHad(req: Request, w: World, n: nat) {
    forall k {:trigger w.bodyFails(k)} :: 1 <= k < n && req.body.Replayable? ==> !w.bodyFails(k)
  }

  /** The loop ran exactly as the policy says: every attempt but the last called for the wait
      that followed it; and it ended because nothing more was due, because the context ended
      during a wait, or because the body could not be had again. Every response it does not
      return was drained and closed, once, in order; the one it returns was not touched. */
  ghost predicate Follows(cfg: Config, req: Request, w: World, trip: Trip) {
    && 1 <= trip.calls
    && EachDue(cfg, w, trip.waits)
    && NoneCancelled(w, trip.calls - 1)
    && BodiesHad(req, w, trip.calls)
    && match trip.result
       case Answer(k) =>
         && k == trip.calls - 1 == |trip.waits| && WaitAfter(cfg, w, k).None?
         && trip.closed == ResponsesBefore(w, k)
       case Cancelled =>
         && trip.calls == |trip.waits| && w.cancelled(trip.calls - 1)
         && trip.closed == ResponsesBefore(w, trip.calls)
       case NoFreshBody =>
         && trip.calls == |trip.waits| && !w.cancelled(trip.calls - 1)
         && req.body.Replayable? && w.bodyFails(trip.calls)
         && trip.closed == ResponsesBefore(w, trip.calls)
  }

  /** What a round trip makes of a request. */
  ghost predicate Made(cfg: Config, req: Request, w: World, trip: Trip) {
    if Retries(cfg, req) then Follows(cfg, req, w, trip) else trip == Trip(Answer(0), 1, [], [])
  }

  /** The loop has made `n` attempts and waited after each of them. */
  ghost predicate Going(cfg: Config, req: Request, w: World, n: nat, waits: seq<int>, closed: seq<nat>) {
    && n == |waits| && closed == ResponsesBefore(w, n)
    && EachDue(cfg, w, waits) && NoneCancelled(w, n) && BodiesHad(req, w, n)
  }

  predicate BodyLost(req: Request, w: World, n: nat) {
    n > 0 && req.body.Replayable? && w.bodyFails(n)
  }

  lemma TripEnds(cfg: Config, req: Request, w: World, n: nat, waits: seq<int>, closed: seq<nat>)
    requires Going(cfg, req, w, n, waits, closed)
    ensures BodyLost(req, w, n) ==> Follows(cfg, req, w, Trip(NoFreshBody, n, waits, closed))
    ensures !BodyLost(req, w, n) && WaitAfter(cfg, w, n).None? ==>
      Follows(cfg, req, w, Trip(Answer(n), n + 1, waits, closed))
  {
  }

  lemma TripGoesOn(cfg: Config, req: Request, w: World, n: nat, waits: seq<int>, closed: seq<nat>, d: int)
    requires Going(cfg, req, w, n, waits, closed) && !BodyLost(req, w, n) && WaitAfter(cfg, w, n) == Some(d)
    ensures var more := if w.reply(n).Response? then closed + [n] else closed;
      if w.cancelled(n) then Follows(cfg, req, w, Trip(Cancelled, n + 1, waits + [d], more))
      else Going(cfg, req, w, n + 1, waits + [d], more)
  {
  }

  method RoundTrip(cfg: Config, req: Request, w: World) returns (trip: Trip)
    ensures Made(cfg, req, w, trip)
  {
    if cfg.maxRetries <= 0 || !Idempotent(req.verb) || req.body.OneShot? {
      return Trip(Answer(0), 1, [], []);
    }
    var delay := cfg.baseDelay;
    var attempt: nat := 0;
    var waits: seq<int> := [];
    var closed: seq<nat> := [];
    while true
      invariant attempt <= cfg.maxRetries
      invariant delay == Delay(cfg, attempt)
      invariant Going(cfg, req, w, attempt, waits, closed)
      decreases cfg.maxRetries - attempt
    {
      TripEnds(cfg, req, w, attempt, waits, closed);
      if attempt > 0 && req.body.Replayable? {
        if w.bodyFails(attempt) {
          return Trip(NoFreshBody, attempt, waits, closed);
        }
      }
      var reply := w.reply(attempt);
      if attempt >= cfg.maxRetries || !Retryable(reply) {
        return Trip(Answer(attempt), attempt + 1, waits, closed);
      }
      var wait := BackoffFor(reply, delay, cfg.maxDelay, w.jitter(attempt));
      if wait.None? {
        return Trip(Answer(attempt), attempt + 1, waits, closed);
      }
      TripGoesOn(cfg, req, w, attempt, waits, closed, wait.value);
      if reply.Response? {
        closed := closed + [attempt];
      }
      waits := waits + [wait.value];
      if w.cancelled(attempt) {
        return Trip(Cancelled, attempt + 1, waits, closed);
      }
      if delay < cfg.maxDelay {
        delay := Wrap(delay * 2);
        if delay > cfg.maxDelay {
          delay := cfg.maxDelay;
        }
      }
      attempt := attempt + 1;
    }
  }

  // ----- What following the policy means -----

  lemma {:induction false} ResponsesBeforeMeans(w: World, n: nat)
    ensures forall k: nat :: k in ResponsesBefore(w, n) <==> k < n && w.reply(k).Response?
    ensures NoDup(ResponsesBefore(w, n))
  {
    if n > 0 {
      ResponsesBeforeMeans(w, n - 1);
      var was := ResponsesBefore(w, n - 1);
      var last := if w.reply(n - 1).Response? then [n - 1] else [];
      assert ResponsesBefore(w, n) == was + last;
      assert forall k: nat :: k in last <==> k == n - 1 && w.reply(k).Response?;
      forall k: nat
        ensures k in ResponsesBefore(w, n) <==> k < n && w.reply(k).Response?
      {
        assert k in was + last <==> k in was || k in last;
      }
    }
  }

  /** At most MaxRetries + 1 calls; every response received is either the one returned or
      drained and closed exactly once, never both and never neither. */
  lemma EveryResponseIsOwnedOnce(cfg: Config, req: Request, w: World, trip: Trip)
    requires Retries(cfg, req) && Follows(cfg, req, w, trip)
    ensures 1 <= trip.calls <= cfg.maxRetries + 1
    ensures NoDup(trip.closed)
    ensures forall k: nat :: k in trip.closed <==> k < trip.calls && w.reply(k).Response? && trip.result != Answer(k)
    ensures trip.result.Answer? ==> trip.result.k == trip.calls - 1
  {
    ResponsesBeforeMeans(w, if trip.result.Answer? then trip.result.k else trip.calls);
    if |trip.waits| > 0 {
      assert WaitAfter(cfg, w, |trip.waits| - 1) == Some(trip.waits[|trip.waits| - 1]);
    }
  }

  /** A reply worth another attempt: a failure that is not the context's, or a status of 429
      or in the five hundreds. */
  predicate Transient(r: Reply) {
    r == Failure(false) || (r.Response? && (r.status == 429 || r.status / 100 == 5))
  }

  /** A Retry-After, in seconds or as a date, that asks for more patience than the cap allows. */
  predicate AsksTooMuch(cfg: Config, r: Reply) {
    && r.Response? && 0 < cfg.maxDelay
    && match r.after
       case Seconds(n) => 0 <= n && cfg.maxDelay < Wrap(n * SECOND)
       case Date(ahead) => cfg.maxDelay < ahead
       case _ => false
  }

  /** Attempt `k` failed in a way that calls for another one. */
  predicate CallsForMore(cfg: Config, req: Request, w: World, k: nat) {
    && req.verb in {"GET", "HEAD", "OPTIONS", "TRACE", ""} && !req.body.OneShot?
    && k < cfg.maxRetries && Transient(w.reply(k)) && !AsksTooMuch(cfg, w.reply(k))
  }

  lemma CallsForMoreMeans(cfg: Config, req: Request, w: World, k: nat)
    ensures CallsForMore(cfg, req, w, k) <==> Retries(cfg, req) && WaitAfter(cfg, w, k).Some?
  {
  }

  /** Who is retried and when it ends: attempt `k` is followed by another one exactly if the
      request is safe to repeat, the budget lasts, the reply was transient and no Retry-After
      asked too much, and then the context lived through the wait and the body could be had
      again; an answer is handed back exactly if one of the first four gave out. */
  lemma WhatIsRetried(cfg: Config, req: Request, w: World, trip: Trip)
    requires Made(cfg, req, w, trip)
    ensures forall k: nat {:trigger w.reply(k)} :: k < trip.calls ==>
      (k + 1 < trip.calls <==>
         CallsForMore(cfg, req, w, k) && !w.cancelled(k) && !(req.body.Replayable? && w.bodyFails(k + 1)))
    ensures trip.result.Answer? <==> !CallsForMore(cfg, req, w, trip.calls - 1)
    ensures trip.result.Answer? ==> trip.result.k == trip.calls - 1
    ensures trip.result.Cancelled? ==> w.cancelled(trip.calls - 1)
    ensures trip.result.NoFreshBody? ==> req.body.Replayable? && w.bodyFails(trip.calls)
  {
    forall k: nat | k < trip.calls
      ensures k + 1 < trip.calls <==>
        CallsForMore(cfg, req, w, k) && !w.cancelled(k) && !(req.body.Replayable? && w.bodyFails(k + 1))
    {
      CallsForMoreMeans(cfg, req, w, k);
      if Retries(cfg, req) {
        WaitAt(cfg, req, w, trip, k);
      }
    }
    CallsForMoreMeans(cfg, req, w, trip.calls - 1);
    if Retries(cfg, req) {
      WaitAt(cfg, req, w, trip, trip.calls - 1);
    }
  }

  /** A Retry-After that does not ask too much is waited out as it was sent: a date for exactly
      as long as it lies ahead, a past one not at all, and seconds for that many, as far as a
      duration can hold them. Any other wait lies in the upper half of the nominal delay. */
  lemma WaitsAsAsked(cfg: Config, req: Request, w: World, trip: Trip, k: nat)
    requires Made(cfg, req, w, trip) && k < |trip.waits|
    ensures match w.reply(k)
            case Response(_, Date(ahead)) => trip.waits[k] == if ahead > 0 then ahead else 0
            case Response(_, Seconds(n)) =>
              if n < 0 then InUpperHalf(trip.waits[k], Delay(cfg, k))
              else if n <= 9_223_372_036 then trip.waits[k] == n * SECOND
              else trip.waits[k] == Wrap(n * SECOND)
            case _ => InUpperHalf(trip.waits[k], Delay(cfg, k))
  {
    WaitAt(cfg, req, w, trip, k);
    if HeaderOf(w.reply(k)).Seconds? && 0 <= HeaderOf(w.reply(k)).n <= 9_223_372_036 {
      RetryAfterFits(HeaderOf(w.reply(k)).n);
    }
  }

  /** At least half the delay and at most all of it, but for an odd nanosecond. */
  predicate InUpperHalf(wait: int, delay: int) {
    if delay > 0 then delay / 2 <= wait <= delay - delay % 2 else wait == 0
  }

  /** And the jitter can be any of those. */
  lemma JitterReachesAll(delay: int, maxDelay: int, status: int, wait: int)
    requires InUpperHalf(wait, delay)
    ensures exists jitter :: BackoffFor(Response(status, Absent), delay, maxDelay, jitter) == Some(wait)
  {
    var jitter: nat := if delay > 0 then wait - delay / 2 else 0;
    assert BackoffFor(Response(status, Absent), delay, maxDelay, jitter) == Some(wait);
  }

  lemma WaitAt(cfg: Config, req: Request, w: World, trip: Trip, k: nat)
    requires Follows(cfg, req, w, trip)
    ensures k < |trip.waits| ==> WaitAfter(cfg, w, k) == Some(trip.waits[k])
  {
  }

  /** The policy leaves no choice: two trips through the same world are the same trip. */
  lemma TripIsDetermined(cfg: Config, req: Request, w: World, a: Trip, b: Trip)
    requires Follows(cfg, req, w, a) && Follows(cfg, req, w, b)
    ensures a == b
  {
    forall k | 0 <= k < |a.waits| && k < |b.waits|
      ensures a.waits[k] == b.waits[k]
    {
      assert WaitAfter(cfg, w, k) == Some(a.waits[k]);
    }
    WaitAt(cfg, req, w, a, |b.waits|);
    WaitAt(cfg, req, w, b, |a.waits|);
    assert |a.waits| == |b.waits|;
    assert a.waits == b.waits;
  }

  // ----- The nominal delay -----

  /** `x` doubled `k` times. */
  function Shifted(x: int, k: nat): int {
    if k == 0 then x else 2 * Shifted(x, k - 1)
  }

  function Min(a: int, b: int): int {
    if a < b then a else b
  }

  /** The delay the documentation promises: doubled for each retry, but never over the cap. */
  function Promised(cfg: Config, k: nat): int {
    Min(Shifted(cfg.baseDelay, k), cfg.maxDelay)
  }

  /** Doubling a delay that is below the cap stays within 64 bits. */
  predicate DoublesSafely(cfg: Config, j: nat) {
    !(HALF_RANGE <= Shifted(cfg.baseDelay, j) < cfg.maxDelay)
  }

  /** Both delays are durations, as their types say. */
  predicate Typed(cfg: Config) {
    MIN_INT64 <= cfg.baseDelay <= MAX_INT64 && MIN_INT64 <= cfg.maxDelay <= MAX_INT64
  }

  lemma DoubledFits(x: nat)
    requires x <= MAX_INT64
    ensures x < HALF_RANGE ==> Wrap(2 * x) == 2 * x
    ensures x >= HALF_RANGE ==> Wrap(2 * x) < 0
  {
  }

  lemma {:induction false} ShiftedSign(x: int, k: nat)
    ensures 0 <= x ==> 0 <= Shifted(x, k)
    ensures x < 0 ==> Shifted(x, k) <= x - k
  {
    if k > 0 {
      ShiftedSign(x, k - 1);
    }
  }

  lemma {:induction false} CappedAfter(cfg: Config, k: nat)
    requires 0 <= cfg.baseDelay <= cfg.maxDelay <= MAX_INT64
    requires forall j: nat :: j < k ==> DoublesSafely(cfg, j)
    ensures Delay(cfg, k) == Promised(cfg, k)
  {
    if k > 0 {
      CappedAfter(cfg, k - 1);
      ShiftedSign(cfg.baseDelay, k - 1);
      assert DoublesSafely(cfg, k - 1);
      DoubledFits(Promised(cfg, k - 1));
    }
  }

  lemma OverflowShows(cfg: Config, j: nat)
    requires 0 <= cfg.baseDelay <= cfg.maxDelay <= MAX_INT64
    requires !DoublesSafely(cfg, j)
    ensures Delay(cfg, j) != Promised(cfg, j) || Delay(cfg, j + 1) != Promised(cfg, j + 1)
  {
    DoubledFits(Shifted(cfg.baseDelay, j));
  }

  /** Doubled for ever, a negative delay leaves 64 bits, which the code's does not. */
  lemma NegativeShows(cfg: Config, k: nat)
    requires Typed(cfg) && cfg.baseDelay < 0 && k + MIN_INT64 > 0
    ensures Delay(cfg, k) != Promised(cfg, k)
  {
    ShiftedSign(cfg.baseDelay, k);
  }

  /** The nominal delay is what the documentation promises, for ever, exactly when BaseDelay is
      between zero and the cap and no doubling below the cap overflows; a cap of at most 2^62
      nanoseconds, some 146 years, rules the overflow out. */
  lemma DelayIsCappedDoubling(cfg: Config)
    requires Typed(cfg)
    ensures (forall k: nat :: Delay(cfg, k) == Promised(cfg, k))
       <==> 0 <= cfg.baseDelay <= cfg.maxDelay && (forall j: nat :: DoublesSafely(cfg, j))
    ensures cfg.maxDelay <= HALF_RANGE ==> forall j: nat :: DoublesSafely(cfg, j)
  {
    if cfg.baseDelay > cfg.maxDelay {
      assert Delay(cfg, 0) != Promised(cfg, 0);
    } else if cfg.baseDelay < 0 {
      var k: nat := 1 - MIN_INT64;
      NegativeShows(cfg, k);
      assert Delay(cfg, k) != Promised(cfg, k);
    } else if forall j: nat :: DoublesSafely(cfg, j) {
      forall k: nat
        ensures Delay(cfg, k) == Promised(cfg, k)
      {
        CappedAfter(cfg, k);
      }
    } else {
      var j: nat :| !DoublesSafely(cfg, j);
      OverflowShows(cfg, j);
      assert Delay(cfg, j) != Promised(cfg, j) || Delay(cfg, j + 1) != Promised(cfg, j + 1);
    }
  }

  /** A configuration whose second delay has wrapped around. */
  lemma DelayCanWrap()
    ensures Delay(Config(2, 0x5000_0000_0000_0000, 0x6000_0000_0000_0000), 1) < 0
  {
  }

  /** A Retry-After in seconds is honoured as sent exactly when it fits a duration. */
  lemma RetryAfterFits(n: nat)
    requires n <= MAX_INT64
    ensures RetryAfter(Seconds(n)) == Some(n * SECOND) <==> n <= 9_223_372_036
  {
  }

  /** A response with a Retry-After of `n` seconds ends the retries. */
  predicate Stops(cfg: Config, status: int, n: nat, delay: int, jitter: nat) {
    BackoffFor(Response(status, Seconds(n)), delay, cfg.maxDelay, jitter).None?
  }

  /** A Retry-After ends the retries as documented, that is when it asks for more than MaxDelay,
      exactly unless it wraps around to a duration within MaxDelay. */
  lemma LongHeaderStopsExactlyWhen(cfg: Config, status: int, n: nat, delay: int, jitter: nat)
    requires 0 < cfg.maxDelay <= MAX_INT64 && n <= MAX_INT64
    ensures (Stops(cfg, status, n, delay, jitter) <==> n * SECOND > cfg.maxDelay)
       <==> n <= 9_223_372_036 || Wrap(n * SECOND) > cfg.maxDelay
    ensures Stops(cfg, status, n, delay, jitter) <==> Wrap(n * SECOND) > cfg.maxDelay
  {
    RetryAfterFits(n);
  }

  /** Just past what fits, a header that asks for three centuries is retried at once. */
  lemma LongHeaderCanBeRetried(cfg: Config, status: int, delay: int, jitter: nat)
    requires 0 < cfg.maxDelay
    ensures var wait := BackoffFor(Response(status, Seconds(9_223_372_037)), delay, cfg.maxDelay, jitter);
      wait.Some? && wait.value < 0
  {
    assert RetryAfter(Seconds(9_223_372_037)) == Some(9_223_372_037 * SECOND - TWO64);
  }

  // ----- How long it waits -----

  /** The configurations whose cap is one. The first delay is never clamped, so a BaseDelay
      over the cap is waited out in full; half of it and its jitter lose the odd nanosecond. */
  predicate CapBinds(cfg: Config) {
    0 < cfg.maxDelay && cfg.baseDelay - cfg.baseDelay % 2 <= cfg.maxDelay
  }

  lemma {:induction false} DelayBound(cfg: Config, k: nat)
    requires 0 < cfg.maxDelay
    ensures if cfg.baseDelay <= cfg.maxDelay then Delay(cfg, k) <= cfg.maxDelay else Delay(cfg, k) == cfg.baseDelay
  {
    if k > 0 {
      DelayBound(cfg, k - 1);
    }
  }

  /** A single wait, whatever the configuration: within the cap if there is one, equal to a
      Retry-After that is honoured, and otherwise between half the nominal delay and all of it. */
  lemma WaitIsBounded(cfg: Config, w: World, k: nat)
    requires WaitAfter(cfg, w, k).Some?
    ensures CapBinds(cfg) ==> WaitAfter(cfg, w, k).value <= cfg.maxDelay
    ensures RetryAfter(HeaderOf(w.reply(k))).None? ==>
      InUpperHalf(WaitAfter(cfg, w, k).value, Delay(cfg, k))
    ensures RetryAfter(HeaderOf(w.reply(k))).Some? ==>
      WaitAfter(cfg, w, k) == RetryAfter(HeaderOf(w.reply(k)))
  {
    if CapBinds(cfg) {
      DelayBound(cfg, k);
    }
  }

  /** An upstream that is down throughout, with the longest jitter and, if `after` says so, a
      Retry-After of one second. */
  function DownWorld(cfg: Config, after: Header): World {
    World(_ => Response(503, after), _ => if cfg.baseDelay > 0 then cfg.baseDelay / 2 else 0, _ => false, _ => false)
  }

  /** The world that breaks a cap which does not bind. */
  function BreakingWorld(cfg: Config): World {
    DownWorld(cfg, if cfg.maxDelay <= 0 then Seconds(1) else Absent)
  }

  /** How long every wait in that world is. */
  function BreakingWait(cfg: Config): int {
    if cfg.maxDelay <= 0 then SECOND else cfg.baseDelay - cfg.baseDelay % 2
  }

  lemma CapBreaks(cfg: Config, k: nat)
    requires !CapBinds(cfg) && k < cfg.maxRetries
    ensures BreakingWait(cfg) > cfg.maxDelay && BreakingWait(cfg) > 0
    ensures WaitAfter(cfg, BreakingWorld(cfg), k) == Some(BreakingWait(cfg))
  {
    if 0 < cfg.maxDelay {
      DelayBound(cfg, k);
      assert BackoffFor(Response(503, Absent), cfg.baseDelay, cfg.maxDelay, cfg.baseDelay / 2) == Some(BreakingWait(cfg));
    } else {
      assert RetryAfter(Seconds(1)) == Some(SECOND);
    }
  }

  /** MaxDelay caps every single backoff exactly when it is positive and BaseDelay, without an
      odd nanosecond, does not exceed it; without a positive MaxDelay every Retry-After is
      waited out, however long it is. */
  lemma CapHoldsExactlyWhen(cfg: Config)
    requires 0 < cfg.maxRetries
    ensures (forall w: World, k: nat :: WaitAfter(cfg, w, k).Some? ==> WaitAfter(cfg, w, k).value <= cfg.maxDelay)
       <==> CapBinds(cfg)
    ensures cfg.maxDelay <= 0 ==>
      forall w: World, k: nat :: k < cfg.maxRetries && Retryable(w.reply(k)) && RetryAfter(HeaderOf(w.reply(k))).Some? ==>
        WaitAfter(cfg, w, k) == RetryAfter(HeaderOf(w.reply(k)))
  {
    forall w: World, k: nat | CapBinds(cfg) && WaitAfter(cfg, w, k).Some?
      ensures WaitAfter(cfg, w, k).value <= cfg.maxDelay
    {
      WaitIsBounded(cfg, w, k);
    }
    if !CapBinds(cfg) {
      CapBreaks(cfg, 0);
    }
  }

  /** How long a timer set to `d` sleeps. */
  function Slept(d: int): nat {
    if d > 0 then d else 0
  }

  function TotalSlept(waits: seq<int>): nat {
    if waits == [] then 0 else TotalSlept(waits[..|waits| - 1]) + Slept(waits[|waits| - 1])
  }

  lemma {:induction false} SumBound(waits: seq<int>, cap: nat)
    requires forall k :: 0 <= k < |waits| ==> waits[k] <= cap
    ensures TotalSlept(waits) <= |waits| * cap
  {
    if waits != [] {
      SumBound(waits[..|waits| - 1], cap);
      assert |waits| * cap == (|waits| - 1) * cap + cap;
    }
  }

  lemma {:induction false} SumOfEqual(waits: seq<int>, d: nat)
    requires forall k :: 0 <= k < |waits| ==> waits[k] == d
    ensures TotalSlept(waits) == |waits| * d
  {
    if waits != [] {
      SumOfEqual(waits[..|waits| - 1], d);
      assert |waits| * d == (|waits| - 1) * d + d;
    }
  }

  lemma Widen(a: nat, b: nat, c: nat)
    requires a <= b
    ensures a * c <= b * c
  {
  }

  lemma Stretch(n: nat, a: int, b: int)
    requires 0 < n && a < b
    ensures n * a < n * b
  {
  }

  lemma BoundedTotal(cfg: Config, req: Request, w: World, trip: Trip)
    requires Retries(cfg, req) && Follows(cfg, req, w, trip) && CapBinds(cfg)
    ensures TotalSlept(trip.waits) <= cfg.maxRetries * cfg.maxDelay
  {
    forall k | 0 <= k < |trip.waits|
      ensures trip.waits[k] <= cfg.maxDelay
    {
      assert WaitAfter(cfg, w, k) == Some(trip.waits[k]);
      WaitIsBounded(cfg, w, k);
    }
    SumBound(trip.waits, cfg.maxDelay);
    if |trip.waits| > 0 {
      assert WaitAfter(cfg, w, |trip.waits| - 1) == Some(trip.waits[|trip.waits| - 1]);
    }
    Widen(|trip.waits|, cfg.maxRetries, cfg.maxDelay);
  }

  /** A trip that waits for every retry, longer than the cap each time. */
  lemma ExceededTotal(cfg: Config, req: Request) returns (trip: Trip)
    requires Retries(cfg, req) && !CapBinds(cfg)
    ensures Follows(cfg, req, BreakingWorld(cfg), trip)
    ensures TotalSlept(trip.waits) > cfg.maxRetries * cfg.maxDelay
  {
    var n: nat := cfg.maxRetries;
    var w := BreakingWorld(cfg);
    trip := Trip(Answer(n), n + 1, seq(n, _ => BreakingWait(cfg)), ResponsesBefore(w, n));
    forall k | 0 <= k < |trip.waits|
      ensures WaitAfter(cfg, w, k) == Some(trip.waits[k])
    {
      CapBreaks(cfg, k);
    }
    CapBreaks(cfg, 0);
    SumOfEqual(trip.waits, BreakingWait(cfg));
    Stretch(n, cfg.maxDelay, BreakingWait(cfg));
  }

  /** However the server answers, a round trip sleeps at most MaxRetries * MaxDelay: exactly
      for the configurations whose cap binds. */
  lemma TotalWaitIsBounded(cfg: Config, req: Request)
    requires Retries(cfg, req)
    ensures (forall w: World, trip :: Follows(cfg, req, w, trip) ==> TotalSlept(trip.waits) <= cfg.maxRetries * cfg.maxDelay)
       <==> CapBinds(cfg)
  {
    forall w: World, trip | CapBinds(cfg) && Follows(cfg, req, w, trip)
      ensures TotalSlept(trip.waits) <= cfg.maxRetries * cfg.maxDelay
    {
      BoundedTotal(cfg, req, w, trip);
    }
    if !CapBinds(cfg) {
      var trip := ExceededTotal(cfg, req);
    }
  }
}
