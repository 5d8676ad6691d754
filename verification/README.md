# neokit: verified models of its small protocols

neokit is service plumbing, but several of its packages hold small concurrent protocols or
arithmetic rules with stated guarantees. This project models them in Dafny and proves those
guarantees over every run, input and interleaving.

Two forms are used side by side, as in the Go code.

* **Objects.** Each Go type whose methods update its fields is a class with those fields
  (`Cache`, `Entry`, `Supervisor`, `Stack`, `Store`, `CachingTokenSource`, `Database`, `Bus`,
  `Registry`). Every method is tied by its contract to a function of the old state.
* **Step machines.** Where several goroutines meet, one event is one critical section, one
  atomic access, one call boundary of a caller's function or the passing of time. `Enabled`
  says when an event can happen, `Next` (or `Apply`) what it does, `Run` what a sequence of
  them leads to. The main theorems quantify over every possible sequence. Fields marked as
  history are only written; they date what happened so that a theorem can speak about it.

Modules: `Prelude`; `CacheEntry`, `CacheProtocol`, `CacheClaims`, `CacheTraces`,
`CacheReplies`, `CacheSharing` and `CacheRefresh` (the cache); `Group`, `Pool` and `Teardown` (supervision, pools, ordered
shutdown); `Calendar`, `Session`, `SessionRuns` and `SessionUse` (session lifetime); `Retry`
and `Token` (outbound HTTP); `Migrate`; `PubSub`; `Health`; `Handshake`.

## Where the code and its promises part

* **A claimed refresh can be dropped** (`cache/cache.go:246`). The re-check under the fetch
  gate calls `load`, which may claim the refresh, and throws the claim away. `Stuck` says that
  an entry is marked refreshing with nobody refreshing it. `StuckIffDropped` proves that this
  happens exactly when such a re-check found the entry stale and unclaimed,
  `ClaimCanBeDropped` gives a run for any key, value and ttl, and `FrozenUntilInvalidated`
  proves what it costs: the entry serves that value, however old, until an Invalidate bumps
  it. The next cold fetch then gives it a new value, but since the claim is never given back
  that one freezes too once its ttl is over. Only eviction frees the key, since a later lookup
  makes a new entry.
* **Sharing is per entry, not per key** (`cache/cache.go:139-157`). The callers queued behind a
  cold fetch share its answer (`SecondCallHasAReason`), but a key whose entry is evicted during
  the fetch gets a new entry and a second call at once (`EvictedKeyCanBeCalledTwice`).
* **TouchInterval is not a minimum gap** (`session/policy.go:19`). The store drops the fraction
  of the last-seen instant, so the next write may come up to a second early; the promised gap
  holds exactly after a write on a whole second (`GapExactlyWhen`, `GapCanBeMissed`). Requests
  that overlap have no gap at all (`OverlapHasNoGap`, `OverlapIsReachable`): it holds only
  between a write and a request that looked the row up after it (`LaterLookupKeepsTheGap`).
* **Sub-second session caps** (`session/sqlite.go:14`). Storing drops fractions of a second,
  so the stored expiry can pass the stored creation instant plus the cap. The sweep takes
  exactly the sessions that would not authenticate, in every reachable table and at every
  instant, if and only if the policy satisfies `SweepsOnTime` (`SweepIsExactlyOnTime`), which
  any whole-second cap does; otherwise a single sign-in shows the difference
  (`OtherwiseTheSweepIsLate`).
* **Years beyond 9999** (`session/sqlite.go:12-14`). Text order is time order for the years 0
  to 9999 (`StampsInOrder`) and stops there (`OrderEndsWithYear9999`); an instant outside them
  is stored as a text that reads back as the zero time (`ParseStamp`).
* **A zero expiry** is live to `Policy.Live` and dead to the sweep. `Session.SweepVersusLive`
  states every disagreement between the two, in both directions.
* **MaxDelay is not always a cap** (`httpc/transport.go:24-27`, `:131`). The first delay is
  never clamped, and without a positive MaxDelay nothing is. Every wait stays
  within MaxDelay, and every round trip within MaxRetries times MaxDelay, if and only if
  `0 < MaxDelay` and BaseDelay, rounded down to an even number of nanoseconds, does not exceed
  it (`CapHoldsExactlyWhen`, `TotalWaitIsBounded`).
* **Wrap-around in the retry delays** (`httpc/transport.go:131`, `:217`). The nominal delay is
  BaseDelay doubled up to MaxDelay exactly when `0 <= BaseDelay <= MaxDelay` and no delay of at
  least 2^62 ns lies below the cap (`DelayIsCappedDoubling`; `DelayCanWrap` is an input). A
  Retry-After in seconds is honoured as sent exactly up to 9223372036 (`RetryAfterFits`); a
  longer one stops the retries only if it wraps to more than MaxDelay
  (`LongHeaderStopsExactlyWhen`), and 9223372037 is retried at once (`LongHeaderCanBeRetried`).
* **Pub/sub has no common order.** Each subscriber sees an order that real time allows, but
  two publishers at work at once may reach two subscribers in opposite orders
  (`OverlappingPublishesMayCross`); only overlapping ones can (`DisagreementMeansOverlap`).

## Premises

* In the session runs clocks read the years 0 to 9999 past the first second of year one, the
  stored text is what the store itself wrote, and session ids are never reused.
* A login hands out a token that is not empty and that it never handed out before; without
  that the stampede guard fails (`RepeatedTokenDefeatsTheGuard`).
* Every migration list is the same master list cut short, one migrator runs at a time, and a
  step's effect on the contents is a function of the contents (its failures are arbitrary).

## Model

| member | source | states |
|---|---|---|
| CacheEntry.BurstStartsOne | cache/cache.go:115-137 | any burst of reads of a stale key starts exactly one revalidation, none if one is claimed, and changes nothing readers are served |
| CacheEntry.PublishedServedForTtl | cache/cache.go:126-129 | a published value is served unchanged and without a revalidation for exactly its ttl |
| CacheEntry.FailureShields | cache/cache.go:315-321 | a failed revalidation keeps the last good value and its timestamp, reports Failed, and holds off the next one for exactly five seconds |
| CacheEntry.InvalidatedStaysCold | cache/cache.go:177-183 | however many fetches and revalidations begun before an Invalidate finish after it, and whoever reads in between, the entry stays cold |
| CacheEntry.TouchKeepsOrder | cache/cache.go:139-157 | a lookup keeps the order free of duplicates and within the cap, and the key looked up is in it |
| CacheEntry.DirectoryIsFifo | cache/cache.go:139-157 | over every sequence of lookups the retained keys are exactly the tail of the insertion log as long as the smaller of the cap and the log, an insertion being a lookup of a key not among the last maxEntries insertions |
| CacheEntry.LookupEvictsTheOldest | cache/cache.go:148-155 | a lookup of an absent key in a full directory pushes out the oldest key and no other |
| CacheEntry.Entry.Read | cache/cache.go:115-137 | the locked read: value, status, and who claims the refresh |
| CacheEntry.Entry.Drop | cache/cache.go:177-183 | the locked half of Invalidate: unloads and starts a new generation |
| CacheEntry.Entry.StoreCold | cache/cache.go:266-275 | the cold publish happens exactly when the captured generation is still current |
| CacheEntry.Entry.EndRevalidation | cache/cache.go:302-322 | the end of a revalidation always gives the claim back, and publishes or fails only in its own generation |
| CacheEntry.Cache.Len | cache/cache.go:164-168 | the number of keys held is the length of the duplicate-free insertion order |
| CacheEntry.Cache.EntryFor | cache/cache.go:139-157 | returns the key's entry, a fresh blank one only if it was absent, and touches no other retained key |
| CacheEntry.Cache.EvictOverCap | cache/cache.go:148-155 | the eviction loop leaves exactly the youngest maxEntries keys, as a slice of the order, and their entries as they were |
| CacheEntry.Cache.Invalidate | cache/cache.go:177-183 | unloads the key's own entry and leaves every other retained entry as it was |
| CacheEntry.Cache.FetchSolo | cache/cache.go:223-277 | a whole Fetch with nobody in between: hit, type mismatch, degraded value, panic or publish, and no other key touched |
| CacheEntry.FetchAloneMeans | cache/cache.go:223-277 | what such a Fetch does, field by field: fresh, stale, of another type, cold and fetched, cold and failed |
| CacheEntry.FetchCold | cache/cache.go:241-277 | a Fetch of a key that is not held calls fn and holds its answer for ttl from its instant; an error or a panic is passed on and leaves the key cold |
| CacheEntry.FetchWarm | cache/cache.go:226-239 | a Fetch of a fresh value serves it without calling fn and changes nothing |
| CacheEntry.FetchTwice | cache/cache.go:223-277 | after a cold Fetch that fn answered the entry holds the value, its instant and the deadline ttl later, and a second Fetch before that serves it without calling fn |
| CacheEntry.FetchAfterFailure | cache/cache.go:261-264 | errors are not cached: after a failed or panicked cold Fetch the next one calls fn again |
| CacheProtocol.InitInv | cache/cache.go:80-92 | a new cache satisfies the invariant of the interleaved protocol |
| CacheProtocol.StepInv | cache/cache.go:115-323 | every critical section, call boundary and tick keeps that invariant: directory bound, gate and claim ownership, generations against publishes |
| CacheClaims.InvalidationNeverUndone | cache/cache.go:139-183 | whatever value a Fetch invoked after an Invalidate's work hands its caller, a degraded one beside an error included, was answered by a call of fn that began after the Invalidate was invoked, through every eviction and race |
| CacheClaims.SingleFlight | cache/cache.go:231-253 | an entry has at most one cold fetch past its gate and at most one revalidation claimed or running, and the latter holds the claim |
| CacheSharing.SecondCallHasAReason | cache/cache.go:241-253 | over every run, if fn is called for one fetch and later for another of the same entry, the first was over by then and served no value, or an Invalidate of the entry came between the first one's capture and the second one's re-check |
| CacheSharing.EvictedKeyCanBeCalledTwice | cache/cache.go:148-155 | for any two keys a run exists in which an evicted key is being fetched twice at once |
| CacheClaims.GateHasHolder | cache/cache.go:242-243 | a taken fetch gate belongs to a fetch still under way, panics included |
| CacheClaims.StatusIsHonest | cache/cache.go:266-322 | a loaded value and its FetchedAt come from the same last publish, which fn really answered; Failed is up exactly when a revalidation failed since |
| CacheTraces.EveryMarkIsEarned | cache/cache.go:261-322 | over every run each value an entry was given was answered by fn, to a cold fetch with its own ttl and the clock of the answer, or to a revalidation with the ttl of the Fetch that spawned it and the clock of its end |
| CacheTraces.ValuesAreEarned | cache/cache.go:261-322 | over every run a loaded entry shows what fn answered, at the clock of that answer or of the end of the revalidation, fresh for exactly the ttl of the Fetch that fetched it or spawned its revalidation |
| CacheTraces.RunOrderIsFifo | cache/cache.go:139-157 | over every run the directory is the bounded FIFO of the lookups made by all callers |
| CacheReplies.RepliesAreHonest | cache/cache.go:223-277 | over every run each reply is the value, Failed flag and timestamp the entry showed when the fetch read it, a value of another type, or the fetch's own answer, error or panic of fn |
| CacheReplies.FetchesGoOn | cache/cache.go:241-243 | in every reachable state a fetch can take its next step or queues behind one of its entry that has its gate and can |
| CacheReplies.StepsRunOut | cache/cache.go:223-277 | a fetch needs at most nine steps of its own, and nobody else's undo them |
| CacheRefresh.StuckIffDropped | cache/cache.go:246-253 | over every run an entry is marked refreshing with nobody refreshing it exactly when a gated re-check dropped a claim on it |
| CacheRefresh.ClaimCanBeDropped | cache/cache.go:241-253 | for every key, value and ttl a run exists that drops the claim and leaves the entry stuck on that value |
| CacheRefresh.DropFreezes | cache/cache.go:246-253 | a dropped claim leaves the entry loaded, claimed and with no cold fetch at work on it |
| CacheRefresh.FrozenUntilInvalidated | cache/cache.go:130-136 | a frozen entry serves the same value and status through every run without an Invalidate of that entry |
| CacheRefresh.FailingUpstreamIsShielded | cache/cache.go:302-321 | while the upstream is down a window of length W sees at most W/retryBackoff + 1 revalidations of an entry |
| Group.Supervisor.Leave | safe/supervise.go:65-70 | the decrement, and the wake-up when the count reaches zero |
| Group.Supervisor.Wake | safe/supervise.go:79-86 | closes and forgets the armed channel exactly over a zero count |
| Group.Supervisor.Join | safe/supervise.go:148-158 | Wait's critical section: nothing to wait for, or an open channel that concurrent Waits share |
| Group.StepInv | safe/supervise.go:62-168 | every atomic access keeps the count exact, the armed channel open and a waker on its way |
| Group.CountIsExact | safe/supervise.go:62-130 | the counter is the number of goroutines not yet past their one decrement, through panics and respawns |
| Group.LeavesForAReason | safe/supervise.go:97-130 | over every run a goroutine leaves only after its function returned, or after a panic and the end of its context |
| Group.PanicIsRespawned | safe/supervise.go:102-130 | after a panic the function runs again, with no way out, exactly if the context lives, and stays counted |
| Group.BackoffStops | safe/supervise.go:116-130 | the end of the context, and only that, cuts a backoff short, and the goroutine leaves |
| Group.ReturnIsFinal | safe/supervise.go:102-107 | a function that returned is never run again |
| Group.WaitSawZero | safe/supervise.go:148-162 | if Wait returns nil there is an instant between its call and its return at which the count was zero |
| Group.WaitJoinsAll | safe/supervise.go:132-168 | so every goroutine entered before the call left before the return |
| Group.WaitFailsOnlyByGivingUp | safe/supervise.go:148-168 | a Wait fails only by giving up: over a zero count it returns nil at once, and nil whenever it is woken |
| Group.NoLostWakeUp | safe/supervise.go:72-86 | an armed channel over a zero count has a leaver still due to look, and no channel is closed twice |
| Group.NobodyIsStranded | safe/supervise.go:79-86 | from every reachable state with a waiter over a zero count, at most four steps of leavers and lock holders already on their way out let it return |
| Pool.BoundHolds | safe/pool.go:60-82 | never more than Limit tasks run at once |
| Pool.AcceptedExactlyWhen | safe/pool.go:43-59 | over every run Go accepts a task exactly if no Wait was called and its context lives, and a refused one leaves no trace |
| Pool.NobodyIsStuck | safe/pool.go:60-83 | in every reachable state a queued task waits only while Limit others hold slots, and every other task can take its next step towards giving its slot back |
| Pool.WaitCanReturn | safe/pool.go:94-100 | a Wait can return nil exactly over tasks that have all ended |
| Pool.TasksGiveBack | safe/pool.go:51-83 | every accepted task runs at most once, exactly once unless its context ended; when all are over every slot and count is back, and the join counter never leaves zero under a Wait |
| Pool.CancelledNeverRuns | safe/pool.go:66-77 | over every run a task of a bounded pool whose context ended before it ran never runs |
| Pool.DrainIsTerminal | safe/pool.go:89-106 | after a Wait returned nil every accepted task has ended, and none is accepted or runs again in any continuation |
| Teardown.Stack.Push | lifecycle/lifecycle.go:81-92 | appends a step unless it is nil or Shutdown began |
| Teardown.Stack.Shutdown | lifecycle/lifecycle.go:147-175 | runs every step once in reverse push order whatever each answers, joins the errors, and does nothing the second time |
| Teardown.ShutDownTwice | lifecycle/lifecycle.go:81-175 | a step pushed before Shutdown runs first, one pushed after it never does, and a second Shutdown runs nothing |
| Teardown.NilIffAllFine | lifecycle/lifecycle.go:159-174 | the joined error is nil exactly when every step answered nil |
| Teardown.ErrorsAreTheFailures | lifecycle/lifecycle.go:166-192 | the joined error holds exactly the failures and panics, each with its step's name and the documented text |
| Teardown.ErrorsInOrder | lifecycle/lifecycle.go:159-174 | the errors are joined in the order the steps ran |
| Teardown.StepsRunOnceInReverse | lifecycle/lifecycle.go:147-175 | over every interleaving with pushes and background work the accepted steps run once, one at a time, in reverse order, and the next one can always start |
| Teardown.YoungerStepsEndFirst | lifecycle/lifecycle.go:159-160 | for any accepted order a step starts only after every step pushed after it has ended |
| Teardown.RunStepsGoFirst | app/run.go:82-108 | once a step pushed before Run's own has started, streams, api, background-context and background-work have ended in that order, whatever else was pushed before, between or after them |
| Teardown.BackgroundWorkJoins | app/run.go:83-87 | if background-work answered nil, no goroutine supervised before it began is live from then on |
| Teardown.BackgroundWorkIsJoinedFirst | app/run.go:82-124 | once any step pushed before background-work has started, work supervised before the drain is over and stays over, unless background-work reported otherwise |
| Teardown.TelemetryGoesLast | app/app.go:262-271 | metrics-export starts only after everything but tracing has ended, and tracing after everything |
| Calendar.DateOfDay | session/sqlite.go:12-14 | the day count and the calendar date determine each other |
| Calendar.DatesInOrder | session/sqlite.go:12-14 | an earlier date has an earlier day count |
| Calendar.YearStartIs | session/sqlite.go:12-14 | the years are Gregorian: the day count of a year's start in closed form |
| Calendar.InRangeMeans | session/sqlite.go:12-14 | the range of instants whose text sorts by time is exactly the years 0 to 9999 |
| Calendar.StampsInOrder | session/sqlite.go:12-14 | in the four-digit years comparing stored instants as text is comparing them as instants to the second |
| Calendar.StampLayout | session/sqlite.go:12-14 | the stored text is the RFC 3339 layout (section 5.6): date, T, time of day and Z, each number in decimal |
| Calendar.OrderEndsWithYear9999 | session/sqlite.go:12-14 | the instants of the ten thousand years after that are stored as texts that sort before all of this millennium and the next seven |
| Calendar.ParseStamp | session/sqlite.go:207-219 | reading any stored instant back yields it to the second in the four-digit years, and nothing outside them |
| Session.LiveMeans | session/policy.go:40-91 | a session is live exactly before its idle expiry and its birth plus MaxLifetime, thirty days if that alone is unset; saturating subtraction never changes the answer |
| Session.ExpiryMeans | session/policy.go:40-70 | a renewal is the smaller of now plus TTL and the birth plus MaxLifetime, each thirty days if unset, the first alone if the birth is unknown, and lies in the future exactly inside the cap |
| Session.NeedsTouchMeans | session/policy.go:40-97 | a write is due exactly when the last one is TouchInterval old, an hour if that alone is unset |
| Session.SafeGapMeans | session/policy.go:40-70 | the gap a session survives, in the fields as set: TTL less TouchInterval, and thirty days less an hour if neither is |
| Session.Store.CreateSession | session/sqlite.go:68-86 | inserts unless the id or the token is taken, and keeps tokens unique |
| Session.Store.SessionByToken | session/sqlite.go:91-101 | finds the row with the token, or none has it |
| Session.Store.TouchSession | session/sqlite.go:105-113 | rewrites the two instants of a row that exists and never creates one |
| Session.Store.DeleteSession | session/sqlite.go:118-123 | removes the row with the id |
| Session.Store.DeleteSessionByToken | session/sqlite.go:127-133 | removes the row with the token |
| Session.Store.DeleteExpiredSessions | session/sqlite.go:165-176 | removes the rows whose text is not after the stamp, and counts them |
| Session.StoredAndFound | session/sqlite.go:68-123 | a session stored under a token is found by it with its instants to the second, a touch shows in the two it names, and a deleted one is unknown |
| Session.SweepTakes | session/sqlite.go:165-176 | the sweep removes exactly the rows whose text is not after the stamp and changes no other |
| Session.SweptMeansExpired | session/sqlite.go:160-168 | the text comparison of the sweep decides what a comparison of instants would |
| Session.SweepVersusLive | session/policy.go:82-91 | exactly which rows the sweep and the read check treat differently |
| Session.SweepAgreesWithLive | session/policy.go:54-70 | with a known expiry inside the cap the two agree at every instant |
| Session.GapExactlyWhen | session/policy.go:93-97 | after a write the next one always keeps the touch interval if and only if the write fell on a whole second, and is always less than a second early |
| Session.GapCanBeMissed | session/policy.go:93-97 | two inputs, one under the default policy, on which writes are closer than the touch interval |
| Session.TouchesAreSpaced | session/policy.go:93-97 | over any sequence of requests each write comes at least the touch interval after the write before it as that was stored |
| Session.GapsBetweenWrites | session/policy.go:93-97 | so two writes in a row are less than a second short of the interval, and not short after a whole second |
| Session.ActiveSessionLivesToItsCap | session/policy.go:60-97 | a session visited at gaps of at most TTL minus TouchInterval (a second less for a TTL not in whole seconds) stays live right up to its cap |
| SessionRuns.StepInv | oidcauth/fiberauth/middleware.go:45-89 | sign-in, lookup, judgement, touch, logout, revocation and sweep, as separate steps, keep every stored expiry within its cap |
| SessionRuns.CapHolds | oidcauth/fiberauth/handshake.go:244-254 | over every run no stored expiry passes the sign-in plus MaxLifetime, thirty days if unset, and no request is admitted at or after it |
| SessionRuns.JudgementStands | oidcauth/fiberauth/middleware.go:58-88 | over every continuation a request that found its session live is admitted once the write it may owe was tried, even in vain, and one that found it expired is refused |
| SessionRuns.UnknownTokenIsRefused | oidcauth/fiberauth/middleware.go:45-57 | a request whose token no row has is refused |
| SessionRuns.SweepTakesTheDead | session/sqlite.go:165-176 | in every reachable table the sweep leaves every session that would authenticate as it is, and no other under a policy that sweeps on time |
| SessionRuns.WholeSecondCapsSweepOnTime | session/policy.go:40-52 | a cap in whole seconds is such a policy |
| SessionRuns.OtherwiseTheSweepIsLate | session/policy.go:54-70 | under any other policy one sign-in at the end of a second leaves a row in the table that the sweep does not take although it no longer authenticates |
| SessionRuns.SweepIsExactlyOnTime | session/sqlite.go:165-176 | over all runs, sessions and instants the sweep takes exactly what Live rejects if and only if the policy sweeps on time |
| SessionRuns.GoneStaysGone | session/sqlite.go:105-133 | a session ended by logout, revocation or sweep never comes back, whatever touch was on its way |
| SessionUse.TendedSessionIsKept | oidcauth/fiberauth/middleware.go:45-89 | over every run in which a session is visited one request after another at safe gaps before its cap, with other sessions' events and sweeps in between, every visit is admitted and the session stays |
| SessionUse.IssuedIsKept | oidcauth/fiberauth/handshake.go:244-254 | a sign-in starts such a session |
| SessionUse.LastWriteIsStored | session/sqlite.go:105-113 | over every run the stored last-seen text is that of the last sign-in or touch that took effect |
| SessionUse.LaterLookupKeepsTheGap | oidcauth/fiberauth/middleware.go:51-77 | over every run a request that looked the row up after a write owes one of its own only if judged at least the touch interval after the instant stored |
| SessionUse.OverlapHasNoGap | oidcauth/fiberauth/middleware.go:51-77 | two requests that look a due session up before either is judged may both write at one instant |
| SessionUse.OverlapIsReachable | oidcauth/fiberauth/middleware.go:51-77 | such a session is reached by a sign-in left alone for the interval, under every policy that leaves time for it |
| SessionRuns.EndingOneSession | session/sqlite.go:118-133 | logging out and revoking remove one row and change no other |
| Retry.RoundTrip | httpc/transport.go:93-139 | the retry loop follows the policy, or makes a single call for a request that may not be retried |
| Retry.EveryResponseIsOwnedOnce | httpc/transport.go:112-127 | at most MaxRetries + 1 calls; every response is either returned untouched or drained and closed exactly once |
| Retry.WhatIsRetried | httpc/transport.go:93-185 | attempt k is followed by another exactly if the verb is GET, HEAD, OPTIONS, TRACE or empty, the body is not one-shot, the budget lasts, the reply was a 429, a 5xx or a failure not of the context, no Retry-After asked too much, the context lived and the body could be had; an answer comes back exactly if one of those before the wait gave out |
| Retry.WaitsAsAsked | httpc/transport.go:190-226 | in every round trip a Retry-After date is waited out for exactly as long as it lies ahead, a past one not at all, seconds as sent as far as a duration holds them, and any other wait is in the upper half of the nominal delay |
| Retry.JitterReachesAll | httpc/transport.go:200-204 | every wait of that half can be drawn |
| Retry.WrapMeans | httpc/transport.go:131-217 | a wrapped product is the one signed 64-bit number that differs by whole turns |
| Retry.TripIsDetermined | httpc/transport.go:93-139 | the policy leaves no choice: calls, waits, disposals and result are determined |
| Retry.DelayIsCappedDoubling | httpc/transport.go:131-137 | for all durations: the nominal delay is BaseDelay doubled up to MaxDelay for ever exactly when BaseDelay lies between zero and the cap and no doubling below the cap overflows |
| Retry.DelayCanWrap | httpc/transport.go:131-137 | a configuration whose second delay has wrapped to a negative one |
| Retry.WaitIsBounded | httpc/transport.go:190-204 | for every configuration: a wait is within a cap that binds, jitters within the upper half of the nominal delay, and equals a valid Retry-After |
| Retry.CapHoldsExactlyWhen | httpc/transport.go:24-27 | every wait in every world stays within MaxDelay if and only if it is positive and BaseDelay, without an odd nanosecond, does not exceed it; without a positive one every Retry-After is waited out |
| Retry.RetryAfterFits | httpc/transport.go:208-217 | a Retry-After in seconds is honoured as sent exactly when it fits a duration |
| Retry.LongHeaderStopsExactlyWhen | httpc/transport.go:190-199 | a Retry-After over MaxDelay ends the retries exactly unless it wraps to a duration within MaxDelay |
| Retry.LongHeaderCanBeRetried | httpc/transport.go:208-217 | a header of 9223372037 seconds gives a negative wait instead |
| Retry.TotalWaitIsBounded | httpc/transport.go:93-139 | every round trip in every world sleeps at most MaxRetries times MaxDelay if and only if the cap binds |
| Token.CachingTokenSource.Token | httpc/client.go:124-145 | hands out the cached token or the new login's, and stores a successful login only |
| Token.CachingTokenSource.SetExpiry | httpc/client.go:151-160 | the recorded expiry: unknown, the ttl, or the ttl less the margin |
| Token.OneLoginPerRejectedToken | httpc/client.go:133-139 | over every interleaving the callers turned away with one token cause at most one successful login between them |
| Token.RepeatedTokenDefeatsTheGuard | httpc/client.go:133-139 | a login that hands the rejected token out again makes every complaint about it log in again |
| Token.AtMostOneRetry | httpc/client.go:207-250 | a call sends at most two requests, the second only after a 401 and with another token, and a lone 401 is final only if the login failed |
| Token.UnforcedTokensHaveTimeLeft | httpc/client.go:128-160 | a caller without a complaint never gets a token past its recorded expiry, and keeps more than a minute of a longer grant |
| Token.UncalledForLogins | httpc/client.go:124-145 | a login happens only for a missing, expired or complained-of token |
| Migrate.Database.Migrate | sqlitex/migrate.go:61-84 | the migration loop from the stored version, with every way it can stop |
| Migrate.Database.ApplyStep | sqlitex/migrate.go:86-106 | contents and stamp change together or not at all |
| Migrate.RunKeepsPrefix | sqlitex/migrate.go:61-84 | one run keeps the prefix invariant, never goes back, is nil only when current, and refuses a newer file unchanged |
| Migrate.FailureNamesTheStep | sqlitex/migrate.go:75-106 | an error names the first step that did not go through: the ones before it are committed, it had something befall it or could not be applied, and it is in the file only if its commit failed after reaching the disk |
| Migrate.FileIsAlwaysAPrefix | sqlitex/migrate.go:19-30 | over any sequence of runs with failures and crashes anywhere, the file is the in-order effect of exactly the first user_version steps, each committed once |
| Migrate.NilExactlyWhen | sqlitex/migrate.go:61-106 | a run returns nil exactly when nothing goes wrong and every remaining step can be applied |
| Migrate.HistoriesConverge | sqlitex/migrate.go:19-23 | whatever crashes came before, two databases migrated to the same list are the same database |
| PubSub.Bus.Publish | pubsub/pubsub.go:46-55 | every subscriber of the topic is offered the value, or drops it with a full buffer, and nobody else notices |
| PubSub.Bus.Subscribe | pubsub/pubsub.go:66-74 | a new open channel is registered under its topic |
| PubSub.Bus.Unsubscribe | pubsub/pubsub.go:76-93 | removes and closes the channel, drops an empty topic, and does nothing the second time |
| PubSub.Bus.Subscribers | pubsub/pubsub.go:100-104 | the number of registered channels of a topic |
| PubSub.Bus.Topics | pubsub/pubsub.go:107-111 | the number of topics with a registered channel |
| PubSub.ChannelsAreSafe | pubsub/pubsub.go:46-94 | over every interleaving: no send on a closed channel, no double close, no empty topic, no queue over the buffer |
| PubSub.DroppedExactlyWhenFull | pubsub/pubsub.go:34-55 | over every run a value is dropped exactly if the subscriber's buffer, of the size given or sixteen, is full at that moment, and otherwise joins the end of its queue |
| PubSub.UnsubscribeCloses | pubsub/pubsub.go:76-93 | unsubscribing leads to removal as soon as no publisher is at work and then to the close, and nothing else closes a channel |
| PubSub.PublishGoesOn | pubsub/pubsub.go:46-55 | a publish under way can always go on |
| PubSub.EachSubscriberIsOfferedOnce | pubsub/pubsub.go:40-55 | a finished publish was offered exactly once to exactly the subscribers registered throughout it |
| PubSub.ReadersSeePublishOrder | pubsub/pubsub.go:46-55 | a reader never takes a value after one of a publish that began when its own had ended |
| PubSub.BurstsFit | pubsub/pubsub.go:17-39 | a subscriber offered no more values than the size the bus was built with, sixteen if not positive, loses none |
| PubSub.DisagreementMeansOverlap | pubsub/pubsub.go:46-55 | two readers disagree on an order only about overlapping publishes |
| PubSub.OverlappingPublishesMayCross | pubsub/pubsub.go:46-55 | two publishers at work at once can reach two subscribers in opposite orders |
| PubSub.PoisedIsReachable | pubsub/pubsub.go:46-74 | in every bus with room for two such a moment is reached |
| Health.OneCallInFlight | health/health.go:157-178 | however many sweeps overlap a check has at most one call in flight, and its flag is set exactly while it has one |
| Health.StillRunningIsTrue | health/health.go:168-178 | a sweep that reports a check as still running did so while a call of it was in flight whose result nobody had received |
| Health.ReceivedMeansReleased | health/health.go:173-182 | a received result is its own call's, and that call no longer holds the flag |
| Health.ReadyMeansAllAnswered | health/health.go:125-155 | over every run a sweep reports each check registered before it began, and is ready exactly when every one of them was called by it, returned without error, and was heard |
| Health.SweepCopiesAll | health/health.go:125-129 | the number of checks a sweep copies is that of the registrations before it began |
| Health.Registry.Verdict | health/health.go:148-153 | ready exactly when every slot is OK |
| Health.Registry.LogTransition | health/handler.go:88-115 | logs a line exactly when the swap changed the readiness, naming the failing checks |
| Health.EdgesAreAll | health/handler.go:88-96 | the changes of readiness are listed once each and in order |
| Health.LogIsTheEdges | health/handler.go:79-96 | in swap order the log is one line per change of readiness, each of the sweep that made it |
| Health.LinesAlternate | health/handler.go:79-96 | ready and not ready take turns, and the last line is the current state |
| Health.FailingNamesThem | health/handler.go:106-114 | the line names exactly the failing checks |
| Handshake.DecodeUndoesEncode | oidcauth/fiberauth/handshake.go:157-162 | decoding undoes encoding on every text, and an encoded text is made of URL-safe symbols (section 5 of RFC 4648) and has no separator |
| Handshake.EncodeIsBase64 | oidcauth/fiberauth/handshake.go:157-162 | encoding is base64url without padding: each four symbols spell the 24 bits of three bytes (sections 4 and 5 of RFC 4648) |
| Handshake.DecodableExactlyWhen | oidcauth/fiberauth/handshake.go:280-286 | a text can be decoded exactly if it is URL-safe symbols and line breaks and leaves no lone symbol over |
| Handshake.SplitUndoesJoin | oidcauth/fiberauth/handshake.go:163 | splitting gives back joined fields that hold no separator |
| Handshake.JoinUndoesSplit | oidcauth/fiberauth/handshake.go:274 | joining gives back any text that was split, and no field holds the separator |
| Handshake.SafeReturnPath | oidcauth/fiberauth/cookies.go:141-163 | the scanning sanitiser returns the path exactly when it is a path on this site, else "/" |
| Handshake.SafeIsSafe | oidcauth/fiberauth/cookies.go:122-140 | the result always starts with one slash, has no backslash or control character, and is left alone by a second pass |
| Handshake.UnchangedExactlyWhen | oidcauth/fiberauth/cookies.go:141-163 | exactly which paths come back unchanged: "/", and up to 512 bytes with one leading slash, no backslash, control character or delete, and neither scheme nor host |
| Handshake.CookieRoundTrip | oidcauth/fiberauth/handshake.go:157-163 | parsing the cookie gives back the secrets and the sanitised path exactly when the secrets are non-empty and free of the separator |
| Handshake.CookieShape | oidcauth/fiberauth/handshake.go:157-163 | the cookie is the three secrets and the encoded sanitised path with a bar between them |
| Handshake.AcceptedExactlyWhen | oidcauth/fiberauth/handshake.go:262-287 | a cookie is accepted exactly when it is three non-empty fields and a fourth, and yields them and the path the fourth encodes, sanitised once more, or "/" if it encodes none |

## Left out

- CacheProtocol.StepInv: entries, fetches and revalidations of the interleaved cache are records in maps, not objects; update in place and aliasing of entries are captured by the classes of CacheEntry, one caller at a time. The fetch timeout is one more way for fn to answer an error.
- CacheRefresh.FailingUpstreamIsShielded: counts claims of a refresh from any state that satisfies the invariant; progress of fn is not assumed.
- Group.StepInv: the interleaved group is a step machine on values; Supervisor captures its fields one caller at a time. Fairness of the scheduler is not modelled, so termination of Wait is stated as a short run that frees the waiter.
- Pool.BoundHolds: the pool has no class of its own, because each of its steps runs on another goroutine; its fields closed, sem and wg are those of the step machine. A context that ends while a task of an unlimited pool waits to start does not stop it, as in the code.
- Teardown.BackgroundWorkIsJoinedFirst: the effect of cancelling the application context on the goroutines is a premise of their returning, not modelled; step budgets are one more way for a step to fail; PushCloser, Names and Len are thin wrappers.
- Session.Store.SessionByToken: ListSessions, the JSON of the groups and the columns that are copied unchanged are left out, and so are database errors, which change nothing.
- SessionRuns.CapHolds: the token hash is taken as injective; ResolveIdentity's request locals, RequireOwner, RequireAuth and the owner flag are per-request tables.
- Calendar.StampsInOrder: says nothing of instants outside the years 0 to 9999, because there the order is lost.
- Calendar.ParseStamp: parsing of texts the store did not write (fractions, offsets) is not modelled.
- Session.SweptMeansExpired: covers rows whose text the store wrote; other texts that time.Parse accepts are not modelled.
- Session.SweepVersusLive: covers the same rows.
- Session.SweepAgreesWithLive: covers the same rows.
- Retry.RoundTrip: the random jitter, the replies and the end of the context are parameters; HTTP dates and header whitespace are classified by the parameter; a huge number that Atoi refuses is Unreadable.
- Token.OneLoginPerRejectedToken: supposes fresh tokens, because the guard tells tokens apart and nothing else.
- Token.AtMostOneRetry: request building, JSON coding and error wrapping of DoJSON; the clock's monotonicity is not assumed.
- Migrate.Database.Migrate: two migrators on one file, which the source excludes, and contexts, which are one more way for a step to fail.
- PubSub.ChannelsAreSafe: starvation of writers by readers, and blocking of receivers.
- Health.ReadyMeansAllAnswered: durations, timeouts as clock values, panics of a check (one more way to return an error), and the names and texts, which are parameters.
- Health.LogIsTheEdges: lines are ordered by their swap; two log calls may still be written in the other order.
- Handshake.SafeReturnPath: url.Parse is an arbitrary function of the text.
- The counters gen and n are unbounded; 64-bit wrap-around is modelled for durations only.
- Fiber, OIDC discovery and token verification, OpenTelemetry, SQLite itself, logging, configuration, signals and listeners.
- capset, fiberx, buildinfo, ids, notify and httpc/fault.go: type lookups, tables, error classes and a loop over senders, whose guarantee is one branch or one call.
- safe/all.go and httpc/debug.go: a plain fan-out and a ring buffer under one lock, with no protocol between their calls.
- backup: its guarantee is that of SQLite's own snapshot and of the file system.
- jobs: its schedule rests on how the Go library resolves local times that a clock change skips or repeats.
