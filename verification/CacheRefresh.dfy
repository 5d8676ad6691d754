/** Background revalidation over whole runs: when a claim on an entry has no goroutine
    behind it, and how often a failing upstream is called. */
module CacheRefresh {
  import opened Prelude
  import opened CacheEntry
  import opened CacheProtocol
  import opened CacheClaims

  // ----- Claims nobody works off -----

  /** The entry is marked refreshing, and no revalidation of it is claimed or running. */
  ghost predicate Stuck(s: State, e: Id) {
    e in s.nodes && s.nodes[e].f.refreshing && forall r :: !Refreshing(s, r, e)
  }

  /** A load of `e` by this event finds a stale value of its own type, unclaimed. */
  predicate Claims(s: State, ev: Event, e: Id) {
    && (ev.FetchLoad? || ev.FetchRecheck?) && FetchAt(s, ev.o) && EntryOf(s.fetches[ev.o].pc) == Some(e)
    && var f := s.nodes[e].f;
       f.loaded && f.val.tag == s.fetches[ev.o].tag && f.expires <= s.now && !f.refreshing
  }

  /** The re-check under the fetch gate claims the refresh, and its caller drops it. */
  predicate DropsClaim(s: State, ev: Event, e: Id) {
    ev.FetchRecheck? && Claims(s, ev, e)
  }

  /** Some event of the run dropped a claim on `e`. */
  predicate Dropped(s: State, evs: seq<Event>, e: Id)
    requires Possible(s, evs)
    decreases |evs|
  {
    evs != [] && (Dropped(s, Front(evs), e) || DropsClaim(Run(s, Front(evs)), evs[|evs| - 1], e))
  }

  /** What one event does to an entry's claim. */
  lemma ClaimMoves(s: State, ev: Event, e: Id)
    requires Enabled(s, ev) && e in s.nodes
    ensures e in Next(s, ev).nodes
    ensures Next(s, ev).nodes[e].f.refreshing ==
      if Claims(s, ev, e) then true
      else if ev.RevalFinish? && s.revals[ev.r].e == e then false
      else s.nodes[e].f.refreshing
  {
  }

  /** What one event does to an entry's revalidations. */
  lemma RevalsMove(s: State, ev: Event, e: Id, r: Id)
    requires Enabled(s, ev)
    ensures Refreshing(Next(s, ev), r, e) <==>
      (Refreshing(s, r, e) && ev != RevalFinish(r)) || (ev.FetchLoad? && ev.r == r && Claims(s, ev, e))
  {
  }

  /** A revalidation of `e` starts with a claim, ends with its last step, and has the claim
      to itself in between. */
  lemma RefreshingMoves(s: State, ev: Event, e: Id, r: Id)
    requires Inv(s) && Enabled(s, ev) && e in s.nodes
    ensures Refreshing(Next(s, ev), r, e) <==>
      (Refreshing(s, r, e) && ev != RevalFinish(r)) || (ev.FetchLoad? && ev.r == r && Claims(s, ev, e))
    ensures Refreshing(s, r, e) ==> s.nodes[e].f.refreshing
    ensures ev.RevalFinish? && Refreshing(s, ev.r, e) && Refreshing(s, r, e) ==> r == ev.r
  {
    RevalsMove(s, ev, e, r);
    if Refreshing(s, r, e) {
      assert RevalOk(s, r);
      if ev.RevalFinish? {
        assert Apart(s, r, ev.r);
      }
    }
  }

  lemma NewIsNotStuck(s: State, ev: Event, e: Id)
    requires Enabled(s, ev) && e !in s.nodes
    ensures !Stuck(Next(s, ev), e) && !DropsClaim(s, ev, e)
  {
    assert Present(Next(s, ev), e) ==> Next(s, ev).nodes[e].f == BLANK;
  }

  /** A claim is stranded by exactly one kind of event, and no event ever clears it. */
  lemma StepStuck(s: State, ev: Event, e: Id)
    requires Inv(s) && Enabled(s, ev)
    ensures Stuck(Next(s, ev), e) <==> Stuck(s, e) || DropsClaim(s, ev, e)
  {
    if e !in s.nodes {
      NewIsNotStuck(s, ev, e);
      return;
    }
    ClaimMoves(s, ev, e);
    forall r
      ensures Refreshing(Next(s, ev), r, e) <==>
        (Refreshing(s, r, e) && ev != RevalFinish(r)) || (ev.FetchLoad? && ev.r == r && Claims(s, ev, e))
      ensures Refreshing(s, r, e) ==> s.nodes[e].f.refreshing
      ensures ev.RevalFinish? && Refreshing(s, ev.r, e) && Refreshing(s, r, e) ==> r == ev.r
    {
      RefreshingMoves(s, ev, e, r);
    }
    if ev.RevalFinish? && s.revals[ev.r].e == e {
      assert Refreshing(s, ev.r, e);
    }
    if ev.FetchLoad? && Claims(s, ev, e) {
      assert Refreshing(Next(s, ev), ev.r, e);
    }
  }

  /** "Refreshing means a revalidation is outstanding" is false of the code. Over every run
      it fails for an entry exactly when some re-check under the fetch gate found the entry
      stale and unclaimed, and once it fails it fails for good: no later event, Invalidate
      included, gives the entry another background refresh. */
  lemma {:induction false} StuckIffDropped(max: nat, now: int, evs: seq<Event>, e: Id)
    requires 1 <= max && Possible(Init(max, now), evs)
    ensures Stuck(Run(Init(max, now), evs), e) <==> Dropped(Init(max, now), evs, e)
    decreases |evs|
  {
    if evs != [] {
      StuckIffDropped(max, now, Front(evs), e);
      RunInv(Init(max, now), Front(evs));
      StepStuck(Run(Init(max, now), Front(evs)), evs[|evs| - 1], e);
    }
  }

  // A run that drops a claim: caller p queues behind the cold fetch of caller o, and by the
  // time it gets the gate the value it waited for has gone stale.

  predicate At(s: State, o: Id, pc: FetchPc) {
    o in s.fetches && s.fetches[o].pc == pc
  }

  /** Fetches `o` and `p` want a value of `v`'s type from the same blank entry; `o` is at `pc`
      and `p` at `qc`. */
  predicate Both(s: State, o: Id, pc: FetchPc, p: Id, qc: FetchPc, e: Id, gate: Option<Id>, v: Value, ttl: nat) {
    && o != p && At(s, o, pc) && At(s, p, qc)
    && s.fetches[o].tag == s.fetches[p].tag == v.tag && s.fetches[o].ttl == ttl
    && e in s.nodes && s.nodes[e].f == BLANK && s.nodes[e].gate == gate && s.revals == map[]
  }

  /** Fetch `o` has published `v` and gone; `p` is still in the queue. */
  predicate OneServed(s: State, p: Id, e: Id, v: Value, ttl: nat) {
    && At(s, p, FQueued(e)) && s.fetches[p].tag == v.tag
    && e in s.nodes && s.nodes[e].f == Publish(BLANK, v, s.now, ttl) && s.nodes[e].gate.None? && s.revals == map[]
  }

  lemma BothInvoke(key: string, o: Id, p: Id, v: Value, ttl: nat) returns (evs: seq<Event>)
    requires o != p
    ensures Possible(Init(1, 0), evs) && BothAsk(Run(Init(1, 0), evs), key, o, p, v, ttl)
  {
    var s := Init(1, 0);
    evs := [];
    RunSnoc(s, evs, FetchInvoke(o, key, v.tag, ttl));
    evs := evs + [FetchInvoke(o, key, v.tag, ttl)];
    RunSnoc(s, evs, FetchInvoke(p, key, v.tag, ttl));
    evs := evs + [FetchInvoke(p, key, v.tag, ttl)];
  }

  /** Two callers ask an empty cache for the same key. */
  predicate BothAsk(s: State, key: string, o: Id, p: Id, v: Value, ttl: nat) {
    && o != p && At(s, o, FStart) && At(s, p, FStart) && s.fetches[o].key == s.fetches[p].key == key
    && s.fetches[o].tag == s.fetches[p].tag == v.tag && s.fetches[o].ttl == ttl
    && s.max == 1 && s.dir == map[] && s.order == [] && s.nodes == map[] && s.revals == map[]
  }

  lemma BothLookUp(s: State, before: seq<Event>, key: string, o: Id, p: Id, v: Value, ttl: nat) returns (evs: seq<Event>)
    requires Possible(s, before) && BothAsk(Run(s, before), key, o, p, v, ttl)
    ensures Possible(s, evs) && Both(Run(s, evs), o, FHave(0), p, FHave(0), 0, None, v, ttl)
  {
    evs := before;
    RunSnoc(s, evs, FetchEntry(o, 0));
    evs := evs + [FetchEntry(o, 0)];
    RunSnoc(s, evs, FetchEntry(p, 1));
    evs := evs + [FetchEntry(p, 1)];
  }

  lemma BothMiss(s: State, before: seq<Event>, o: Id, p: Id, e: Id, v: Value, ttl: nat) returns (evs: seq<Event>)
    requires Possible(s, before) && Both(Run(s, before), o, FHave(e), p, FHave(e), e, None, v, ttl)
    ensures Possible(s, evs) && Both(Run(s, evs), o, FQueued(e), p, FQueued(e), e, None, v, ttl)
  {
    evs := before;
    RunSnoc(s, evs, FetchLoad(o, 0));
    evs := evs + [FetchLoad(o, 0)];
    RunSnoc(s, evs, FetchLoad(p, 0));
    evs := evs + [FetchLoad(p, 0)];
  }

  lemma OneEnters(s: State, before: seq<Event>, o: Id, p: Id, e: Id, v: Value, ttl: nat) returns (evs: seq<Event>)
    requires Possible(s, before) && Both(Run(s, before), o, FQueued(e), p, FQueued(e), e, None, v, ttl)
    ensures Possible(s, evs) && Both(Run(s, evs), o, FCold(e), p, FQueued(e), e, Some(o), v, ttl)
  {
    evs := before;
    RunSnoc(s, evs, FetchGate(o));
    evs := evs + [FetchGate(o)];
    RunSnoc(s, evs, FetchRecheck(o));
    evs := evs + [FetchRecheck(o)];
  }

  lemma OneCalls(s: State, before: seq<Event>, o: Id, p: Id, e: Id, v: Value, ttl: nat)
    returns (evs: seq<Event>, start: nat)
    requires Possible(s, before) && Both(Run(s, before), o, FCold(e), p, FQueued(e), e, Some(o), v, ttl)
    ensures Possible(s, evs) && Both(Run(s, evs), o, FCalling(e, 0, start), p, FQueued(e), e, Some(o), v, ttl)
  {
    evs := before;
    RunSnoc(s, evs, FetchCapture(o));
    evs := evs + [FetchCapture(o)];
    start := Run(s, evs).t;
    RunSnoc(s, evs, FetchCall(o));
    evs := evs + [FetchCall(o)];
  }

  lemma OneAnswered(s: State, before: seq<Event>, o: Id, p: Id, e: Id, start: nat, v: Value, ttl: nat)
    returns (evs: seq<Event>)
    requires Possible(s, before)
    requires Both(Run(s, before), o, FCalling(e, 0, start), p, FQueued(e), e, Some(o), v, ttl)
    ensures Possible(s, evs)
    ensures Both(Run(s, evs), o, FFetched(e, 0, start, v, Run(s, evs).now), p, FQueued(e), e, Some(o), v, ttl)
  {
    RunSnoc(s, before, FetchAnswer(o, Good(v)));
    evs := before + [FetchAnswer(o, Good(v))];
  }

  lemma OneReturns(s: State, before: seq<Event>, o: Id, p: Id, e: Id, start: nat, v: Value, ttl: nat)
    returns (evs: seq<Event>)
    requires Possible(s, before)
    requires Both(Run(s, before), o, FFetched(e, 0, start, v, Run(s, before).now), p, FQueued(e), e, Some(o), v, ttl)
    ensures Possible(s, evs) && OneServed(Run(s, evs), p, e, v, ttl)
  {
    evs := before;
    RunSnoc(s, evs, FetchPublish(o));
    evs := evs + [FetchPublish(o)];
    assert OnePublished(Run(s, evs), o, p, e, v, ttl);
    evs := OneLeaves(s, evs, o, p, e, v, ttl);
  }

  predicate OnePublished(s: State, o: Id, p: Id, e: Id, v: Value, ttl: nat) {
    && o != p && o in s.fetches && s.fetches[o].pc.FReplying? && s.fetches[o].pc.e == e
    && At(s, p, FQueued(e)) && s.fetches[p].tag == v.tag
    && e in s.nodes && s.nodes[e].f == Publish(BLANK, v, s.now, ttl) && s.nodes[e].gate == Some(o) && s.revals == map[]
  }

  lemma OneLeaves(s: State, before: seq<Event>, o: Id, p: Id, e: Id, v: Value, ttl: nat) returns (evs: seq<Event>)
    requires Possible(s, before) && OnePublished(Run(s, before), o, p, e, v, ttl)
    ensures Possible(s, evs) && OneServed(Run(s, evs), p, e, v, ttl)
  {
    RunSnoc(s, before, FetchReturn(o));
    evs := before + [FetchReturn(o)];
  }

  lemma Expire(s: State, before: seq<Event>, p: Id, e: Id, v: Value, ttl: nat) returns (evs: seq<Event>)
    requires Possible(s, before) && OneServed(Run(s, before), p, e, v, ttl)
    ensures Possible(s, evs) && Stuck(Run(s, evs), e)
    ensures Run(s, evs).nodes[e].f == Publish(BLANK, v, Run(s, before).now, ttl).(refreshing := true)
  {
    evs := before;
    RunSnoc(s, evs, Tick(ttl));
    evs := evs + [Tick(ttl)];
    RunSnoc(s, evs, FetchGate(p));
    evs := evs + [FetchGate(p)];
    RunSnoc(s, evs, FetchRecheck(p));
    evs := evs + [FetchRecheck(p)];
  }

  /** It can happen: for any key, value and ttl some run leaves the key holding a value that no
      background refresh will ever replace. */
  lemma ClaimCanBeDropped(key: string, v: Value, ttl: nat) returns (evs: seq<Event>)
    ensures Possible(Init(1, 0), evs) && Stuck(Run(Init(1, 0), evs), 0)
    ensures Run(Init(1, 0), evs).nodes[0].f.loaded && Run(Init(1, 0), evs).nodes[0].f.val == v
  {
    var s := Init(1, 0);
    evs := BothInvoke(key, 0, 1, v, ttl);
    evs := BothLookUp(s, evs, key, 0, 1, v, ttl);
    evs := BothMiss(s, evs, 0, 1, 0, v, ttl);
    evs := OneEnters(s, evs, 0, 1, 0, v, ttl);
    var start: nat;
    evs, start := OneCalls(s, evs, 0, 1, 0, v, ttl);
    evs := OneAnswered(s, evs, 0, 1, 0, start, v, ttl);
    evs := OneReturns(s, evs, 0, 1, 0, start, v, ttl);
    evs := Expire(s, evs, 1, 0, v, ttl);
  }

  // ----- What a dropped claim costs -----

  predicate ColdFetch(s: State, o: Id, e: Id) {
    Fetching(s, o, e) && !s.fetches[o].pc.FGated?
  }

  /** Stuck on a value, with no cold fetch under way that could replace it. */
  ghost predicate Frozen(s: State, e: Id) {
    Stuck(s, e) && s.nodes[e].f.loaded && forall o :: !ColdFetch(s, o, e)
  }

  /** An event makes a fetch of a loaded entry cold, or writes a loaded entry, only if it
      was one of the fetches or revalidations already at work on it. */
  lemma QuietStep(s: State, ev: Event, e: Id, o: Id)
    requires Enabled(s, ev) && e in s.nodes && s.nodes[e].f.loaded
    ensures ColdFetch(Next(s, ev), o, e) ==> ColdFetch(s, o, e)
  {
  }

  lemma FrozenFields(s: State, ev: Event, e: Id)
    requires Enabled(s, ev) && e in s.nodes && s.nodes[e].f.refreshing && !Bumps(s, ev, e)
    requires ev.FetchPublish? ==> !ColdFetch(s, ev.o, e)
    requires ev.RevalFinish? ==> !Refreshing(s, ev.r, e)
    ensures e in Next(s, ev).nodes && Next(s, ev).nodes[e].f == s.nodes[e].f
  {
  }

  lemma StepFrozen(s: State, ev: Event, e: Id)
    requires Inv(s) && Enabled(s, ev) && Frozen(s, e) && !Bumps(s, ev, e)
    ensures Frozen(Next(s, ev), e) && Next(s, ev).nodes[e].f == s.nodes[e].f
  {
    FrozenFields(s, ev, e);
    StepStuck(s, ev, e);
    forall o
      ensures !ColdFetch(Next(s, ev), o, e)
    {
      QuietStep(s, ev, e, o);
    }
  }

  /** Dropping a claim freezes the key: the dropper holds the gate, so no one else is cold. */
  lemma DropFreezes(s: State, ev: Event, e: Id)
    requires Inv(s) && Enabled(s, ev) && DropsClaim(s, ev, e)
    ensures Frozen(Next(s, ev), e)
  {
    StepStuck(s, ev, e);
    assert FetchOk(s, ev.o);
    forall o
      ensures !ColdFetch(Next(s, ev), o, e)
    {
      assert o in s.fetches ==> FetchOk(s, o);
      QuietStep(s, ev, e, o);
    }
  }

  /** None of the events invalidates `e`. */
  predicate NoBump(s: State, evs: seq<Event>, e: Id)
    requires Possible(s, evs)
    decreases |evs|
  {
    evs != [] ==> NoBump(s, Front(evs), e) && !Bumps(Run(s, Front(evs)), evs[|evs| - 1], e)
  }

  /** However long the run and however often its deadline passes, a frozen entry serves the
      same value with the same status until somebody invalidates it. */
  lemma {:induction false} FrozenUntilInvalidated(s: State, evs: seq<Event>, e: Id)
    requires Inv(s) && Frozen(s, e) && Possible(s, evs) && NoBump(s, evs, e)
    ensures Frozen(Run(s, evs), e) && Run(s, evs).nodes[e].f == s.nodes[e].f
    decreases |evs|
  {
    if evs != [] {
      FrozenUntilInvalidated(s, Front(evs), e);
      RunInv(s, Front(evs));
      StepFrozen(Run(s, Front(evs)), evs[|evs| - 1], e);
    }
  }

  // ----- Shielding a failing upstream -----

  /** How many times the events claim a refresh of `e`. */
  function ClaimCount(s: State, evs: seq<Event>, e: Id): nat
    requires Possible(s, evs)
    decreases |evs|
  {
    if evs == [] then 0
    else ClaimCount(s, Front(evs), e) + if Claims(Run(s, Front(evs)), evs[|evs| - 1], e) then 1 else 0
  }

  /** The event neither invalidates `e` nor gives it a new value. */
  predicate NoRelief(s: State, ev: Event, e: Id)
    requires Enabled(s, ev)
  {
    && !Bumps(s, ev, e)
    && (ev.FetchPublish? && s.fetches[ev.o].pc.e == e ==> s.fetches[ev.o].pc.gen != s.nodes[e].f.gen)
    && (ev.RevalFinish? && s.revals[ev.r].e == e ==> s.revals[ev.r].pc.out.None?)
  }

  /** The upstream of `e` is down all along: no Invalidate, no publish, every answer to a
      revalidation an error or a panic. */
  predicate Down(s: State, evs: seq<Event>, e: Id)
    requires Possible(s, evs)
    decreases |evs|
  {
    evs != [] ==> Down(s, Front(evs), e) && NoRelief(Run(s, Front(evs)), evs[|evs| - 1], e)
  }

  /** The revalidation will fail the entry when it ends: no Invalidate came since its start. */
  predicate Current(s: State, r: Id, e: Id) {
    Refreshing(s, r, e) && e in s.nodes ==>
      match s.revals[r].pc
      case RCaptured(gen) => gen == s.nodes[e].f.gen
      case RCalling(gen, _) => gen == s.nodes[e].f.gen
      case RReplied(gen, _, _) => gen == s.nodes[e].f.gen
      case _ => true
  }

  /** No refresh of `e` can be claimed before `last` plus the backoff. */
  ghost predicate Shielded(s: State, e: Id, last: int) {
    && e in s.nodes && last <= s.now
    && (s.nodes[e].f.refreshing || last + RETRY_BACKOFF <= s.nodes[e].f.expires)
    && (forall r {:trigger Current(s, r, e)} :: Current(s, r, e))
  }

  /** While the upstream is down, an event moves an entry's deadline only by failing it. */
  lemma DownFields(s: State, ev: Event, e: Id)
    requires Enabled(s, ev) && e in s.nodes && NoRelief(s, ev, e)
    ensures e in Next(s, ev).nodes && s.now <= Next(s, ev).now
    ensures Next(s, ev).nodes[e].f.gen == s.nodes[e].f.gen
    ensures Next(s, ev).nodes[e].f.expires ==
      if ev.RevalFinish? && s.revals[ev.r].e == e && s.revals[ev.r].pc.gen == s.nodes[e].f.gen
      then s.now + RETRY_BACKOFF else s.nodes[e].f.expires
  {
  }

  /** The event is a step of revalidation `r`, or spawns it. */
  predicate StepOf(ev: Event, r: Id) {
    match ev
    case FetchLoad(_, x) => x == r
    case RevalCapture(x) => x == r
    case RevalCall(x) => x == r
    case RevalAnswer(x, _) => x == r
    case RevalFinish(x) => x == r
    case _ => false
  }

  lemma OtherReval(s: State, ev: Event, r: Id)
    requires Enabled(s, ev) && !StepOf(ev, r) && r in Next(s, ev).revals
    ensures r in s.revals && Next(s, ev).revals[r] == s.revals[r]
  {
  }

  lemma OwnReval(s: State, ev: Event, e: Id, r: Id)
    requires Enabled(s, ev) && e in s.nodes && NoRelief(s, ev, e) && StepOf(ev, r)
    requires Current(s, r, e)
    ensures Current(Next(s, ev), r, e)
  {
  }

  lemma StaysCurrent(s: State, ev: Event, e: Id, r: Id)
    requires Enabled(s, ev) && e in s.nodes && NoRelief(s, ev, e)
    requires Current(s, r, e)
    ensures Current(Next(s, ev), r, e)
  {
    DownFields(s, ev, e);
    if StepOf(ev, r) {
      OwnReval(s, ev, e, r);
    } else if r in Next(s, ev).revals {
      OtherReval(s, ev, r);
    }
  }

  lemma StepShielded(s: State, ev: Event, e: Id, last: int)
    requires Inv(s) && Enabled(s, ev) && NoRelief(s, ev, e) && e in s.nodes
    requires Shielded(s, e, last) || Claims(s, ev, e)
    ensures Shielded(s, e, last) && Claims(s, ev, e) ==> last + RETRY_BACKOFF <= s.now
    ensures Shielded(Next(s, ev), e, if Claims(s, ev, e) then s.now else last)
  {
    DownFields(s, ev, e);
    ClaimMoves(s, ev, e);
    forall r
      ensures Current(Next(s, ev), r, e)
    {
      if Refreshing(s, r, e) {
        assert RevalOk(s, r);
      }
      assert Shielded(s, e, last) ==> Current(s, r, e);
      StaysCurrent(s, ev, e, r);
    }
    if ev.RevalFinish? {
      assert Shielded(s, e, last) ==> Current(s, ev.r, e);
    }
  }

  lemma {:induction false} ClaimsAreSpaced(s: State, evs: seq<Event>, e: Id) returns (last: int)
    requires Inv(s) && e in s.nodes && Possible(s, evs) && Down(s, evs, e)
    ensures e in Run(s, evs).nodes && s.now <= Run(s, evs).now
    ensures ClaimCount(s, evs, e) > 0 ==>
      Shielded(Run(s, evs), e, last) && (ClaimCount(s, evs, e) - 1) * RETRY_BACKOFF <= last - s.now
    decreases |evs|
  {
    last := s.now;
    if evs != [] {
      var t, ev := Run(s, Front(evs)), evs[|evs| - 1];
      var before := ClaimsAreSpaced(s, Front(evs), e);
      RunInv(s, Front(evs));
      DownFields(t, ev, e);
      if ClaimCount(s, evs, e) > 0 {
        StepShielded(t, ev, e, before);
        last := if Claims(t, ev, e) then t.now else before;
      }
    }
  }

  /** While an upstream is down, a window of length W sees at most W / retryBackoff + 1
      revalidations of an entry, whatever its readers do. */
  lemma FailingUpstreamIsShielded(s: State, evs: seq<Event>, e: Id)
    requires Inv(s) && e in s.nodes && Possible(s, evs) && Down(s, evs, e)
    ensures ClaimCount(s, evs, e) <= (Run(s, evs).now - s.now) / RETRY_BACKOFF + 1
  {
    var last := ClaimsAreSpaced(s, evs, e);
  }
}
