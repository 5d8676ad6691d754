/** Where an entry's value, its timestamp and its deadline come from: which call asked for the
    ttl, and what the clock showed. */
module CacheTraces {
  import opened Prelude
  import opened CacheEntry
  import opened CacheProtocol
  import opened CacheClaims

  /** The clock after the events: only a Tick moves it. */
  function ClockAfter(now: int, evs: seq<Event>): int {
    if evs == [] then now
    else ClockAfter(now, Front(evs)) + if evs[|evs| - 1].Tick? then evs[|evs| - 1].d else 0
  }

  /** The keys looked up, in order. */
  function Lookups(s: State, evs: seq<Event>): seq<string>
    requires Possible(s, evs)
    decreases |evs|
  {
    if evs == [] then []
    else
      var before, t := Lookups(s, Front(evs)), Run(s, Front(evs));
      match evs[|evs| - 1]
      case FetchEntry(o, _) => before + [t.fetches[o].key]
      case InvalEntry(a, _) => before + [t.invals[a].key]
      case _ => before
  }

  /** Fetch `o` was invoked with this ttl. */
  ghost predicate Asked(evs: seq<Event>, o: Id, ttl: int) {
    exists j, key, tag :: 0 <= j < |evs| && evs[j] == FetchInvoke(o, key, tag, ttl)
  }

  predicate AnsweredAt(now: int, evs: seq<Event>, o: Id, start: nat, v: Value, at: int, k: nat) {
    && start < k < |evs| && evs[start] == FetchCall(o) && evs[k] == FetchAnswer(o, Good(v))
    && at == ClockAfter(now, evs[..k])
  }

  /** A cold fetch gave the value: its own ttl, and the clock when fn answered. */
  ghost predicate FromFetch(now: int, evs: seq<Event>, m: Mark, o: Id) {
    && m.Published? && Asked(evs, o, m.ttl)
    && exists k: nat :: AnsweredAt(now, evs, o, m.start, m.val, m.at, k)
  }

  predicate RefreshedAt(now: int, evs: seq<Event>, r: Id, start: nat, v: Value, at: int, l: nat, k: nat) {
    && start < l < k < |evs| && evs[start] == RevalCall(r) && evs[l] == RevalAnswer(r, Good(v))
    && evs[k] == RevalFinish(r) && at == ClockAfter(now, evs[..k])
  }

  predicate SpawnedAt(evs: seq<Event>, r: Id, o: Id, i: nat) {
    i < |evs| && evs[i] == FetchLoad(o, r)
  }

  /** Revalidation `r` was spawned by the load of a fetch with this ttl. */
  ghost predicate Spawned(evs: seq<Event>, r: Id, ttl: int) {
    exists o, i: nat :: SpawnedAt(evs, r, o, i) && Asked(evs, o, ttl)
  }

  /** A revalidation gave the value: the ttl of the fetch that spawned it, and the clock when
      it ended. */
  ghost predicate FromReval(now: int, evs: seq<Event>, m: Mark, r: Id) {
    && m.Published? && Spawned(evs, r, m.ttl)
    && exists l: nat, k: nat :: RefreshedAt(now, evs, r, m.start, m.val, m.at, l, k)
  }

  ghost predicate Earned(now: int, evs: seq<Event>, m: Mark) {
    (exists o :: FromFetch(now, evs, m, o)) || (exists r :: FromReval(now, evs, m, r))
  }

  predicate RepliedAt(evs: seq<Event>, r: Id, start: nat, v: Value, l: nat) {
    start < l < |evs| && evs[start] == RevalCall(r) && evs[l] == RevalAnswer(r, Good(v))
  }

  ghost predicate FetchTraced(now: int, evs: seq<Event>, s: State, o: Id)
    requires o in s.fetches
  {
    && Asked(evs, o, s.fetches[o].ttl)
    && match s.fetches[o].pc
       case FCalling(_, _, start) => start < |evs| && evs[start] == FetchCall(o)
       case FFetched(_, _, start, v, at) => exists k: nat :: AnsweredAt(now, evs, o, start, v, at, k)
       case _ => true
  }

  ghost predicate RevalTraced(evs: seq<Event>, s: State, r: Id)
    requires r in s.revals
  {
    && Spawned(evs, r, s.revals[r].ttl)
    && match s.revals[r].pc
       case RCalling(_, start) => start < |evs| && evs[start] == RevalCall(r)
       case RReplied(_, start, Some(v)) => exists l: nat :: RepliedAt(evs, r, start, v, l)
       case _ => true
  }

  ghost predicate MarksEarned(now: int, evs: seq<Event>, marks: seq<Mark>) {
    forall i :: 0 <= i < |marks| && marks[i].Published? ==> Earned(now, evs, marks[i])
  }

  ghost predicate Traced(now: int, evs: seq<Event>, s: State) {
    && s.t == |evs| && s.now == ClockAfter(now, evs)
    && (forall o {:trigger FetchTraced(now, evs, s, o)} :: o in s.fetches ==> FetchTraced(now, evs, s, o))
    && (forall r {:trigger RevalTraced(evs, s, r)} :: r in s.revals ==> RevalTraced(evs, s, r))
    && (forall e {:trigger Present(s, e)} :: Present(s, e) ==> MarksEarned(now, evs, s.nodes[e].marks))
  }

  // ----- What was so stays so -----

  lemma AskedLater(evs: seq<Event>, ev: Event, o: Id, ttl: int)
    requires Asked(evs, o, ttl)
    ensures Asked(evs + [ev], o, ttl)
  {
    var j, key, tag :| 0 <= j < |evs| && evs[j] == FetchInvoke(o, key, tag, ttl);
    assert (evs + [ev])[j] == FetchInvoke(o, key, tag, ttl);
  }

  lemma AnsweredLater(now: int, evs: seq<Event>, ev: Event, o: Id, start: nat, v: Value, at: int)
    requires exists k: nat :: AnsweredAt(now, evs, o, start, v, at, k)
    ensures exists k: nat :: AnsweredAt(now, evs + [ev], o, start, v, at, k)
  {
    var k: nat :| AnsweredAt(now, evs, o, start, v, at, k);
    assert (evs + [ev])[..k] == evs[..k];
    assert AnsweredAt(now, evs + [ev], o, start, v, at, k);
  }

  lemma SpawnedLater(evs: seq<Event>, ev: Event, r: Id, ttl: int)
    requires Spawned(evs, r, ttl)
    ensures Spawned(evs + [ev], r, ttl)
  {
    var o, i: nat :| SpawnedAt(evs, r, o, i) && Asked(evs, o, ttl);
    AskedLater(evs, ev, o, ttl);
    assert SpawnedAt(evs + [ev], r, o, i);
  }

  lemma RefreshedLater(now: int, evs: seq<Event>, ev: Event, r: Id, start: nat, v: Value, at: int)
    requires exists l: nat, k: nat :: RefreshedAt(now, evs, r, start, v, at, l, k)
    ensures exists l: nat, k: nat :: RefreshedAt(now, evs + [ev], r, start, v, at, l, k)
  {
    var l: nat, k: nat :| RefreshedAt(now, evs, r, start, v, at, l, k);
    assert (evs + [ev])[..k] == evs[..k];
    assert RefreshedAt(now, evs + [ev], r, start, v, at, l, k);
  }

  lemma EarnedLater(now: int, evs: seq<Event>, ev: Event, m: Mark)
    requires Earned(now, evs, m)
    ensures Earned(now, evs + [ev], m)
  {
    if o :| FromFetch(now, evs, m, o) {
      AskedLater(evs, ev, o, m.ttl);
      AnsweredLater(now, evs, ev, o, m.start, m.val, m.at);
      assert FromFetch(now, evs + [ev], m, o);
    } else {
      var r :| FromReval(now, evs, m, r);
      SpawnedLater(evs, ev, r, m.ttl);
      RefreshedLater(now, evs, ev, r, m.start, m.val, m.at);
      assert FromReval(now, evs + [ev], m, r);
    }
  }

  // ----- One event -----

  lemma OtherTraced(now: int, evs: seq<Event>, s: State, ev: Event, o: Id)
    requires o in s.fetches && FetchTraced(now, evs, s, o)
    requires Enabled(s, ev) && o in Next(s, ev).fetches && Next(s, ev).fetches[o] == s.fetches[o]
    ensures FetchTraced(now, evs + [ev], Next(s, ev), o)
  {
    hide Next;
    hide Enabled;
    AskedLater(evs, ev, o, s.fetches[o].ttl);
    match s.fetches[o].pc
    case FFetched(_, _, start, v, at) => AnsweredLater(now, evs, ev, o, start, v, at);
    case _ =>
  }

  /** What a fetch's own events make of its pc, as far as dates go. */
  lemma OwnPc(s: State, ev: Event, o: Id)
    requires Enabled(s, ev) && Mover(ev) == Some(o) && o in Next(s, ev).fetches
    ensures var next := Next(s, ev).fetches[o];
      && (next.pc.FCalling? ==> ev == FetchCall(o) && next.pc.start == s.t)
      && (next.pc.FFetched? ==>
            && o in s.fetches && s.fetches[o].pc.FCalling? && s.fetches[o].pc.start == next.pc.start
            && ev == FetchAnswer(o, Good(next.pc.val)) && next.pc.at == s.now)
      && (if ev.FetchInvoke? then next.ttl == ev.ttl else o in s.fetches && next.ttl == s.fetches[o].ttl)
  {
  }

  lemma OwnTraced(now: int, evs: seq<Event>, s: State, ev: Event, o: Id)
    requires Traced(now, evs, s) && Enabled(s, ev) && Mover(ev) == Some(o) && o in Next(s, ev).fetches
    ensures FetchTraced(now, evs + [ev], Next(s, ev), o)
  {
    hide Next;
    hide Enabled;
    var all := evs + [ev];
    OwnPc(s, ev, o);
    if ev.FetchInvoke? {
      assert all[|evs|] == FetchInvoke(o, ev.key, ev.tag, ev.ttl);
    } else {
      assert FetchTraced(now, evs, s, o);
      AskedLater(evs, ev, o, s.fetches[o].ttl);
    }
    match Next(s, ev).fetches[o].pc
    case FFetched(_, _, start, v, at) =>
      assert all[..|evs|] == evs;
      assert AnsweredAt(now, all, o, start, v, at, |evs|);
    case _ =>
  }

  lemma StepFetchTraced(now: int, evs: seq<Event>, s: State, ev: Event, o: Id)
    requires Traced(now, evs, s) && Enabled(s, ev) && o in Next(s, ev).fetches
    ensures FetchTraced(now, evs + [ev], Next(s, ev), o)
  {
    hide Next;
    hide Enabled;
    if Mover(ev) == Some(o) {
      OwnTraced(now, evs, s, ev, o);
    } else {
      OtherFetches(s, ev, o);
      assert FetchTraced(now, evs, s, o);
      OtherTraced(now, evs, s, ev, o);
    }
  }

  /** What an event makes of a revalidation, as far as dates go. */
  lemma RevalPcs(s: State, ev: Event, r: Id)
    requires Enabled(s, ev) && r in Next(s, ev).revals
    ensures var next := Next(s, ev).revals[r];
      && (r !in s.revals ==>
            ev.FetchLoad? && ev.r == r && ev.o in s.fetches && next.ttl == s.fetches[ev.o].ttl && next.pc.RSpawned?)
      && (r in s.revals ==> next.ttl == s.revals[r].ttl)
      && (next.pc.RCalling? && ev != RevalCall(r) ==> r in s.revals && s.revals[r].pc == next.pc)
      && (next.pc.RCalling? && ev == RevalCall(r) ==> next.pc.start == s.t)
      && (next.pc.RReplied? && !(ev.RevalAnswer? && ev.r == r) ==> r in s.revals && s.revals[r].pc == next.pc)
      && (next.pc.RReplied? && ev.RevalAnswer? && ev.r == r ==>
            && r in s.revals && s.revals[r].pc.RCalling? && s.revals[r].pc.start == next.pc.start
            && next.pc.out == Outcome(ev.out))
  {
  }

  lemma StepRevalTraced(now: int, evs: seq<Event>, s: State, ev: Event, r: Id)
    requires Traced(now, evs, s) && Enabled(s, ev) && r in Next(s, ev).revals
    ensures RevalTraced(evs + [ev], Next(s, ev), r)
  {
    hide Next;
    hide Enabled;
    var all, next := evs + [ev], Next(s, ev).revals[r];
    RevalPcs(s, ev, r);
    if r in s.revals {
      assert RevalTraced(evs, s, r);
      SpawnedLater(evs, ev, r, next.ttl);
    } else {
      assert FetchTraced(now, evs, s, ev.o);
      AskedLater(evs, ev, ev.o, next.ttl);
      assert SpawnedAt(all, r, ev.o, |evs|);
    }
    match next.pc
    case RReplied(_, start, Some(v)) =>
      if ev.RevalAnswer? && ev.r == r {
        assert ev == RevalAnswer(r, Good(v));
        assert RepliedAt(all, r, start, v, |evs|);
      } else {
        var l: nat :| RepliedAt(evs, r, start, v, l);
        assert RepliedAt(all, r, start, v, l);
      }
    case _ =>
  }

  /** A publish and the end of a revalidation write one mark each. */
  lemma NewMark(s: State, ev: Event, e: Id)
    requires Enabled(s, ev) && Present(Next(s, ev), e)
    ensures var marks := Next(s, ev).nodes[e].marks;
      || marks == (if Present(s, e) then s.nodes[e].marks else [])
      || (&& ev.FetchPublish? && Present(s, e) && s.fetches[ev.o].pc.FFetched?
          && var op := s.fetches[ev.o];
             marks == s.nodes[e].marks + [Published(op.pc.val, op.pc.at, op.ttl, op.pc.start)])
      || (&& ev.RevalFinish? && Present(s, e) && s.revals[ev.r].pc.RReplied? && s.revals[ev.r].pc.out.Some?
          && var op := s.revals[ev.r];
             marks == s.nodes[e].marks + [Published(op.pc.out.value, s.now, op.ttl, op.pc.start)])
      || (&& ev.RevalFinish? && Present(s, e)
          && marks == s.nodes[e].marks + [RevalFailed(s.now)])
  {
  }

  lemma MarkEarned(now: int, evs: seq<Event>, s: State, ev: Event, m: Mark)
    requires Traced(now, evs, s) && m.Published?
    requires || (ev.FetchPublish? && ev.o in s.fetches && s.fetches[ev.o].pc.FFetched?
                 && var op := s.fetches[ev.o]; m == Published(op.pc.val, op.pc.at, op.ttl, op.pc.start))
             || (ev.RevalFinish? && ev.r in s.revals && s.revals[ev.r].pc.RReplied? && s.revals[ev.r].pc.out.Some?
                 && var op := s.revals[ev.r]; m == Published(op.pc.out.value, s.now, op.ttl, op.pc.start))
    ensures Earned(now, evs + [ev], m)
  {
    var all := evs + [ev];
    if ev.FetchPublish? {
      assert FetchTraced(now, evs, s, ev.o);
      AskedLater(evs, ev, ev.o, m.ttl);
      AnsweredLater(now, evs, ev, ev.o, m.start, m.val, m.at);
      assert FromFetch(now, all, m, ev.o);
    } else {
      assert RevalTraced(evs, s, ev.r);
      SpawnedLater(evs, ev, ev.r, m.ttl);
      var l: nat :| RepliedAt(evs, ev.r, m.start, m.val, l);
      assert all[..|evs|] == evs;
      assert RefreshedAt(now, all, ev.r, m.start, m.val, m.at, l, |evs|);
      assert FromReval(now, all, m, ev.r);
    }
  }

  lemma StepMarksEarned(now: int, evs: seq<Event>, s: State, ev: Event, e: Id)
    requires Traced(now, evs, s) && Enabled(s, ev) && Present(Next(s, ev), e)
    ensures MarksEarned(now, evs + [ev], Next(s, ev).nodes[e].marks)
  {
    hide Next;
    NewMark(s, ev, e);
    var marks := Next(s, ev).nodes[e].marks;
    forall i | 0 <= i < |marks| && marks[i].Published?
      ensures Earned(now, evs + [ev], marks[i])
    {
      if Present(s, e) && i < |s.nodes[e].marks| {
        EarnedLater(now, evs, ev, marks[i]);
      } else {
        MarkEarned(now, evs, s, ev, marks[i]);
      }
    }
  }

  lemma ClockMoves(s: State, ev: Event)
    requires Enabled(s, ev)
    ensures Next(s, ev).now == s.now + (if ev.Tick? then ev.d else 0) && Next(s, ev).t == s.t + 1
  {
  }

  lemma StepTraced(now: int, evs: seq<Event>, s: State, ev: Event)
    requires Traced(now, evs, s) && Enabled(s, ev)
    ensures Traced(now, evs + [ev], Next(s, ev))
  {
    hide Next;
    hide Enabled;
    ClockMoves(s, ev);
    assert Front(evs + [ev]) == evs;
    forall o | o in Next(s, ev).fetches
      ensures FetchTraced(now, evs + [ev], Next(s, ev), o)
    {
      StepFetchTraced(now, evs, s, ev, o);
    }
    forall r | r in Next(s, ev).revals
      ensures RevalTraced(evs + [ev], Next(s, ev), r)
    {
      StepRevalTraced(now, evs, s, ev, r);
    }
    forall e | Present(Next(s, ev), e)
      ensures MarksEarned(now, evs + [ev], Next(s, ev).nodes[e].marks)
    {
      StepMarksEarned(now, evs, s, ev, e);
    }
  }

  lemma {:induction false} RunTraced(max: nat, now: int, evs: seq<Event>)
    requires Possible(Init(max, now), evs)
    ensures Traced(now, evs, Run(Init(max, now), evs))
    decreases |evs|
  {
    hide Next;
    hide Enabled;
    if evs != [] {
      RunTraced(max, now, Front(evs));
      StepTraced(now, Front(evs), Run(Init(max, now), Front(evs)), evs[|evs| - 1]);
      assert evs == Front(evs) + [evs[|evs| - 1]];
    }
  }

  // ----- Main results -----

  /** Every value an entry was ever given came from a call of fn that answered it: a cold fetch's,
      with that fetch's own ttl and the clock at the answer; or a revalidation's, with the ttl of
      the fetch whose load spawned it and the clock at its end. */
  lemma EveryMarkIsEarned(max: nat, now: int, evs: seq<Event>, e: Id, i: nat)
    requires 1 <= max && Possible(Init(max, now), evs) && e in Run(Init(max, now), evs).nodes
    requires i < |Run(Init(max, now), evs).nodes[e].marks| && Run(Init(max, now), evs).nodes[e].marks[i].Published?
    ensures Earned(now, evs, Run(Init(max, now), evs).nodes[e].marks[i])
  {
    hide Next;
    hide Enabled;
    RunTraced(max, now, evs);
    assert Present(Run(Init(max, now), evs), e);
  }

  /** An entry's value, timestamp and deadline are earned: a loaded entry shows the value of its
      last publish, stamped with the clock of the moment fn answered a cold fetch or of the end
      of the revalidation, and, until a revalidation fails, it is fresh for exactly the ttl of
      the Fetch that fetched it or spawned its revalidation. */
  lemma ValuesAreEarned(max: nat, now: int, evs: seq<Event>, e: Id) returns (m: Mark)
    requires 1 <= max && Possible(Init(max, now), evs)
    requires e in Run(Init(max, now), evs).nodes && Run(Init(max, now), evs).nodes[e].f.loaded
    ensures m in Run(Init(max, now), evs).nodes[e].marks && m.Published? && Earned(now, evs, m)
    ensures var f := Run(Init(max, now), evs).nodes[e].f;
      && f.val == m.val && f.fetchedAt == m.at
      && (!f.failed ==> f.expires == m.at + m.ttl)
  {
    hide Next;
    hide Enabled;
    var s := Run(Init(max, now), evs);
    RunInv(Init(max, now), evs);
    RunTraced(max, now, evs);
    assert Present(s, e);
    var i := LastAt(s.nodes[e].marks);
    m := s.nodes[e].marks[i];
  }

  lemma OrderMoves(s: State, ev: Event)
    requires DirOk(s) && Enabled(s, ev)
    ensures Next(s, ev).max == s.max
    ensures Next(s, ev).order ==
      if ev.FetchEntry? then Touch(s.order, s.fetches[ev.o].key, s.max)
      else if ev.InvalEntry? then Touch(s.order, s.invals[ev.o].key, s.max)
      else s.order
  {
  }

  /** In every run the directory's order is that of the lookups made so far: the bounded FIFO of
      CacheEntry, whoever made them. */
  lemma {:induction false} RunOrderIsFifo(max: nat, now: int, evs: seq<Event>)
    requires 1 <= max && Possible(Init(max, now), evs)
    ensures Run(Init(max, now), evs).max == max
    ensures Run(Init(max, now), evs).order == OrderAfter(Lookups(Init(max, now), evs), max)
    decreases |evs|
  {
    hide Next;
    if evs != [] {
      var s, ev := Run(Init(max, now), Front(evs)), evs[|evs| - 1];
      RunOrderIsFifo(max, now, Front(evs));
      RunInv(Init(max, now), Front(evs));
      OrderMoves(s, ev);
      var before, after := Lookups(Init(max, now), Front(evs)), Lookups(Init(max, now), evs);
      assert after != before ==> after[..|after| - 1] == before;
    }
  }
}
