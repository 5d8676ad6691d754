/** What the cache promises over whole runs of CacheProtocol. */
module CacheClaims {
  import opened Prelude
  import opened CacheEntry
  import opened CacheProtocol

  lemma {:induction false} RunInv(s: State, evs: seq<Event>)
    requires Inv(s) && Possible(s, evs)
    ensures Inv(Run(s, evs)) && Run(s, evs).t == s.t + |evs|
    decreases |evs|
  {
    if evs != [] {
      RunInv(s, Front(evs));
      StepInv(Run(s, Front(evs)), evs[|evs| - 1]);
    }
  }

  lemma RunSnoc(s: State, evs: seq<Event>, ev: Event)
    requires Possible(s, evs) && Enabled(Run(s, evs), ev)
    ensures Possible(s, evs + [ev]) && Run(s, evs + [ev]) == Next(Run(s, evs), ev)
  {
    assert Front(evs + [ev]) == evs;
  }

  // ----- Dates in a state are positions in the run -----

  /** Some call of fn began at event `start` and answered `out`. */
  ghost predicate Came(evs: seq<Event>, out: FnOutcome, start: nat) {
    && start < |evs|
    && match evs[start]
       case FetchCall(o) => FetchAnswer(o, out) in evs[start..]
       case RevalCall(r) => RevalAnswer(r, out) in evs[start..]
       case _ => false
  }

  ghost predicate MarksCame(evs: seq<Event>, marks: seq<Mark>) {
    forall i :: 0 <= i < |marks| && marks[i].Published? ==> Came(evs, Good(marks[i].val), marks[i].start)
  }

  ghost predicate FetchDated(evs: seq<Event>, s: State, o: Id)
    requires o in s.fetches
  {
    var op := s.fetches[o];
    && op.invoked < |evs| && evs[op.invoked] == FetchInvoke(o, op.key, op.tag, op.ttl)
    && match op.pc
       case FCalling(_, _, start) => start < |evs| && evs[start] == FetchCall(o)
       case FFetched(_, _, start, v, _) => Came(evs, Good(v), start)
       case FReplying(_, r) => Handed(r).Some? ==> Came(evs, Handed(r).value, r.start)
       case FDone(_, r) => Handed(r).Some? ==> Came(evs, Handed(r).value, r.start)
       case _ => true
  }

  ghost predicate RevalDated(evs: seq<Event>, s: State, r: Id)
    requires r in s.revals
  {
    match s.revals[r].pc
    case RCalling(_, start) => start < |evs| && evs[start] == RevalCall(r)
    case RReplied(_, start, Some(v)) => Came(evs, Good(v), start)
    case _ => true
  }

  /** An event of the run is recorded in the state. */
  ghost predicate Recorded(evs: seq<Event>, s: State, i: nat)
    requires i < |evs|
  {
    match evs[i]
    case FetchInvoke(o, key, tag, ttl) =>
      o in s.fetches && s.fetches[o].invoked == i && s.fetches[o].key == key
    case InvalInvoke(a, key) => a in s.invals && s.invals[a].invoked == i && s.invals[a].key == key
    case InvalBump(a) => a in s.invals && s.invals[a].pc.IDone? && s.invals[a].pc.returned == i
    case _ => true
  }

  ghost predicate Dated(evs: seq<Event>, s: State) {
    && s.t == |evs|
    && (forall o {:trigger FetchDated(evs, s, o)} :: o in s.fetches ==> FetchDated(evs, s, o))
    && (forall r {:trigger RevalDated(evs, s, r)} :: r in s.revals ==> RevalDated(evs, s, r))
    && (forall e {:trigger Present(s, e)} :: Present(s, e) ==> MarksCame(evs, s.nodes[e].marks))
    && (forall i: nat {:trigger Recorded(evs, s, i)} :: i < |evs| ==> Recorded(evs, s, i))
  }

  lemma CameLater(evs: seq<Event>, ev: Event, out: FnOutcome, start: nat)
    ensures Came(evs, out, start) ==> Came(evs + [ev], out, start)
  {
    if Came(evs, out, start) {
      assert (evs + [ev])[start..] == evs[start..] + [ev];
    }
  }

  lemma HandedLater(evs: seq<Event>, ev: Event, r: Reply)
    ensures Handed(r).Some? && Came(evs, Handed(r).value, r.start) ==> Came(evs + [ev], Handed(r).value, r.start)
  {
    if Handed(r).Some? {
      CameLater(evs, ev, Handed(r).value, r.start);
    }
  }

  /** The one fetch an event may move. */
  function Mover(ev: Event): Option<Id> {
    match ev
    case FetchInvoke(o, _, _, _) => Some(o)
    case FetchEntry(o, _) => Some(o)
    case FetchLoad(o, _) => Some(o)
    case FetchGate(o) => Some(o)
    case FetchRecheck(o) => Some(o)
    case FetchCapture(o) => Some(o)
    case FetchCall(o) => Some(o)
    case FetchAnswer(o, _) => Some(o)
    case FetchPublish(o) => Some(o)
    case FetchReturn(o) => Some(o)
    case _ => None
  }

  lemma OtherFetches(s: State, ev: Event, o: Id)
    requires Enabled(s, ev) && o in Next(s, ev).fetches && Mover(ev) != Some(o)
    ensures o in s.fetches && Next(s, ev).fetches[o] == s.fetches[o]
  {
  }

  lemma MovedFetch(s: State, ev: Event, o: Id)
    requires Enabled(s, ev) && Mover(ev) == Some(o)
    ensures o in Next(s, ev).fetches
    ensures var op := Next(s, ev).fetches[o];
      if ev.FetchInvoke? then op == FetchOp(ev.key, ev.tag, ev.ttl, s.t, FStart)
      else o in s.fetches && op == s.fetches[o].(pc := op.pc)
  {
  }

  lemma LastCame(evs: seq<Event>, n: Node, t: nat)
    requires NodeOk(n, t) && MarksCame(evs, n.marks) && n.f.loaded
    ensures Came(evs, Good(n.f.val), StartOf(n))
  {
    LastIsMark(n.marks);
  }

  lemma {:induction false} LastIsMark(marks: seq<Mark>)
    ensures LastPublish(marks).Some? ==> LastPublish(marks).value in marks && LastPublish(marks).value.Published?
  {
    if marks != [] {
      LastIsMark(marks[..|marks| - 1]);
    }
  }

  /** An answered call came from fn. */
  lemma AnswerCame(evs: seq<Event>, ev: Event, start: nat, out: FnOutcome)
    requires start < |evs|
    requires (exists o :: evs[start] == FetchCall(o) && ev == FetchAnswer(o, out))
          || (exists r :: evs[start] == RevalCall(r) && ev == RevalAnswer(r, out))
    ensures Came(evs + [ev], out, start)
  {
    assert (evs + [ev])[start..] == evs[start..] + [ev];
  }

  lemma IdleFetchDated(evs: seq<Event>, s: State, ev: Event, o: Id)
    requires Dated(evs, s) && Enabled(s, ev) && o in Next(s, ev).fetches && Mover(ev) != Some(o)
    ensures FetchDated(evs + [ev], Next(s, ev), o)
  {
    OtherFetches(s, ev, o);
    assert FetchDated(evs, s, o);
    match s.fetches[o].pc
    case FFetched(_, _, start, v, _) => CameLater(evs, ev, Good(v), start);
    case FReplying(_, r) => HandedLater(evs, ev, r);
    case FDone(_, r) => HandedLater(evs, ev, r);
    case _ =>
  }

  /** What a load makes of the fetch that does it. */
  lemma LoadMoves(s: State, ev: Event, o: Id)
    requires Enabled(s, ev) && (ev == FetchRecheck(o) || (ev.FetchLoad? && ev.o == o))
    ensures o in Next(s, ev).fetches
    ensures var op, e := s.fetches[o], s.fetches[o].pc.e;
      Next(s, ev).fetches[o] == op.(pc := Loaded(e, s.nodes[e], if ev.FetchLoad? then FQueued(e) else FCold(e),
                                                 Load(s.nodes[e].f, op.tag, s.now).1))
  {
  }

  lemma LoadDated(evs: seq<Event>, s: State, ev: Event, o: Id)
    requires Inv(s) && Dated(evs, s) && Enabled(s, ev)
    requires ev == FetchRecheck(o) || (ev.FetchLoad? && ev.o == o)
    ensures o in Next(s, ev).fetches && FetchDated(evs + [ev], Next(s, ev), o)
  {
    var e := s.fetches[o].pc.e;
    LoadMoves(s, ev, o);
    assert FetchDated(evs, s, o) && Present(s, e);
    if s.nodes[e].f.loaded {
      LastCame(evs, s.nodes[e], s.t);
      CameLater(evs, ev, Good(s.nodes[e].f.val), StartOf(s.nodes[e]));
    }
  }

  lemma OwnDated(evs: seq<Event>, s: State, ev: Event, o: Id)
    requires Dated(evs, s) && Enabled(s, ev) && Mover(ev) == Some(o) && !ev.FetchRecheck? && !ev.FetchLoad?
    ensures o in Next(s, ev).fetches && FetchDated(evs + [ev], Next(s, ev), o)
  {
    MovedFetch(s, ev, o);
    if o in s.fetches {
      assert FetchDated(evs, s, o);
    }
    match Next(s, ev).fetches[o].pc
    case FFetched(_, _, start, v, _) => AnswerCame(evs, ev, start, Good(v));
    case FReplying(_, Served(v, _, start)) => CameLater(evs, ev, Good(v), start);
    case FReplying(_, Error(v, start)) => AnswerCame(evs, ev, start, Bad(v));
    case FDone(_, r) => HandedLater(evs, ev, r);
    case _ =>
  }

  lemma FetchDatedStep(evs: seq<Event>, s: State, ev: Event, o: Id)
    requires Inv(s) && Dated(evs, s) && Enabled(s, ev) && o in Next(s, ev).fetches
    ensures FetchDated(evs + [ev], Next(s, ev), o)
  {
    if Mover(ev) != Some(o) {
      IdleFetchDated(evs, s, ev, o);
    } else if ev.FetchRecheck? || ev.FetchLoad? {
      LoadDated(evs, s, ev, o);
    } else {
      OwnDated(evs, s, ev, o);
    }
  }

  lemma RevalDatedStep(evs: seq<Event>, s: State, ev: Event, r: Id)
    requires Dated(evs, s) && Enabled(s, ev) && r in Next(s, ev).revals
    ensures RevalDated(evs + [ev], Next(s, ev), r)
  {
    var all := evs + [ev];
    assert all[..|evs|] == evs && all[|evs|] == ev;
    if r in s.revals {
      assert RevalDated(evs, s, r);
    }
    match Next(s, ev).revals[r].pc
    case RReplied(_, start, Some(v)) =>
      CameLater(evs, ev, Good(v), start);
      if ev.RevalAnswer? && ev.r == r {
        assert ev == RevalAnswer(r, Good(v));
        AnswerCame(evs, ev, start, Good(v));
      }
    case _ =>
  }

  /** Only a publish and the end of a revalidation write marks, one at a time. */
  lemma SameMarks(s: State, ev: Event, e: Id)
    requires Enabled(s, ev) && Present(Next(s, ev), e) && !ev.FetchPublish? && !ev.RevalFinish?
    ensures Next(s, ev).nodes[e].marks == if Present(s, e) then s.nodes[e].marks else []
  {
  }

  lemma MarksDatedStep(evs: seq<Event>, s: State, ev: Event, e: Id)
    requires Dated(evs, s) && Enabled(s, ev) && Present(Next(s, ev), e)
    ensures MarksCame(evs + [ev], Next(s, ev).nodes[e].marks)
  {
    var marks := Next(s, ev).nodes[e].marks;
    if ev.FetchPublish? {
      assert Present(s, e) && FetchDated(evs, s, ev.o);
    } else if ev.RevalFinish? {
      assert Present(s, e) && RevalDated(evs, s, ev.r);
    } else {
      SameMarks(s, ev, e);
      assert Present(s, e) || marks == [];
    }
    forall i | 0 <= i < |marks| && marks[i].Published?
      ensures Came(evs + [ev], Good(marks[i].val), marks[i].start)
    {
      CameLater(evs, ev, Good(marks[i].val), marks[i].start);
    }
  }

  lemma RecordedStep(evs: seq<Event>, s: State, ev: Event, i: nat)
    requires Dated(evs, s) && Enabled(s, ev) && i <= |evs|
    ensures Recorded(evs + [ev], Next(s, ev), i)
  {
    if i < |evs| {
      assert Recorded(evs, s, i);
    }
  }

  lemma {:induction false} RunDated(max: nat, now: int, evs: seq<Event>)
    requires 1 <= max && Possible(Init(max, now), evs)
    ensures Dated(evs, Run(Init(max, now), evs))
    decreases |evs|
  {
    if evs != [] {
      var s, ev := Run(Init(max, now), Front(evs)), evs[|evs| - 1];
      RunDated(max, now, Front(evs));
      RunInv(Init(max, now), Front(evs));
      assert evs == Front(evs) + [ev];
      DatedStep(Front(evs), s, ev);
    }
  }

  lemma DatedStep(evs: seq<Event>, s: State, ev: Event)
    requires Inv(s) && Dated(evs, s) && Enabled(s, ev)
    ensures Dated(evs + [ev], Next(s, ev))
  {
    forall o | o in Next(s, ev).fetches
      ensures FetchDated(evs + [ev], Next(s, ev), o)
    {
      FetchDatedStep(evs, s, ev, o);
    }
    forall r | r in Next(s, ev).revals
      ensures RevalDated(evs + [ev], Next(s, ev), r)
    {
      RevalDatedStep(evs, s, ev, r);
    }
    forall e | Present(Next(s, ev), e)
      ensures MarksCame(evs + [ev], Next(s, ev).nodes[e].marks)
    {
      MarksDatedStep(evs, s, ev, e);
    }
    forall i: nat | i < |evs + [ev]|
      ensures Recorded(evs + [ev], Next(s, ev), i)
    {
      RecordedStep(evs, s, ev, i);
    }
  }

  // ----- Invalidation is never undone -----

  /** If Invalidate(key) was invoked at event i and did its work at event j, then whatever a
      Fetch of that key invoked later hands its caller, a degraded value included, was
      answered by a call of fn that began after event i: in every run, through every eviction
      and every race. */
  lemma InvalidationNeverUndone(max: nat, now: int, evs: seq<Event>, i: nat, j: nat, k: nat, a: Id, b: Id,
                                key: string, tag: int, ttl: int)
    requires 1 <= max && Possible(Init(max, now), evs)
    requires i < |evs| && evs[i] == InvalInvoke(a, key)
    requires j < |evs| && evs[j] == InvalBump(a)
    requires j < k < |evs| && evs[k] == FetchInvoke(b, key, tag, ttl)
    ensures var s := Run(Init(max, now), evs);
      && b in s.fetches
      && (s.fetches[b].pc.FDone? && Handed(s.fetches[b].pc.reply).Some? ==>
            var r := s.fetches[b].pc.reply;
            i < r.start && Came(evs, Handed(r).value, r.start) && Typed(Handed(r).value, tag))
  {
    hide Next;
    hide Enabled;
    var s := Run(Init(max, now), evs);
    RunInv(Init(max, now), evs);
    RunDated(max, now, evs);
    assert Recorded(evs, s, i) && Recorded(evs, s, j) && Recorded(evs, s, k);
    assert FetchDated(evs, s, b) && FetchOk(s, b);
  }

  // ----- Single flight -----

  /** The event invalidates entry `e`. */
  predicate Bumps(s: State, ev: Event, e: Id) {
    ev.InvalBump? && ev.o in s.invals && s.invals[ev.o].pc == IHave(e)
  }

  /** Fetch `o` is between taking the gate of `e` and publishing. */
  predicate Fetching(s: State, o: Id, e: Id) {
    o in s.fetches && Holds(s.fetches[o].pc) && s.fetches[o].pc.e == e
  }

  /** Revalidation `r` of `e` is claimed or running. */
  predicate Refreshing(s: State, r: Id, e: Id) {
    r in s.revals && Live(s.revals[r]) && s.revals[r].e == e
  }

  /** In every reachable state an entry has at most one cold fetch past its gate and at most
      one revalidation claimed or running, and such a revalidation holds the claim. */
  lemma SingleFlight(max: nat, now: int, evs: seq<Event>, e: Id)
    requires 1 <= max && Possible(Init(max, now), evs)
    ensures var s := Run(Init(max, now), evs);
      && (forall o, p :: Fetching(s, o, e) && Fetching(s, p, e) ==> o == p)
      && (forall q, r :: Refreshing(s, q, e) && Refreshing(s, r, e) ==> q == r)
      && (forall r :: Refreshing(s, r, e) ==> e in s.nodes && s.nodes[e].f.refreshing)
  {
    var s := Run(Init(max, now), evs);
    RunInv(Init(max, now), evs);
    forall o, p | Fetching(s, o, e) && Fetching(s, p, e)
      ensures o == p
    {
      assert FetchOk(s, o) && FetchOk(s, p);
    }
    forall q, r | Refreshing(s, q, e) && Refreshing(s, r, e)
      ensures q == r && e in s.nodes && s.nodes[e].f.refreshing
    {
      assert Apart(s, q, r) && RevalOk(s, r);
    }
  }

  /** A taken gate always belongs to a fetch of that entry that is still under way, so no
      outcome of fn, a panic included, leaves a key locked. */
  lemma GateHasHolder(max: nat, now: int, evs: seq<Event>, e: Id, o: Id)
    requires 1 <= max && Possible(Init(max, now), evs)
    requires e in Run(Init(max, now), evs).nodes && Run(Init(max, now), evs).nodes[e].gate == Some(o)
    ensures o in Run(Init(max, now), evs).fetches
    ensures var pc := Run(Init(max, now), evs).fetches[o].pc;
            EntryOf(pc) == Some(e) && (Holds(pc) || pc.FReplying?)
  {
    var s := Run(Init(max, now), evs);
    RunInv(Init(max, now), evs);
    assert Present(s, e);
    assert GateOk(s, e);
  }

  // ----- What Status reports -----

  /** What an entry shows is what happened to it: a loaded value and its FetchedAt are from
      the same publish, the last one, which fn really answered; and Failed is up exactly when
      a revalidation failed after it. */
  lemma StatusIsHonest(max: nat, now: int, evs: seq<Event>, e: Id)
    requires 1 <= max && Possible(Init(max, now), evs)
    requires e in Run(Init(max, now), evs).nodes && Run(Init(max, now), evs).nodes[e].f.loaded
    ensures var n := Run(Init(max, now), evs).nodes[e];
      exists i :: 0 <= i < |n.marks| && n.marks[i].Published?
        && n.marks[i].val == n.f.val && n.marks[i].at == n.f.fetchedAt
        && Came(evs, Good(n.f.val), n.marks[i].start)
        && (forall j :: i < j < |n.marks| ==> n.marks[j].RevalFailed?)
        && (n.f.failed <==> i < |n.marks| - 1)
  {
    hide Next;
    hide Enabled;
    var s := Run(Init(max, now), evs);
    RunInv(Init(max, now), evs);
    RunDated(max, now, evs);
    assert Present(s, e);
    var i := LastAt(s.nodes[e].marks);
  }

  lemma {:induction false} LastAt(marks: seq<Mark>) returns (i: nat)
    requires LastPublish(marks).Some?
    ensures i < |marks| && LastPublish(marks) == Some(marks[i]) && marks[i].Published?
    ensures forall j :: i < j < |marks| ==> marks[j].RevalFailed?
  {
    if marks[|marks| - 1].Published? {
      i := |marks| - 1;
    } else {
      i := LastAt(marks[..|marks| - 1]);
    }
  }
}
