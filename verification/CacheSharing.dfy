/** Who calls fn: the callers that queue behind a cold fetch share its answer, and an eviction
    is the one way in which a key can have two fetches at once. */
module CacheSharing {
  import opened Prelude
  import opened CacheEntry
  import opened CacheProtocol
  import opened CacheClaims

  /** Event `b` of the run invalidated entry `e`. */
  predicate BumpedAt(evs: seq<Event>, s: State, e: Id, b: nat) {
    b < |evs| && evs[b].InvalBump? && evs[b].o in s.invals && s.invals[evs[b].o].pc == IDone(e, b)
  }

  ghost predicate BumpedIn(evs: seq<Event>, s: State, e: Id, from: nat, to: nat) {
    exists b :: from < b < to && BumpedAt(evs, s, e, b)
  }

  predicate CapturedAt(evs: seq<Event>, o: Id, c: nat) {
    c < |evs| && evs[c] == FetchCapture(o)
  }

  predicate RecheckedAt(evs: seq<Event>, p: Id, r: nat) {
    r < |evs| && evs[r] == FetchRecheck(p)
  }

  /** Fetch `o` captured its generation at event `c`: that generation is still current and,
      once the fetch has served a value, loaded; or the entry was invalidated since. */
  ghost predicate CaptureOk(evs: seq<Event>, s: State, o: Id, c: nat) {
    CapturedAt(evs, o, c) ==>
      && FetchAt(s, o)
      && var e := EntryOf(s.fetches[o].pc).value;
         match s.fetches[o].pc
         case FCaptured(_, gen) => gen == s.nodes[e].f.gen || BumpedIn(evs, s, e, c, |evs|)
         case FCalling(_, gen, _) => gen == s.nodes[e].f.gen || BumpedIn(evs, s, e, c, |evs|)
         case FFetched(_, gen, _, _, _) => gen == s.nodes[e].f.gen || BumpedIn(evs, s, e, c, |evs|)
         case FReplying(_, r) => r.Served? ==> s.nodes[e].f.loaded || BumpedIn(evs, s, e, c, |evs|)
         case FDone(_, r) => r.Served? ==> s.nodes[e].f.loaded || BumpedIn(evs, s, e, c, |evs|)
         case _ => false
  }

  /** The fetch is past a re-check that missed, and has not published. */
  predicate Cold(pc: FetchPc) {
    Holds(pc) && !pc.FGated?
  }

  predicate Over(pc: FetchPc) {
    pc.FReplying? || pc.FDone?
  }

  /** Fetch `o` of the same entry, which captured at `c`, was over when `p` re-checked at `r`,
      and had served nothing, or what it served had been invalidated by then. */
  ghost predicate Past(evs: seq<Event>, s: State, o: Id, c: nat, p: Id, r: nat) {
    && o != p && CapturedAt(evs, o, c) && o in s.fetches && p in s.fetches
    && EntryOf(s.fetches[o].pc) == EntryOf(s.fetches[p].pc) && EntryOf(s.fetches[p].pc).Some? ==>
      && c < r && Over(s.fetches[o].pc)
      && (s.fetches[o].pc.reply.Served? ==> BumpedIn(evs, s, EntryOf(s.fetches[p].pc).value, c, r))
  }

  ghost predicate MissOk(evs: seq<Event>, s: State, p: Id, r: nat) {
    RecheckedAt(evs, p, r) && forall o, c {:trigger Past(evs, s, o, c, p, r)} :: Past(evs, s, o, c, p, r)
  }

  ghost predicate ColdOk(evs: seq<Event>, s: State, p: Id) {
    p in s.fetches && Cold(s.fetches[p].pc) ==> exists r :: MissOk(evs, s, p, r)
  }

  /** A call of fn was preceded by its fetch's capture. */
  ghost predicate CallOkAt(evs: seq<Event>, o: Id, j: nat) {
    j < |evs| && evs[j] == FetchCall(o) ==> exists c: nat :: c < j && CapturedAt(evs, o, c)
  }

  ghost predicate HasCaptured(evs: seq<Event>, s: State, o: Id) {
    o in s.fetches && s.fetches[o].pc.FCaptured? ==> exists c :: CapturedAt(evs, o, c)
  }

  ghost predicate Sharing(evs: seq<Event>, s: State) {
    && (forall o, c {:trigger CaptureOk(evs, s, o, c)} :: CaptureOk(evs, s, o, c))
    && (forall p {:trigger ColdOk(evs, s, p)} :: ColdOk(evs, s, p))
    && (forall o, j {:trigger CallOkAt(evs, o, j)} :: CallOkAt(evs, o, j))
    && (forall o {:trigger HasCaptured(evs, s, o)} :: HasCaptured(evs, s, o))
  }

  // ----- What one event does -----

  lemma DoneStays(s: State, ev: Event, a: Id)
    requires Enabled(s, ev) && a in s.invals && s.invals[a].pc.IDone?
    ensures a in Next(s, ev).invals && Next(s, ev).invals[a] == s.invals[a]
  {
  }

  lemma BumpedLater(evs: seq<Event>, s: State, ev: Event, e: Id, from: nat, to: nat, later: nat)
    requires Enabled(s, ev) && to <= later && BumpedIn(evs, s, e, from, to)
    ensures BumpedIn(evs + [ev], Next(s, ev), e, from, later)
  {
    var b :| from < b < to && BumpedAt(evs, s, e, b);
    assert (evs + [ev])[b] == evs[b];
    DoneStays(s, ev, evs[b].o);
    assert BumpedAt(evs + [ev], Next(s, ev), e, b);
  }

  /** Only an Invalidate of the entry changes its generation or unloads it. */
  lemma EntryMoves(s: State, ev: Event, e: Id)
    requires Enabled(s, ev) && e in s.nodes && !Bumps(s, ev, e)
    ensures e in Next(s, ev).nodes && Next(s, ev).nodes[e].f.gen == s.nodes[e].f.gen
    ensures s.nodes[e].f.loaded ==> Next(s, ev).nodes[e].f.loaded
  {
  }

  lemma BumpMoves(evs: seq<Event>, s: State, ev: Event, e: Id, from: nat)
    requires Enabled(s, ev) && s.t == |evs| && from < |evs| && Bumps(s, ev, e)
    ensures BumpedIn(evs + [ev], Next(s, ev), e, from, |evs| + 1)
  {
    assert BumpedAt(evs + [ev], Next(s, ev), e, |evs|);
  }

  lemma PresentStays(s: State, ev: Event, e: Id)
    requires Enabled(s, ev) && e in s.nodes
    ensures e in Next(s, ev).nodes
  {
  }

  /** The steps of a fetch from its capture on. */
  lemma OwnMoves(s: State, ev: Event, o: Id)
    requires Enabled(s, ev) && FetchAt(s, o) && Mover(ev) == Some(o)
    ensures o in Next(s, ev).fetches
    ensures var pc, next := s.fetches[o].pc, Next(s, ev).fetches[o].pc;
      match pc
      case FCaptured(e, gen) => next == FCalling(e, gen, s.t)
      case FCalling(e, gen, start) =>
        (next.FFetched? && next.e == e && next.gen == gen) || (next.FReplying? && next.e == e && !next.reply.Served?)
      case FFetched(e, gen, _, _, _) =>
        next.FReplying? && next.e == e
        && (gen == s.nodes[e].f.gen ==> e in Next(s, ev).nodes && Next(s, ev).nodes[e].f.loaded)
      case FReplying(e, r) => next == FDone(e, r)
      case _ => !pc.FDone?
  {
  }

  /** A capture, an invalidation or nothing: what a step leaves of a capture made before it. */
  lemma StepCapture(evs: seq<Event>, s: State, ev: Event, o: Id, c: nat)
    requires Sharing(evs, s) && Enabled(s, ev) && s.t == |evs|
    ensures CaptureOk(evs + [ev], Next(s, ev), o, c)
  {
    var all, s' := evs + [ev], Next(s, ev);
    if c < |evs| && CapturedAt(all, o, c) {
      assert all[c] == evs[c];
      assert CaptureOk(evs, s, o, c);
      OldCapture(evs, s, ev, o, c);
    } else if CapturedAt(all, o, c) {
      assert ev == FetchCapture(o);
      NewCapture(s, o);
    }
  }

  lemma NewCapture(s: State, o: Id)
    requires Enabled(s, FetchCapture(o))
    ensures var s' := Next(s, FetchCapture(o));
      FetchAt(s', o) && s'.fetches[o].pc.FCaptured? && s'.fetches[o].pc.gen == s'.nodes[s'.fetches[o].pc.e].f.gen
  {
  }

  lemma OldCapture(evs: seq<Event>, s: State, ev: Event, o: Id, c: nat)
    requires Enabled(s, ev) && s.t == |evs| && c < |evs| && CapturedAt(evs, o, c) && CaptureOk(evs, s, o, c)
    ensures CaptureOk(evs + [ev], Next(s, ev), o, c)
  {
    hide Next;
    hide Enabled;
    var e := EntryOf(s.fetches[o].pc).value;
    PresentStays(s, ev, e);
    if Bumps(s, ev, e) {
      BumpMoves(evs, s, ev, e, c);
    } else {
      EntryMoves(s, ev, e);
    }
    if BumpedIn(evs, s, e, c, |evs|) {
      BumpedLater(evs, s, ev, e, c, |evs|, |evs| + 1);
    }
    if Mover(ev) == Some(o) {
      OwnMoves(s, ev, o);
    } else {
      FetchStays(s, ev, o);
    }
  }

  lemma FetchStays(s: State, ev: Event, o: Id)
    requires Enabled(s, ev) && o in s.fetches && Mover(ev) != Some(o)
    ensures o in Next(s, ev).fetches && Next(s, ev).fetches[o] == s.fetches[o]
  {
  }

  /** Two fetches of one entry are never both past the gate. */
  lemma OneHolds(s: State, o: Id, p: Id)
    requires Inv(s) && FetchAt(s, o) && FetchAt(s, p) && Holds(s.fetches[o].pc) && Holds(s.fetches[p].pc)
    requires EntryOf(s.fetches[o].pc) == EntryOf(s.fetches[p].pc)
    ensures o == p
  {
    assert FetchOk(s, o) && FetchOk(s, p);
  }

  /** A re-check that misses finds every fetch that captured before it over, and what it
      served invalidated. */
  lemma MissFindsNothing(evs: seq<Event>, s: State, p: Id, o: Id, c: nat)
    requires Inv(s) && Sharing(evs, s) && Enabled(s, FetchRecheck(p)) && s.t == |evs|
    requires p in Next(s, FetchRecheck(p)).fetches && Cold(Next(s, FetchRecheck(p)).fetches[p].pc)
    ensures Past(evs + [FetchRecheck(p)], Next(s, FetchRecheck(p)), o, c, p, |evs|)
  {
    var ev, all := FetchRecheck(p), evs + [FetchRecheck(p)];
    var e := s.fetches[p].pc.e;
    LoadMoves(s, ev, p);
    if o != p && CapturedAt(all, o, c) && o in Next(s, ev).fetches {
      assert all[c] == if c < |evs| then evs[c] else ev;
      OtherFetches(s, ev, o);
      assert CaptureOk(evs, s, o, c);
      if EntryOf(s.fetches[o].pc) == Some(e) {
        if Holds(s.fetches[o].pc) {
          OneHolds(s, o, p);
        }
        if s.fetches[o].pc.reply.Served? {
          BumpedLater(evs, s, ev, e, c, |evs|, |evs|);
        }
      }
    }
  }

  lemma PastStays(evs: seq<Event>, s: State, ev: Event, o: Id, c: nat, p: Id, r: nat)
    requires Inv(s) && Enabled(s, ev) && FetchAt(s, p) && Cold(s.fetches[p].pc) && r < |evs|
    requires p in Next(s, ev).fetches && EntryOf(Next(s, ev).fetches[p].pc) == EntryOf(s.fetches[p].pc)
    requires Past(evs, s, o, c, p, r)
    requires c < |evs| ==> CaptureOk(evs, s, o, c)
    ensures Past(evs + [ev], Next(s, ev), o, c, p, r)
  {
    var all, e := evs + [ev], EntryOf(s.fetches[p].pc).value;
    if o != p && CapturedAt(all, o, c) {
      if c < |evs| {
        assert all[c] == evs[c];
        if Mover(ev) == Some(o) {
          OwnMoves(s, ev, o);
        } else {
          FetchStays(s, ev, o);
        }
        if BumpedIn(evs, s, e, c, r) {
          BumpedLater(evs, s, ev, e, c, r, r);
        }
      } else {
        assert ev == FetchCapture(o);
        NewCapture(s, o);
        if EntryOf(s.fetches[o].pc) == Some(e) {
          OneHolds(s, o, p);
        }
      }
    }
  }

  /** A cold fetch stays cold with its entry, and becomes so only by a re-check. */
  lemma ColdMoves(s: State, ev: Event, p: Id)
    requires Inv(s) && Enabled(s, ev) && p in Next(s, ev).fetches && Cold(Next(s, ev).fetches[p].pc)
    ensures ev == FetchRecheck(p)
         || (FetchAt(s, p) && Cold(s.fetches[p].pc) && EntryOf(Next(s, ev).fetches[p].pc) == EntryOf(s.fetches[p].pc))
  {
    assert p in s.fetches ==> FetchOk(s, p);
  }

  lemma StepCold(evs: seq<Event>, s: State, ev: Event, p: Id)
    requires Inv(s) && Sharing(evs, s) && Enabled(s, ev) && s.t == |evs|
    ensures ColdOk(evs + [ev], Next(s, ev), p)
  {
    var all, s' := evs + [ev], Next(s, ev);
    if p in s'.fetches && Cold(s'.fetches[p].pc) {
      ColdMoves(s, ev, p);
      var r: nat;
      if ev == FetchRecheck(p) {
        r := |evs|;
        forall o, c
          ensures Past(all, s', o, c, p, r)
        {
          MissFindsNothing(evs, s, p, o, c);
        }
      } else {
        assert ColdOk(evs, s, p);
        r :| MissOk(evs, s, p, r);
        assert all[r] == evs[r];
        forall o, c
          ensures Past(all, s', o, c, p, r)
        {
          assert Past(evs, s, o, c, p, r) && CaptureOk(evs, s, o, c);
          PastStays(evs, s, ev, o, c, p, r);
        }
      }
      assert MissOk(all, s', p, r);
    }
  }

  lemma StepCalled(evs: seq<Event>, s: State, ev: Event, o: Id, j: nat)
    requires Sharing(evs, s) && Enabled(s, ev)
    ensures CallOkAt(evs + [ev], o, j)
  {
    var all := evs + [ev];
    if j < |all| && all[j] == FetchCall(o) {
      var c: nat;
      if j < |evs| {
        assert all[j] == evs[j];
        assert CallOkAt(evs, o, j);
        c :| c < j && CapturedAt(evs, o, c);
      } else {
        assert HasCaptured(evs, s, o);
        c :| CapturedAt(evs, o, c);
      }
      assert all[c] == evs[c];
      assert CapturedAt(all, o, c);
    }
  }

  lemma CapturedMoves(s: State, ev: Event, o: Id)
    requires Enabled(s, ev) && o in Next(s, ev).fetches && Next(s, ev).fetches[o].pc.FCaptured?
    ensures ev == FetchCapture(o) || (o in s.fetches && s.fetches[o].pc.FCaptured?)
  {
  }

  lemma StepHasCaptured(evs: seq<Event>, s: State, ev: Event, o: Id)
    requires Sharing(evs, s) && Enabled(s, ev)
    ensures HasCaptured(evs + [ev], Next(s, ev), o)
  {
    if o in Next(s, ev).fetches && Next(s, ev).fetches[o].pc.FCaptured? {
      CapturedMoves(s, ev, o);
      var c: nat;
      if ev == FetchCapture(o) {
        c := |evs|;
      } else {
        assert HasCaptured(evs, s, o);
        c :| CapturedAt(evs, o, c);
      }
      assert CapturedAt(evs + [ev], o, c);
    }
  }

  lemma {:induction false} RunSharing(max: nat, now: int, evs: seq<Event>)
    requires 1 <= max && Possible(Init(max, now), evs)
    ensures Sharing(evs, Run(Init(max, now), evs))
    decreases |evs|
  {
    if evs != [] {
      var before, s, ev := Front(evs), Run(Init(max, now), Front(evs)), evs[|evs| - 1];
      RunSharing(max, now, before);
      RunInv(Init(max, now), before);
      assert evs == before + [ev];
      StepSharing(before, s, ev);
    }
  }

  lemma StepSharing(evs: seq<Event>, s: State, ev: Event)
    requires Inv(s) && Sharing(evs, s) && Enabled(s, ev) && s.t == |evs|
    ensures Sharing(evs + [ev], Next(s, ev))
  {
    forall o, c ensures CaptureOk(evs + [ev], Next(s, ev), o, c) { StepCapture(evs, s, ev, o, c); }
    forall p ensures ColdOk(evs + [ev], Next(s, ev), p) { StepCold(evs, s, ev, p); }
    forall o, j ensures CallOkAt(evs + [ev], o, j) { StepCalled(evs, s, ev, o, j); }
    forall o ensures HasCaptured(evs + [ev], Next(s, ev), o) { StepHasCaptured(evs, s, ev, o); }
  }

  // ----- Main result -----

  /** The callers that queue behind a cold fetch share its answer. In every run, if fetch `o`
      called fn at event `j` and fetch `p` of the same entry calls it later, at the run's last
      event, then `o` was over before `p` re-checked, and it had served no value, or an
      Invalidate of that entry came between the capture of `o` and the re-check of `p`. */
  lemma SecondCallHasAReason(max: nat, now: int, evs: seq<Event>, o: Id, p: Id, j: nat) returns (c: nat, r: nat)
    requires 1 <= max && Possible(Init(max, now), evs) && o != p
    requires j < |evs| && evs[j] == FetchCall(o) && evs[|evs| - 1] == FetchCall(p)
    requires var s := Run(Init(max, now), evs);
      o in s.fetches && p in s.fetches && EntryOf(s.fetches[o].pc) == EntryOf(s.fetches[p].pc)
    ensures c < j && evs[c] == FetchCapture(o) && c < r < |evs| && evs[r] == FetchRecheck(p)
    ensures var s := Run(Init(max, now), evs);
      && FetchAt(s, p) && Over(s.fetches[o].pc)
      && (s.fetches[o].pc.reply.Served? ==> BumpedIn(evs, s, EntryOf(s.fetches[p].pc).value, c, r))
  {
    var s := Run(Init(max, now), evs);
    RunSharing(max, now, evs);
    assert CallOkAt(evs, o, j);
    c :| c < j && CapturedAt(evs, o, c);
    CallLeavesCalling(max, now, evs, p);
    assert ColdOk(evs, s, p);
    r :| MissOk(evs, s, p, r);
    assert Past(evs, s, o, c, p, r);
  }

  lemma CallLeavesCalling(max: nat, now: int, evs: seq<Event>, p: Id)
    requires Possible(Init(max, now), evs) && evs != [] && evs[|evs| - 1] == FetchCall(p)
    ensures var s := Run(Init(max, now), evs); FetchAt(s, p) && Cold(s.fetches[p].pc)
  {
  }

  // ----- Eviction can give a key two fetches -----

  // Single steps, as equations.

  lemma InvokeIs(s: State, o: Id, key: string, tag: int, ttl: int)
    requires o !in s.fetches
    ensures Enabled(s, FetchInvoke(o, key, tag, ttl))
    ensures Next(s, FetchInvoke(o, key, tag, ttl))
         == s.(t := s.t + 1, fetches := s.fetches[o := FetchOp(key, tag, ttl, s.t, FStart)])
  {
  }

  /** A lookup of an absent key in a cache that holds at most one takes that key's place. */
  lemma EntryIs(s: State, o: Id, made: Id)
    requires o in s.fetches && s.fetches[o].pc.FStart? && made !in s.nodes
    requires s.max == 1 && |s.order| <= 1 && s.fetches[o].key !in s.dir
    ensures Enabled(s, FetchEntry(o, made))
    ensures var key := s.fetches[o].key;
      Next(s, FetchEntry(o, made))
      == s.(t := s.t + 1, order := [key], dir := map[key := made],
            nodes := s.nodes[made := Node(BLANK, None, s.t, [])],
            fetches := s.fetches[o := s.fetches[o].(pc := FHave(made))])
  {
    hide Lookup;
    LookupIs(s, s.fetches[o].key, made);
  }

  lemma LookupIs(s: State, key: string, made: Id)
    requires s.max == 1 && |s.order| <= 1 && key !in s.dir
    ensures Lookup(s, key, made)
         == s.(order := [key], dir := map[key := made], nodes := s.nodes[made := Node(BLANK, None, s.t, [])])
  {
    assert Trim(s.order + [key], 1) == [key];
    assert Redirect(s.dir, [key], key, made) == map[key := made];
  }

  lemma LoadIs(s: State, o: Id, e: Id)
    requires FetchAt(s, o) && s.fetches[o].pc == FHave(e) && s.nodes[e].f == BLANK && s.revals == map[]
    ensures Enabled(s, FetchLoad(o, 0))
    ensures Next(s, FetchLoad(o, 0)) == s.(t := s.t + 1, fetches := s.fetches[o := s.fetches[o].(pc := FQueued(e))])
  {
    assert s.nodes[e := s.nodes[e].(f := BLANK)] == s.nodes;
  }

  lemma GateIs(s: State, o: Id, e: Id)
    requires FetchAt(s, o) && s.fetches[o].pc == FQueued(e) && s.nodes[e].gate.None?
    ensures Enabled(s, FetchGate(o))
    ensures Next(s, FetchGate(o))
         == s.(t := s.t + 1, nodes := s.nodes[e := s.nodes[e].(gate := Some(o))],
               fetches := s.fetches[o := s.fetches[o].(pc := FGated(e))])
  {
  }

  lemma RecheckIs(s: State, o: Id, e: Id)
    requires FetchAt(s, o) && s.fetches[o].pc == FGated(e) && s.nodes[e].f == BLANK
    ensures Enabled(s, FetchRecheck(o))
    ensures Next(s, FetchRecheck(o)) == s.(t := s.t + 1, fetches := s.fetches[o := s.fetches[o].(pc := FCold(e))])
  {
    assert s.nodes[e := s.nodes[e].(f := BLANK)] == s.nodes;
  }

  lemma CaptureIs(s: State, o: Id, e: Id)
    requires FetchAt(s, o) && s.fetches[o].pc == FCold(e)
    ensures Enabled(s, FetchCapture(o))
    ensures Next(s, FetchCapture(o))
         == s.(t := s.t + 1, fetches := s.fetches[o := s.fetches[o].(pc := FCaptured(e, s.nodes[e].f.gen))])
  {
  }

  lemma CallIs(s: State, o: Id, e: Id, gen: nat)
    requires FetchAt(s, o) && s.fetches[o].pc == FCaptured(e, gen)
    ensures Enabled(s, FetchCall(o))
    ensures Next(s, FetchCall(o)) == s.(t := s.t + 1, fetches := s.fetches[o := s.fetches[o].(pc := FCalling(e, gen, s.t))])
  {
  }

  predicate Calling(s: State, o: Id, key: string, e: Id) {
    o in s.fetches && s.fetches[o].key == key && s.fetches[o].pc.FCalling? && s.fetches[o].pc.e == e
  }

  /** The state after a new fetch `o` of `key` has made entry `e` and looks it up. */
  predicate Anew(t: State, t': State, o: Id, key: string, e: Id) {
    && t'.max == 1 && t'.order == [key] && t'.dir == map[key := e] && t'.revals == t.revals
    && t'.nodes.Keys == t.nodes.Keys + {e} && t'.nodes[e].f == BLANK && t'.nodes[e].gate.None?
    && t'.fetches.Keys == t.fetches.Keys + {o} && t'.fetches[o].key == key && t'.fetches[o].pc == FHave(e)
    && forall x :: x in t.fetches && x != o ==> t'.fetches[x] == t.fetches[x]
  }

  lemma AskAnew(s: State, before: seq<Event>, o: Id, key: string, tag: int, ttl: int, e: Id) returns (evs: seq<Event>)
    requires Possible(s, before) && o !in Run(s, before).fetches && e !in Run(s, before).nodes
    requires Run(s, before).max == 1 && |Run(s, before).order| <= 1 && key !in Run(s, before).dir
    ensures Possible(s, evs) && Anew(Run(s, before), Run(s, evs), o, key, e)
  {
    hide Next;
    hide Enabled;
    InvokeIs(Run(s, before), o, key, tag, ttl);
    RunSnoc(s, before, FetchInvoke(o, key, tag, ttl));
    evs := before + [FetchInvoke(o, key, tag, ttl)];
    EntryIs(Run(s, evs), o, e);
    RunSnoc(s, evs, FetchEntry(o, e));
    evs := evs + [FetchEntry(o, e)];
  }

  /** The state after fetch `o` has gone on to its call of fn; nobody else has moved. */
  predicate Called(t: State, t': State, o: Id, e: Id) {
    && t'.max == t.max && t'.order == t.order && t'.dir == t.dir && t'.revals == t.revals && t'.nodes.Keys == t.nodes.Keys
    && t'.fetches.Keys == t.fetches.Keys && o in t.fetches && Calling(t', o, t.fetches[o].key, e)
    && forall x :: x in t.fetches && x != o ==> t'.fetches[x] == t.fetches[x]
  }

  lemma CallCold(s: State, before: seq<Event>, o: Id, e: Id) returns (evs: seq<Event>)
    requires Possible(s, before) && FetchAt(Run(s, before), o) && Run(s, before).fetches[o].pc == FHave(e)
    requires Run(s, before).nodes[e].f == BLANK && Run(s, before).nodes[e].gate.None? && Run(s, before).revals == map[]
    ensures Possible(s, evs) && Called(Run(s, before), Run(s, evs), o, e)
  {
    hide Next;
    hide Enabled;
    LoadIs(Run(s, before), o, e);
    RunSnoc(s, before, FetchLoad(o, 0));
    evs := before + [FetchLoad(o, 0)];
    GateIs(Run(s, evs), o, e);
    RunSnoc(s, evs, FetchGate(o));
    evs := evs + [FetchGate(o)];
    RecheckIs(Run(s, evs), o, e);
    RunSnoc(s, evs, FetchRecheck(o));
    evs := evs + [FetchRecheck(o)];
    CaptureIs(Run(s, evs), o, e);
    RunSnoc(s, evs, FetchCapture(o));
    evs := evs + [FetchCapture(o)];
    CallIs(Run(s, evs), o, e, Run(s, evs).nodes[e].f.gen);
    RunSnoc(s, evs, FetchCall(o));
    evs := evs + [FetchCall(o)];
  }

  /** The sharing is per entry. A key whose entry was evicted while a fetch of it was calling fn
      gets a new entry, and a second call at the same time. */
  lemma EvictedKeyCanBeCalledTwice(key: string, other: string, tag: int, ttl: int) returns (evs: seq<Event>)
    requires key != other
    ensures Possible(Init(1, 0), evs)
    ensures Calling(Run(Init(1, 0), evs), 0, key, 0) && Calling(Run(Init(1, 0), evs), 2, key, 2)
  {
    hide Next;
    hide Enabled;
    var s := Init(1, 0);
    evs := AskAnew(s, [], 0, key, tag, ttl, 0);
    evs := CallCold(s, evs, 0, 0);
    evs := AskAnew(s, evs, 1, other, tag, ttl, 1);
    evs := AskAgain(s, evs, key, tag, ttl);
  }

  lemma AskAgain(s: State, before: seq<Event>, key: string, tag: int, ttl: int) returns (evs: seq<Event>)
    requires Possible(s, before) && Calling(Run(s, before), 0, key, 0) && Run(s, before).revals == map[]
    requires 2 !in Run(s, before).fetches && 2 !in Run(s, before).nodes
    requires Run(s, before).max == 1 && |Run(s, before).order| <= 1 && key !in Run(s, before).dir
    ensures Possible(s, evs) && Calling(Run(s, evs), 0, key, 0) && Calling(Run(s, evs), 2, key, 2)
  {
    hide Next;
    hide Enabled;
    evs := AskAnew(s, before, 2, key, tag, ttl, 2);
    evs := CallCold(s, evs, 2, 2);
  }
}
