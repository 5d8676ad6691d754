/** What a Fetch hands its caller, and that it gets there: where each reply comes from, and which
    step a fetch under way can take next. */
module CacheReplies {
  import opened Prelude
  import opened CacheEntry
  import opened CacheProtocol
  import opened CacheClaims
  import opened CacheTraces

  /** Fetch `o` has settled on this reply. */
  predicate Replied(s: State, o: Id, reply: Reply) {
    o in s.fetches && (s.fetches[o].pc.FReplying? || s.fetches[o].pc.FDone?) && s.fetches[o].pc.reply == reply
  }

  /** Fetch `o` reads its entry by this event. */
  predicate Loads(s: State, ev: Event, o: Id) {
    (ev.FetchLoad? || ev.FetchRecheck?) && ev.o == o && FetchAt(s, o)
  }

  /** The reply is what the entry shows at the moment the fetch reads it. */
  predicate Shows(s: State, ev: Event, o: Id, reply: Reply) {
    && Loads(s, ev, o)
    && var f := s.nodes[EntryOf(s.fetches[o].pc).value].f;
       f.loaded
       && match reply
          case Served(v, st, _) => v == f.val && v.tag == s.fetches[o].tag && st == Status(f.failed, f.fetchedAt)
          case BadType => f.val.tag != s.fetches[o].tag
          case _ => false
  }

  /** The reply is what the fetch's own call of fn did, before event `k`. */
  ghost predicate Fetched(now: int, evs: seq<Event>, k: nat, o: Id, reply: Reply)
    requires k < |evs|
  {
    match reply
    case Served(v, st, start) => !st.failed && exists l: nat :: AnsweredAt(now, evs[..k], o, start, v, st.fetchedAt, l)
    case Error(v, _) => evs[k] == FetchAnswer(o, Bad(v))
    case Panic => evs[k] == FetchAnswer(o, Panicked)
    case BadType => false
  }

  ghost predicate Honest(max: nat, now: int, evs: seq<Event>, k: nat, o: Id, reply: Reply) {
    && k < |evs| && Possible(Init(max, now), evs[..k])
    && (Shows(Run(Init(max, now), evs[..k]), evs[k], o, reply) || Fetched(now, evs, k, o, reply))
  }

  /** How a fetch settles on its reply. */
  lemma Settles(s: State, ev: Event, o: Id, reply: Reply)
    requires Enabled(s, ev) && Mover(ev) == Some(o) && Replied(Next(s, ev), o, reply)
    ensures || Replied(s, o, reply)
            || Shows(s, ev, o, reply)
            || (&& ev == FetchPublish(o) && o in s.fetches && s.fetches[o].pc.FFetched?
                && var pc := s.fetches[o].pc; reply == Served(pc.val, Status(false, pc.at), pc.start))
            || (reply.Error? && ev == FetchAnswer(o, Bad(reply.degraded)))
            || (reply.Panic? && ev == FetchAnswer(o, Panicked))
  {
    if ev.FetchLoad? || ev.FetchRecheck? {
      LoadSettles(s, ev, o);
    }
  }

  lemma LoadSettles(s: State, ev: Event, o: Id)
    requires Enabled(s, ev) && Loads(s, ev, o)
    ensures var f, pc := s.nodes[EntryOf(s.fetches[o].pc).value].f, Next(s, ev).fetches[o].pc;
      pc.FReplying? ==>
        && f.loaded
        && match pc.reply
           case Served(v, st, _) => v == f.val && v.tag == s.fetches[o].tag && st == Status(f.failed, f.fetchedAt)
           case BadType => f.val.tag != s.fetches[o].tag
           case _ => false
    ensures !Next(s, ev).fetches[o].pc.FDone?
  {
  }

  lemma SettlesHonestly(max: nat, now: int, evs: seq<Event>, ev: Event, o: Id, reply: Reply)
    requires Possible(Init(max, now), evs) && Enabled(Run(Init(max, now), evs), ev) && Mover(ev) == Some(o)
    requires Replied(Next(Run(Init(max, now), evs), ev), o, reply) && !Replied(Run(Init(max, now), evs), o, reply)
    ensures Honest(max, now, evs + [ev], |evs|, o, reply)
  {
    hide Next;
    hide Enabled;
    hide Shows;
    var s := Run(Init(max, now), evs);
    Settles(s, ev, o, reply);
    assert (evs + [ev])[..|evs|] == evs;
    if !Shows(s, ev, o, reply) && reply.Served? {
      RunTraced(max, now, evs);
      assert FetchTraced(now, evs, s, o);
    }
  }

  /** Every reply is honest: it is the value, the Failed flag and the timestamp that the entry
      showed at the moment the fetch read it, a value of the type asked for; or it says that the
      entry then held a value of another type; or it is what the fetch's own call of fn did:
      the value it answered with the clock at that moment and no Failed, its error and degraded
      value, or its panic. */
  lemma {:induction false} RepliesAreHonest(max: nat, now: int, evs: seq<Event>, o: Id, reply: Reply) returns (k: nat)
    requires Possible(Init(max, now), evs) && Replied(Run(Init(max, now), evs), o, reply)
    ensures Honest(max, now, evs, k, o, reply)
    decreases |evs|
  {
    hide Next;
    hide Enabled;
    hide Shows;
    var front, ev := Front(evs), evs[|evs| - 1];
    var s := Run(Init(max, now), front);
    assert evs == front + [ev];
    if Replied(s, o, reply) {
      k := RepliesAreHonest(max, now, front, o, reply);
      assert front[..k] == evs[..k];
    } else {
      if Mover(ev) != Some(o) {
        OtherFetches(s, ev, o);
      }
      k := |front|;
      SettlesHonestly(max, now, front, ev, o, reply);
    }
  }

  // ----- A fetch gets there -----

  /** How many more steps of its own a fetch can need. */
  function StepsLeft(pc: FetchPc): nat {
    match pc
    case FStart => 9
    case FHave(_) => 8
    case FQueued(_) => 7
    case FGated(_) => 6
    case FCold(_) => 5
    case FCaptured(_, _) => 4
    case FCalling(_, _, _) => 3
    case FFetched(_, _, _, _, _) => 2
    case FReplying(_, _) => 1
    case FDone(_, _) => 0
  }

  /** The next event of fetch `o`, with a name for an entry or a revalidation it may make, and
      what fn answers if it is under way. */
  function NextOf(pc: FetchPc, o: Id, name: Id, out: FnOutcome): Event
    requires !pc.FDone?
  {
    match pc
    case FStart => FetchEntry(o, name)
    case FHave(_) => FetchLoad(o, name)
    case FQueued(_) => FetchGate(o)
    case FGated(_) => FetchRecheck(o)
    case FCold(_) => FetchCapture(o)
    case FCaptured(_, _) => FetchCall(o)
    case FCalling(_, _, _) => FetchAnswer(o, out)
    case FFetched(_, _, _, _, _) => FetchPublish(o)
    case FReplying(_, _) => FetchReturn(o)
  }

  /** Another fetch of the same entry has its gate and can go on. */
  predicate Behind(s: State, o: Id, p: Id) {
    && o in s.fetches && p in s.fetches && p != o && s.fetches[o].pc.FQueued?
    && EntryOf(s.fetches[p].pc) == Some(s.fetches[o].pc.e)
    && (Holds(s.fetches[p].pc) || s.fetches[p].pc.FReplying?)
  }

  /** Nobody waits for ever for a lock: in every reachable state a fetch that has not returned can
      take its next step, once fn has answered if that is what it waits for, unless it queues at
      the gate of its entry behind a fetch that itself can. */
  lemma FetchesGoOn(max: nat, now: int, evs: seq<Event>, o: Id, name: Id, out: FnOutcome)
    requires 1 <= max && Possible(Init(max, now), evs)
    requires var s := Run(Init(max, now), evs);
      o in s.fetches && !s.fetches[o].pc.FDone? && name !in s.nodes && name !in s.revals && Typed(out, s.fetches[o].tag)
    ensures var s := Run(Init(max, now), evs);
      || Enabled(s, NextOf(s.fetches[o].pc, o, name, out))
      || exists p :: Behind(s, o, p)
  {
    hide Next;
    RunInv(Init(max, now), evs);
    var s := Run(Init(max, now), evs);
    assert FetchOk(s, o);
    if s.fetches[o].pc.FQueued? && s.nodes[s.fetches[o].pc.e].gate.Some? {
      var e := s.fetches[o].pc.e;
      assert Present(s, e) && GateOk(s, e);
      assert Behind(s, o, s.nodes[e].gate.value);
    }
  }

  /** And it needs at most nine steps of its own: each brings it nearer to its return, and no one
      else's takes it back. */
  lemma StepsRunOut(s: State, ev: Event, o: Id)
    requires Enabled(s, ev) && o in s.fetches
    ensures o in Next(s, ev).fetches
    ensures if Mover(ev) == Some(o) then StepsLeft(Next(s, ev).fetches[o].pc) < StepsLeft(s.fetches[o].pc) <= 9
            else Next(s, ev).fetches[o] == s.fetches[o]
  {
    if Mover(ev) == Some(o) {
      MovedFetch(s, ev, o);
    }
  }
}
