/** Sessions in use: what one request after another makes of a session, and what requests that
    overlap may do to it. */
module SessionUse {
  import opened Prelude
  import opened Calendar
  import opened Session
  import opened SessionRuns

  lemma RunSnoc(s: State, evs: seq<Event>, ev: Event)
    requires Possible(s, evs) && Enabled(Run(s, evs), ev)
    ensures Possible(s, evs + [ev]) && Run(s, evs + [ev]) == Next(Run(s, evs), ev)
  {
    assert Front(evs + [ev]) == evs;
  }

  lemma {:induction false} RunConcat(s: State, evs: seq<Event>, more: seq<Event>)
    requires Possible(s, evs) && Possible(Run(s, evs), more)
    ensures Possible(s, evs + more) && Run(s, evs + more) == Run(Run(s, evs), more)
    decreases |more|
  {
    hide Stamp;
    hide TimesOf;
    if more == [] {
      assert evs + more == evs;
    } else {
      RunConcat(s, evs, Front(more));
      assert Front(evs + more) == evs + Front(more);
    }
  }

  // ----- A session in regular use is kept -----

  /** The row of a session last visited at `at`. */
  ghost predicate Kept(s: State, id: string, at: int) {
    && s.p.Fits() && id in s.table && Written(s.table[id])
    && Fresh(s.p, TimesOf(s.table[id]), at)
  }

  /** The absolute cap of the session, to the second. */
  function CapOf(s: State, id: string): int
    requires id in s.table
  {
    Trunc(TimesOf(s.table[id]).created + s.p.WithDefaults().maxLifetime)
  }

  /** A request that looks the session up, judges it at `v` and, when due, touches it; or any
      other event. */
  datatype Act = VisitAt(q: Id, v: int) | Other(ev: Event)

  function EventsOf(s: State, id: string, act: Act): seq<Event>
    requires id in s.table
  {
    match act
    case Other(ev) => [ev]
    case VisitAt(q, v) =>
      [Lookup(q, Some(id), s.table[id].tokenHash)] + [Judge(q, v)]
      + if s.p.NeedsTouch(TimesOf(s.table[id]), v) then [TouchRow(q)] else []
  }

  /** A visit comes soon enough after the last one, and before the cap. */
  predicate InTime(s: State, id: string, at: int, q: Id, v: int)
    requires id in s.table
  {
    && q !in s.reqs && Reading(s, v) && at <= v <= at + SafeGap(s.p) && v < CapOf(s, id)
    && InRange(s.p.ExpiryFor(TimesOf(s.table[id]).created, v))
  }

  /** The event does not end the session nor touch it; a sweep runs while the next visit could
      still come. */
  predicate Quiet(s: State, id: string, at: int, ev: Event)
    requires id in s.table
  {
    && Enabled(s, ev)
    && match ev
       case SweepAt(t) => t <= at + SafeGap(s.p) && t < CapOf(s, id)
       case Revoke(i) => i != id
       case Logout(h) => h != s.table[id].tokenHash
       case TouchRow(q) => s.reqs[q].id != id
       case _ => true
  }

  predicate Suits(s: State, id: string, at: int, act: Act)
    requires id in s.table
  {
    match act
    case VisitAt(q, v) => InTime(s, id, at, q, v)
    case Other(ev) => Quiet(s, id, at, ev)
  }

  function LastVisit(at: int, act: Act): int {
    if act.VisitAt? then act.v else at
  }

  lemma QuietRow(s: State, id: string, at: int, ev: Event)
    requires Kept(s, id, at) && Quiet(s, id, at, ev)
    requires ev.SweepAt? ==> !Swept(s.table[id], ev.at)
    ensures id in Next(s, ev).table && Next(s, ev).table[id] == s.table[id] && Next(s, ev).p == s.p
  {
    hide Stamp;
    hide TimesOf;
  }

  /** Nothing else that goes on meanwhile takes the session away, a sweep included. */
  lemma QuietKeeps(s: State, id: string, at: int, ev: Event)
    requires Kept(s, id, at) && Quiet(s, id, at, ev)
    ensures Kept(Next(s, ev), id, at) && CapOf(Next(s, ev), id) == CapOf(s, id)
  {
    hide Stamp;
    hide TimesOf;
    if ev.SweepAt? {
      SweptMeansExpired(s.table[id], ev.at);
    }
    QuietRow(s, id, at, ev);
  }

  /** The row after a visit. */
  lemma VisitedRow(p: Policy, r: Row, at: int, v: int)
    requires p.Fits() && Written(r) && Fresh(p, TimesOf(r), at) && at <= v <= at + SafeGap(p)
    requires v < Trunc(TimesOf(r).created + p.WithDefaults().maxLifetime)
    requires InRange(v) && InRange(p.ExpiryFor(TimesOf(r).created, v))
    ensures p.Live(TimesOf(r), v) && Fresh(p, Visit(p, TimesOf(r), v), v)
    ensures var r' := r.(lastSeen := Stamp(v), expires := Stamp(p.ExpiryFor(TimesOf(r).created, v)));
      p.NeedsTouch(TimesOf(r), v) ==> Written(r') && TimesOf(r') == Visit(p, TimesOf(r), v)
  {
    hide Stamp;
    hide Read;
    VisitKeepsFresh(p, TimesOf(r), at, v);
    ReadStamp(v);
    ReadStamp(p.ExpiryFor(TimesOf(r).created, v));
  }

  lemma VisitRuns(s: State, id: string, q: Id, v: int)
    requires id in s.table && q !in s.reqs && Reading(s, v) && s.p.Live(TimesOf(s.table[id]), v)
    requires InRange(s.p.ExpiryFor(TimesOf(s.table[id]).created, v))
    ensures var r := s.table[id];
      var evs := EventsOf(s, id, VisitAt(q, v));
      && Possible(s, evs) && Run(s, evs).p == s.p && Run(s, evs).now == s.now
      && Run(s, evs).reqs == s.reqs[q := Admitted(id, v)]
      && Run(s, evs).table == if s.p.NeedsTouch(TimesOf(r), v)
           then s.table[id := r.(lastSeen := Stamp(v), expires := Stamp(s.p.ExpiryFor(TimesOf(r).created, v)))]
           else s.table
  {
    hide Stamp;
    hide TimesOf;
    var r := s.table[id];
    RunSnoc(s, [], Lookup(q, Some(id), r.tokenHash));
    var one := [Lookup(q, Some(id), r.tokenHash)];
    assert [] + one == one;
    RunSnoc(s, one, Judge(q, v));
    if s.p.NeedsTouch(TimesOf(r), v) {
      RunSnoc(s, one + [Judge(q, v)], TouchRow(q));
    } else {
      assert one + [Judge(q, v)] + [] == one + [Judge(q, v)];
    }
  }

  lemma VisitKeeps(s: State, id: string, at: int, q: Id, v: int)
    requires Kept(s, id, at) && InTime(s, id, at, q, v)
    ensures var evs := EventsOf(s, id, VisitAt(q, v));
      && Possible(s, evs) && Kept(Run(s, evs), id, v) && CapOf(Run(s, evs), id) == CapOf(s, id)
      && Run(s, evs).reqs == s.reqs[q := Admitted(id, v)]
  {
    hide Stamp;
    hide TimesOf;
    VisitedRow(s.p, s.table[id], at, v);
    VisitRuns(s, id, q, v);
  }

  lemma ActKeeps(s: State, id: string, at: int, act: Act)
    requires Kept(s, id, at) && Suits(s, id, at, act)
    ensures var evs := EventsOf(s, id, act);
      && Possible(s, evs) && Kept(Run(s, evs), id, LastVisit(at, act))
      && (act.VisitAt? ==> act.q in Run(s, evs).reqs && Run(s, evs).reqs[act.q] == Admitted(id, act.v))
  {
    match act
    case VisitAt(q, v) => VisitKeeps(s, id, at, q, v);
    case Other(ev) =>
      QuietKeeps(s, id, at, ev);
      RunSnoc(s, [], ev);
      assert [] + [ev] == [ev];
  }

  /** Every act suits the state that the ones before it left. */
  ghost predicate Tended(s: State, id: string, at: int, acts: seq<Act>)
    decreases |acts|
  {
    acts != [] ==>
      && id in s.table && Suits(s, id, at, acts[0]) && Possible(s, EventsOf(s, id, acts[0]))
      && Tended(Run(s, EventsOf(s, id, acts[0])), id, LastVisit(at, acts[0]), acts[1..])
  }

  ghost function AllEvents(s: State, id: string, at: int, acts: seq<Act>): seq<Event>
    requires Tended(s, id, at, acts)
    decreases |acts|
  {
    if acts == [] then []
    else
      var evs := EventsOf(s, id, acts[0]);
      evs + AllEvents(Run(s, evs), id, LastVisit(at, acts[0]), acts[1..])
  }

  lemma AdmittedStep(s: State, ev: Event, q: Id)
    requires Enabled(s, ev) && q in s.reqs && s.reqs[q].Admitted?
    ensures q in Next(s, ev).reqs && Next(s, ev).reqs[q] == s.reqs[q]
  {
  }

  lemma {:induction false} AdmittedStays(s: State, evs: seq<Event>, q: Id)
    requires Possible(s, evs) && q in s.reqs && s.reqs[q].Admitted?
    ensures q in Run(s, evs).reqs && Run(s, evs).reqs[q] == s.reqs[q]
    decreases |evs|
  {
    if evs != [] {
      AdmittedStays(s, Front(evs), q);
      AdmittedStep(Run(s, Front(evs)), evs[|evs| - 1], q);
    }
  }

  /** A session visited one request after another, at gaps of at most the safe one and before
      its cap, is never lost, whatever other sessions, requests and sweeps do in between: it is
      still in the table at the end, and every visit was admitted. */
  lemma {:induction false} TendedSessionIsKept(s: State, id: string, at: int, acts: seq<Act>)
    requires Kept(s, id, at) && Tended(s, id, at, acts)
    ensures var evs := AllEvents(s, id, at, acts);
      && Possible(s, evs) && id in Run(s, evs).table
      && forall k {:trigger acts[k]} :: 0 <= k < |acts| && acts[k].VisitAt? ==>
           acts[k].q in Run(s, evs).reqs && Run(s, evs).reqs[acts[k].q] == Admitted(id, acts[k].v)
    decreases |acts|
  {
    hide Stamp;
    hide TimesOf;
    if acts != [] {
      var evs := EventsOf(s, id, acts[0]);
      var t := Run(s, evs);
      var rest := AllEvents(t, id, LastVisit(at, acts[0]), acts[1..]);
      ActKeeps(s, id, at, acts[0]);
      TendedSessionIsKept(t, id, LastVisit(at, acts[0]), acts[1..]);
      RunConcat(s, evs, rest);
      if acts[0].VisitAt? {
        AdmittedStays(t, rest, acts[0].q);
      }
      forall k | 0 <= k < |acts| && acts[k].VisitAt?
        ensures acts[k].q in Run(s, evs + rest).reqs && Run(s, evs + rest).reqs[acts[k].q] == Admitted(id, acts[k].v)
      {
        assert k > 0 ==> acts[1..][k - 1] == acts[k];
      }
    }
  }

  /** Such a session begins with its sign-in. */
  lemma IssuedIsKept(s: State, id: string, hash: string, at: int)
    requires s.p.Fits() && Enabled(s, Issue(id, hash, at)) && !Taken(s.table, id, hash)
    ensures Kept(Next(s, Issue(id, hash, at)), id, at)
  {
    IssuedIsFresh(s.p, at);
    IssuedRow(s.p, hash, at);
  }

  // ----- How far apart writes are when requests overlap -----

  /** The instant that the session's last write, or its sign-in, recorded as last seen. */
  function LastWrite(s: State, evs: seq<Event>, id: string): int
    requires Possible(s, evs)
    decreases |evs|
  {
    if evs == [] then 0
    else
      var t := Run(s, Front(evs));
      match evs[|evs| - 1]
      case Issue(i, hash, at) => if i == id && !Taken(t.table, id, hash) then at else LastWrite(s, Front(evs), id)
      case TouchRow(q) =>
        if t.reqs[q].id == id && id in t.table then t.reqs[q].lastSeen else LastWrite(s, Front(evs), id)
      case _ => LastWrite(s, Front(evs), id)
  }

  /** What an event makes of the last-seen text of a row. */
  lemma SeenMoves(s: State, ev: Event, id: string)
    requires Enabled(s, ev) && id in Next(s, ev).table
    ensures Next(s, ev).table[id].lastSeen ==
      if ev.Issue? && ev.id == id && !Taken(s.table, id, ev.hash) then Stamp(ev.at)
      else if ev.TouchRow? && s.reqs[ev.q].id == id && id in s.table then Stamp(s.reqs[ev.q].lastSeen)
      else if id in s.table then s.table[id].lastSeen else Stamp(0)
  {
    hide Stamp;
    hide TimesOf;
  }

  lemma {:induction false} LastWriteIsStored(p: Policy, now: int, evs: seq<Event>, id: string)
    requires Possible(Init(p, now), evs) && id in Run(Init(p, now), evs).table
    ensures InRange(LastWrite(Init(p, now), evs, id))
    ensures Run(Init(p, now), evs).table[id].lastSeen == Stamp(LastWrite(Init(p, now), evs, id))
    decreases |evs|
  {
    hide Stamp;
    hide TimesOf;
    var s, ev := Run(Init(p, now), Front(evs)), evs[|evs| - 1];
    SeenMoves(s, ev, id);
    if id in s.table {
      LastWriteIsStored(p, now, Front(evs), id);
    }
  }

  /** A request that has read its row keeps what it read until it is judged. */
  lemma LookedStep(s: State, ev: Event, q: Id)
    requires Enabled(s, ev) && q in s.reqs && s.reqs[q].Looked? && (ev.Judge? ==> ev.q != q)
    ensures q in Next(s, ev).reqs && Next(s, ev).reqs[q] == s.reqs[q]
  {
    hide Stamp;
    hide TimesOf;
  }

  lemma {:induction false} LookedStays(s: State, evs: seq<Event>, q: Id)
    requires Possible(s, evs) && q in s.reqs && s.reqs[q].Looked?
    requires forall k :: 0 <= k < |evs| && evs[k].Judge? ==> evs[k].q != q
    ensures q in Run(s, evs).reqs && Run(s, evs).reqs[q] == s.reqs[q]
    decreases |evs|
  {
    if evs != [] {
      assert forall k :: 0 <= k < |Front(evs)| ==> Front(evs)[k] == evs[k];
      LookedStays(s, Front(evs), q);
      LookedStep(Run(s, Front(evs)), evs[|evs| - 1], q);
    }
  }

  lemma LookupReads(s: State, q: Id, id: string, hash: string, last: int)
    requires Enabled(s, Lookup(q, Some(id), hash)) && InRange(last) && s.table[id].lastSeen == Stamp(last)
    ensures var r := Next(s, Lookup(q, Some(id), hash)).reqs[q];
      r.Looked? && r.id == id && r.times.lastSeen == Trunc(last)
  {
    hide Stamp;
    hide Read;
    ReadStamp(last);
  }

  /** Between a write and a request that looks the row up after it, the touch interval is kept
      from the instant as it was stored: if that request owes a write of its own, it was judged
      at least the interval later. Nothing is said of a request that had looked before. */
  lemma LaterLookupKeepsTheGap(p: Policy, now: int, evs: seq<Event>, q: Id, id: string, hash: string,
                               more: seq<Event>, b: int)
    requires p.Fits() && Possible(Init(p, now), evs)
    requires Enabled(Run(Init(p, now), evs), Lookup(q, Some(id), hash))
    requires var s := Next(Run(Init(p, now), evs), Lookup(q, Some(id), hash));
      Possible(s, more) && Enabled(Run(s, more), Judge(q, b))
    requires forall k :: 0 <= k < |more| && more[k].Judge? ==> more[k].q != q
    ensures var s := Run(Next(Run(Init(p, now), evs), Lookup(q, Some(id), hash)), more);
      var last := LastWrite(Init(p, now), evs, id);
      Next(s, Judge(q, b)).reqs[q].Owing? ==>
        && b - Trunc(last) >= p.WithDefaults().touchInterval
        && b - last > p.WithDefaults().touchInterval - SECOND
  {
    hide Stamp;
    hide TimesOf;
    var s0 := Run(Init(p, now), evs);
    LastWriteIsStored(p, now, evs, id);
    var last := LastWrite(Init(p, now), evs, id);
    LookupReads(s0, q, id, hash, last);
    var s := Next(s0, Lookup(q, Some(id), hash));
    LookedStays(s, more, q);
    SamePolicy(Init(p, now), evs);
    SamePolicy(s, more);
    NeedsTouchMeans(p, s.reqs[q].times, b);
    TruncAdd(last, 0);
  }

  lemma {:induction false} SamePolicy(s: State, evs: seq<Event>)
    requires Possible(s, evs)
    ensures Run(s, evs).p == s.p
    decreases |evs|
  {
    hide Stamp;
    hide TimesOf;
    if evs != [] {
      SamePolicy(s, Front(evs));
    }
  }

  /** Two requests, `q` and `r`, that look the row up before either is judged. */
  function Overlap(id: string, hash: string, q: Id, r: Id, at: int): seq<Event> {
    [Lookup(q, Some(id), hash)] + [Lookup(r, Some(id), hash)] + [Judge(q, at)] + [Judge(r, at)]
  }

  lemma BothLook(s: State, id: string, hash: string, q: Id, r: Id) returns (evs: seq<Event>)
    requires id in s.table && hash == s.table[id].tokenHash && q !in s.reqs && r !in s.reqs && q != r
    ensures evs == [Lookup(q, Some(id), hash)] + [Lookup(r, Some(id), hash)] && Possible(s, evs)
    ensures var looked := Looked(id, TimesOf(s.table[id]));
      Run(s, evs) == s.(reqs := s.reqs[q := looked][r := looked])
  {
    hide Stamp;
    hide TimesOf;
    RunSnoc(s, [], Lookup(q, Some(id), hash));
    assert [] + [Lookup(q, Some(id), hash)] == [Lookup(q, Some(id), hash)];
    RunSnoc(s, [Lookup(q, Some(id), hash)], Lookup(r, Some(id), hash));
    evs := [Lookup(q, Some(id), hash)] + [Lookup(r, Some(id), hash)];
  }

  /** Requests that overlap have no gap at all: whenever a session is due for a touch, two of
      them may owe, and make, a write at one and the same instant. */
  lemma OverlapHasNoGap(s: State, id: string, q: Id, r: Id, at: int) returns (evs: seq<Event>)
    requires id in s.table && q !in s.reqs && r !in s.reqs && q != r && Reading(s, at)
    requires var t := TimesOf(s.table[id]);
      s.p.Live(t, at) && s.p.NeedsTouch(t, at) && InRange(s.p.ExpiryFor(t.created, at))
    ensures evs == Overlap(id, s.table[id].tokenHash, q, r, at) && Possible(s, evs)
    ensures var owing := Owing(id, at, s.p.ExpiryFor(TimesOf(s.table[id]).created, at), at);
      Run(s, evs) == s.(reqs := s.reqs[q := owing][r := owing])
    ensures Enabled(Run(s, evs), TouchRow(q)) && Enabled(Run(s, evs), TouchRow(r))
  {
    hide Stamp;
    hide TimesOf;
    var hash := s.table[id].tokenHash;
    var two := BothLook(s, id, hash, q, r);
    RunSnoc(s, two, Judge(q, at));
    RunSnoc(s, two + [Judge(q, at)], Judge(r, at));
    evs := two + [Judge(q, at)] + [Judge(r, at)];
    var owing := Owing(id, at, s.p.ExpiryFor(TimesOf(s.table[id]).created, at), at);
    assert Run(s, evs).reqs == s.reqs[q := owing][r := owing];
  }

  /** And such a session is reached under every policy whose touch interval leaves time for one:
      it only has to be left alone for the interval. */
  lemma OverlapIsReachable(p: Policy, id: string, hash: string, c: int) returns (evs: seq<Event>)
    requires p.Fits() && Reading(Init(p, c), c) && InRange(p.ExpiryFor(c, c))
    requires p.WithDefaults().touchInterval + SECOND < Shorter(p) && InRange(c + p.WithDefaults().touchInterval)
    ensures Possible(Init(p, c), evs) && id in Run(Init(p, c), evs).table
    ensures var s, at := Run(Init(p, c), evs), c + p.WithDefaults().touchInterval;
      && s.reqs == map[] && Reading(s, at) && TimesOf(s.table[id]) == Issued(p, c)
      && p.Live(Issued(p, c), at) && p.NeedsTouch(Issued(p, c), at)
  {
    hide Stamp;
    hide TimesOf;
    RunSnoc(Init(p, c), [], Issue(id, hash, c));
    evs := [Issue(id, hash, c)];
    assert [] + evs == evs;
    IssuedRow(p, hash, c);
    RunSnoc(Init(p, c), evs, Tick(p.WithDefaults().touchInterval));
    evs := evs + [Tick(p.WithDefaults().touchInterval)];
    IssuedFallsDue(p, c);
  }

  lemma IssuedFallsDue(p: Policy, c: int)
    requires p.Fits() && SECOND <= c && p.WithDefaults().touchInterval + SECOND < Shorter(p)
    ensures var at := c + p.WithDefaults().touchInterval;
      p.Live(Issued(p, c), at) && p.NeedsTouch(Issued(p, c), at)
  {
    var at := c + p.WithDefaults().touchInterval;
    TruncAdd(c, 0);
    TruncAdd(p.ExpiryFor(c, c), 0);
    LiveMeans(p, Issued(p, c), at);
    NeedsTouchMeans(p, Issued(p, c), at);
  }
}
