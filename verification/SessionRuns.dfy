/** Sessions over whole runs: sign-ins, requests that look a session up, judge it and touch
    it in three separate steps, logouts, revocations and sweeps, in any interleaving.

    Every clock reading `at` may be older than the moment it is used; the clock is past year
    one and every instant that is stored fits four-digit years. */
module SessionRuns {
  import opened Prelude
  import opened Calendar
  import opened Session

  type Id = nat

  /** A request under way: the row it read, the touch it owes, or its outcome. */
  datatype Req =
    | Looked(id: string, times: Times)
    | Owing(id: string, lastSeen: int, expires: int, at: int)
    | Refused
    | Admitted(id: string, at: int)

  /** `born` keeps the instant of every successful sign-in, deleted ones too (history). */
  datatype State = State(p: Policy, now: int, table: Table, born: map<string, int>, reqs: map<Id, Req>)

  datatype Event =
    | Tick(d: nat)
    | Issue(id: string, hash: string, at: int)
    | Lookup(q: Id, found: Option<string>, hash: string)
    | Judge(q: Id, at: int)
    | TouchRow(q: Id)
    | TouchFails(q: Id)
    | Logout(hash: string)
    | Revoke(id: string)
    | SweepAt(at: int)

  function Init(p: Policy, now: int): State {
    State(p, now, map[], map[], map[])
  }

  predicate Reading(s: State, at: int) {
    SECOND <= at <= s.now && InRange(at)
  }

  predicate Enabled(s: State, ev: Event) {
    match ev
    case Tick(_) => true
    case Issue(id, _, at) => id !in s.born && Reading(s, at) && InRange(s.p.ExpiryFor(at, at))
    case Lookup(q, found, hash) =>
      q !in s.reqs &&
      (match found
       case Some(id) => id in s.table && s.table[id].tokenHash == hash
       case None => forall i :: i in s.table ==> s.table[i].tokenHash != hash)
    case Judge(q, at) =>
      && q in s.reqs && s.reqs[q].Looked? && Reading(s, at)
      && InRange(s.p.ExpiryFor(s.reqs[q].times.created, at))
    case TouchRow(q) => q in s.reqs && s.reqs[q].Owing? && InRange(s.reqs[q].lastSeen) && InRange(s.reqs[q].expires)
    case TouchFails(q) => q in s.reqs && s.reqs[q].Owing?
    case Logout(_) => true
    case Revoke(_) => true
    case SweepAt(at) => Reading(s, at)
  }

  /** The row a sign-in at `at` writes. */
  function FirstRow(p: Policy, hash: string, at: int): Row {
    Row(hash, Stamp(at), Stamp(at), Stamp(p.ExpiryFor(at, at)))
  }

  function Judged(p: Policy, r: Req, at: int): Req
    requires r.Looked?
  {
    if !p.Live(r.times, at) then Refused
    else if p.NeedsTouch(r.times, at) then Owing(r.id, at, p.ExpiryFor(r.times.created, at), at)
    else Admitted(r.id, at)
  }

  function Next(s: State, ev: Event): State
    requires Enabled(s, ev)
  {
    match ev
    case Tick(d) => s.(now := s.now + d)
    case Issue(id, hash, at) =>
      if Taken(s.table, id, hash) then s
      else s.(table := Insert(s.table, id, FirstRow(s.p, hash, at)),
              born := s.born[id := at])
    case Lookup(q, found, _) =>
      s.(reqs := s.reqs[q := match found
                             case Some(id) => Looked(id, TimesOf(s.table[id]))
                             case None => Refused])
    case Judge(q, at) => s.(reqs := s.reqs[q := Judged(s.p, s.reqs[q], at)])
    case TouchRow(q) =>
      var r := s.reqs[q];
      s.(table := Touch(s.table, r.id, Stamp(r.lastSeen), Stamp(r.expires)),
         reqs := s.reqs[q := Admitted(r.id, r.at)])
    case TouchFails(q) => s.(reqs := s.reqs[q := Admitted(s.reqs[q].id, s.reqs[q].at)])
    case Logout(hash) => s.(table := DeleteHash(s.table, hash))
    case Revoke(id) => s.(table := Delete(s.table, id))
    case SweepAt(at) => s.(table := Sweep(s.table, Stamp(at)))
  }

  predicate Possible(s: State, evs: seq<Event>)
    decreases |evs|, 0
  {
    evs != [] ==> Possible(s, Front(evs)) && Enabled(Run(s, Front(evs)), evs[|evs| - 1])
  }

  function Run(s: State, evs: seq<Event>): State
    requires Possible(s, evs)
    decreases |evs|, 1
  {
    if evs == [] then s else Next(Run(s, Front(evs)), evs[|evs| - 1])
  }

  /** The shorter of the two lifetimes, which governs a fresh session. */
  function Shorter(p: Policy): int {
    var q := p.WithDefaults();
    if q.ttl < q.maxLifetime then q.ttl else q.maxLifetime
  }

  /** The policies whose sweep is never late: rounding the shorter lifetime up to a second
      does not pass the cap. Any cap in whole seconds is one. */
  predicate SweepsOnTime(p: Policy) {
    Trunc(Shorter(p) + SECOND - 1) <= p.WithDefaults().maxLifetime
  }

  lemma WholeSecondCapsSweepOnTime(p: Policy)
    requires 0 < p.maxLifetime ==> p.maxLifetime % SECOND == 0
    ensures SweepsOnTime(p)
  {
    DefaultsMean(p);
    TruncMono(Shorter(p) + SECOND - 1, p.WithDefaults().maxLifetime + SECOND - 1);
    TruncAdd(SECOND - 1, p.WithDefaults().maxLifetime);
  }

  lemma TruncVersusCeil(c: int, m: int)
    ensures Trunc(c + m) <= Trunc(c) + Trunc(m + SECOND - 1)
    ensures Trunc(m + SECOND - 1) < m + SECOND
  {
  }

  // ----- What every step keeps -----

  function Max(s: State): int {
    s.p.WithDefaults().maxLifetime
  }

  /** An expiry a session born at `c` may have: from its issue, or from a touch, which knows
      the birth only to the second. */
  predicate WithinCap(p: Policy, c: int, x: int) {
    SECOND <= x && InRange(x) && (x <= c + Shorter(p) || x <= Trunc(c) + p.WithDefaults().maxLifetime)
  }

  /** A row of a session born at `c`. */
  ghost predicate RowFits(p: Policy, r: Row, c: int) {
    && SECOND <= c && InRange(c)
    && r.created == Stamp(c)
    && (exists l :: InRange(l) && r.lastSeen == Stamp(l))
    && (exists x :: WithinCap(p, c, x) && r.expires == Stamp(x))
  }

  ghost predicate RowOk(s: State, id: string)
    requires id in s.table
  {
    id in s.born && RowFits(s.p, s.table[id], s.born[id])
  }

  predicate ReqOk(s: State, q: Id)
    requires q in s.reqs
  {
    match s.reqs[q]
    case Looked(id, times) => id in s.born && SECOND <= s.born[id] && times.created == Trunc(s.born[id])
    case Owing(id, lastSeen, expires, at) =>
      id in s.born && at < s.born[id] + Max(s) && SECOND <= expires <= Trunc(s.born[id]) + Max(s)
    case Refused => true
    case Admitted(id, at) => id in s.born && at < s.born[id] + Max(s)
  }

  ghost predicate Inv(s: State) {
    && s.p.Fits()
    && (forall id {:trigger RowOk(s, id)} :: id in s.table ==> RowOk(s, id))
    && (forall q {:trigger ReqOk(s, q)} :: q in s.reqs ==> ReqOk(s, q))
    && UniqueTokens(s.table)
  }

  /** A renewal computed from the stored creation instant stays inside the stored cap, and
      the first expiry inside the shorter of the two lifetimes. */
  lemma RenewalWithinCap(p: Policy, c: int, at: int)
    requires p.Fits() && SECOND <= c && SECOND <= at
    ensures SECOND <= p.ExpiryFor(Trunc(c), at) <= Trunc(c) + p.WithDefaults().maxLifetime
    ensures SECOND <= p.ExpiryFor(at, at) <= at + Shorter(p)
  {
    TruncMono(c, c);
  }

  lemma RowKept(s: State, s': State, id: string)
    requires id in s.table && id in s'.table && RowOk(s, id) && s'.p == s.p
    requires s'.table[id] == s.table[id] && id in s'.born && s'.born[id] == s.born[id]
    ensures RowOk(s', id)
  {
  }

  lemma IssueRow(s: State, id: string, hash: string, at: int)
    requires Inv(s) && Enabled(s, Issue(id, hash, at)) && !Taken(s.table, id, hash)
    ensures RowOk(Next(s, Issue(id, hash, at)), id)
  {
    RenewalWithinCap(s.p, at, at);
    assert WithinCap(s.p, at, s.p.ExpiryFor(at, at));
  }

  lemma TouchFits(p: Policy, r: Row, c: int, l: int, x: int)
    requires RowFits(p, r, c) && InRange(l) && WithinCap(p, c, x)
    ensures RowFits(p, r.(lastSeen := Stamp(l), expires := Stamp(x)), c)
  {
    hide Stamp;
  }

  lemma TouchedRow(s: State, q: Id)
    requires Inv(s) && Enabled(s, TouchRow(q)) && s.reqs[q].id in s.table
    ensures RowOk(Next(s, TouchRow(q)), s.reqs[q].id)
  {
    hide Stamp;
    hide RowFits;
    var r := s.reqs[q];
    assert ReqOk(s, q) && RowOk(s, r.id);
    TouchFits(s.p, s.table[r.id], s.born[r.id], r.lastSeen, r.expires);
  }

  lemma OtherRow(s: State, ev: Event, id: string)
    requires Enabled(s, ev) && id in Next(s, ev).table && id in s.table && id in s.born
    requires !(ev.TouchRow? && s.reqs[ev.q].id == id)
    ensures Next(s, ev).table[id] == s.table[id] && id in Next(s, ev).born && Next(s, ev).born[id] == s.born[id]
    ensures Next(s, ev).p == s.p
  {
  }

  lemma NewRow(s: State, ev: Event, id: string)
    requires Enabled(s, ev) && id in Next(s, ev).table && id !in s.table
    ensures ev.Issue? && ev.id == id && !Taken(s.table, id, ev.hash)
  {
  }

  lemma StepRow(s: State, ev: Event, id: string)
    requires Inv(s) && Enabled(s, ev) && id in Next(s, ev).table
    ensures RowOk(Next(s, ev), id)
  {
    if id !in s.table {
      NewRow(s, ev, id);
      IssueRow(s, id, ev.hash, ev.at);
    } else if ev.TouchRow? && s.reqs[ev.q].id == id {
      TouchedRow(s, ev.q);
    } else {
      assert RowOk(s, id);
      KeptRow(s, ev, id);
    }
  }

  lemma KeptRow(s: State, ev: Event, id: string)
    requires Enabled(s, ev) && id in Next(s, ev).table && id in s.table && RowOk(s, id)
    requires !(ev.TouchRow? && s.reqs[ev.q].id == id)
    ensures RowOk(Next(s, ev), id)
  {
    OtherRow(s, ev, id);
    RowKept(s, Next(s, ev), id);
  }

  lemma LookedOk(s: State, q: Id, id: string, hash: string)
    requires Inv(s) && Enabled(s, Lookup(q, Some(id), hash))
    ensures ReqOk(Next(s, Lookup(q, Some(id), hash)), q)
  {
    assert RowOk(s, id);
    ReadStamp(s.born[id]);
  }

  lemma JudgedOk(s: State, q: Id, at: int)
    requires s.p.Fits() && Enabled(s, Judge(q, at)) && ReqOk(s, q)
    ensures ReqOk(Next(s, Judge(q, at)), q)
  {
    var x := s.reqs[q];
    RenewalWithinCap(s.p, s.born[x.id], at);
    LiveMeans(s.p, x.times, at);
    TruncAdd(s.born[x.id], 0);
    TruncMono(s.born[x.id], s.born[x.id]);
  }

  lemma OtherReq(s: State, ev: Event, q: Id)
    requires Enabled(s, ev) && q in s.reqs && ReqOk(s, q)
    requires ev.Judge? ==> ev.q != q
    ensures q in Next(s, ev).reqs && ReqOk(Next(s, ev), q)
  {
  }

  lemma StepReq(s: State, ev: Event, q: Id)
    requires Inv(s) && Enabled(s, ev) && q in Next(s, ev).reqs
    ensures ReqOk(Next(s, ev), q)
  {
    if q in s.reqs {
      assert ReqOk(s, q);
      if ev.Judge? && ev.q == q {
        JudgedOk(s, q, ev.at);
      } else {
        OtherReq(s, ev, q);
      }
    } else if ev.found.Some? {
      LookedOk(s, q, ev.found.value, ev.hash);
    }
  }

  lemma StepUnique(s: State, ev: Event)
    requires UniqueTokens(s.table) && Enabled(s, ev)
    ensures UniqueTokens(Next(s, ev).table) && Next(s, ev).p == s.p
  {
  }

  lemma StepInv(s: State, ev: Event)
    requires Inv(s) && Enabled(s, ev)
    ensures Inv(Next(s, ev))
  {
    StepUnique(s, ev);
    forall id | id in Next(s, ev).table
      ensures RowOk(Next(s, ev), id)
    {
      StepRow(s, ev, id);
    }
    forall q | q in Next(s, ev).reqs
      ensures ReqOk(Next(s, ev), q)
    {
      StepReq(s, ev, q);
    }
  }

  lemma {:induction false} RunInv(p: Policy, now: int, evs: seq<Event>)
    requires p.Fits() && Possible(Init(p, now), evs)
    ensures Inv(Run(Init(p, now), evs)) && Run(Init(p, now), evs).p == p
    decreases |evs|
  {
    if evs != [] {
      RunInv(p, now, Front(evs));
      StepInv(Run(Init(p, now), Front(evs)), evs[|evs| - 1]);
    }
  }

  // ----- The lifetime promises -----

  /** No session outlives its absolute cap of MaxLifetime, thirty days if unset: the stored
      expiry never passes it, counted from the true sign-in, and no request judged at or after
      it is admitted. */
  lemma CapHolds(p: Policy, now: int, evs: seq<Event>)
    requires p.Fits() && Possible(Init(p, now), evs)
    ensures var s, max := Run(Init(p, now), evs), if 0 < p.maxLifetime then p.maxLifetime else THIRTY_DAYS;
      && (forall id :: id in s.table ==> id in s.born && 0 < TimesOf(s.table[id]).expires <= s.born[id] + max)
      && (forall q :: q in s.reqs && s.reqs[q].Admitted? ==>
            s.reqs[q].id in s.born && s.reqs[q].at < s.born[s.reqs[q].id] + max)
  {
    var s, max := Run(Init(p, now), evs), p.WithDefaults().maxLifetime;
    DefaultsMean(p);
    RunInv(p, now, evs);
    forall id | id in s.table
      ensures id in s.born && 0 < TimesOf(s.table[id]).expires <= s.born[id] + max
    {
      assert RowOk(s, id);
      StoredCap(s, id);
    }
    forall q | q in s.reqs && s.reqs[q].Admitted?
      ensures s.reqs[q].id in s.born && s.reqs[q].at < s.born[s.reqs[q].id] + max
    {
      assert ReqOk(s, q);
    }
  }

  /** The stored expiry against the stored creation instant: past the cap by less than the
      second that storing drops, and never past it under a policy that sweeps on time. */
  lemma StoredCap(s: State, id: string)
    requires s.p.Fits() && id in s.table && RowOk(s, id)
    ensures var r := TimesOf(s.table[id]);
      && 0 < r.created && 0 < r.expires < r.created + Max(s) + SECOND && r.expires <= s.born[id] + Max(s)
      && (SweepsOnTime(s.p) ==> r.expires <= r.created + Max(s))
  {
    StoredRow(s.p, s.table[id], s.born[id]);
  }

  lemma StoredRow(p: Policy, r: Row, c: int)
    requires p.Fits() && RowFits(p, r, c)
    ensures var t, max := TimesOf(r), p.WithDefaults().maxLifetime;
      && 0 < t.created && 0 < t.expires < t.created + max + SECOND && t.expires <= c + max
      && (SweepsOnTime(p) ==> t.expires <= t.created + max)
  {
    var x :| WithinCap(p, c, x) && r.expires == Stamp(x);
    ReadStamp(x);
    ReadStamp(c);
    CapArithmetic(p, c, x);
  }

  lemma CapArithmetic(p: Policy, c: int, x: int)
    requires SECOND <= c && SECOND <= x
    requires x <= c + Shorter(p) || x <= Trunc(c) + p.WithDefaults().maxLifetime
    ensures 0 < Trunc(c) && 0 < Trunc(x) < Trunc(c) + p.WithDefaults().maxLifetime + SECOND
    ensures Trunc(x) <= c + p.WithDefaults().maxLifetime
    ensures SweepsOnTime(p) ==> Trunc(x) <= Trunc(c) + p.WithDefaults().maxLifetime
  {
    TruncMono(c, c);
    TruncMono(x, x);
    TruncAdd(x, 0);
    TruncAdd(c, 0);
    if x <= c + Shorter(p) {
      TruncMono(x, c + Shorter(p));
      TruncVersusCeil(c, Shorter(p));
    }
  }

  lemma TruncMono(t: int, u: int)
    requires t <= u
    ensures Trunc(t) <= Trunc(u) && (SECOND <= t ==> SECOND <= Trunc(t))
  {
  }

  /** In this run, for this session and at this instant, the sweep takes the row exactly if it
      would no longer authenticate. */
  ghost predicate AgreesAt(p: Policy, now: int, evs: seq<Event>, id: string, at: int) {
    Possible(Init(p, now), evs) && id in Run(Init(p, now), evs).table && InRange(at) ==>
      var t := Run(Init(p, now), evs).table;
      id in Sweep(t, Stamp(at)) <==> p.Live(TimesOf(t[id]), at)
  }

  ghost predicate SweepIsExact(p: Policy) {
    forall now, evs, id, at {:trigger AgreesAt(p, now, evs, id, at)} :: AgreesAt(p, now, evs, id, at)
  }

  /** At every instant and for every session in every reachable table: the sweep takes no
      session that would authenticate, and under a policy that sweeps on time it takes
      exactly those that would not. */
  lemma SweepTakesTheDead(p: Policy, now: int, evs: seq<Event>, id: string, at: int)
    requires p.Fits() && Possible(Init(p, now), evs) && id in Run(Init(p, now), evs).table && InRange(at)
    ensures var t := Run(Init(p, now), evs).table;
      && (p.Live(TimesOf(t[id]), at) ==> id in Sweep(t, Stamp(at)) && Sweep(t, Stamp(at))[id] == t[id])
      && (SweepsOnTime(p) ==> (id in Sweep(t, Stamp(at)) <==> p.Live(TimesOf(t[id]), at)))
  {
    hide Stamp;
    hide TimesOf;
    var s := Run(Init(p, now), evs);
    SweepTakes(s.table, at, id);
    RunInv(p, now, evs);
    assert RowOk(s, id);
    StoredCap(s, id);
    SweepVersusLive(p, s.table[id], at);
  }

  /** A session issued at the very end of second `k` outlives its cap on paper, unless the
      policy sweeps on time. */
  lemma IssuedLate(p: Policy, k: nat)
    requires p.Fits() && 1 <= k && !SweepsOnTime(p)
    ensures var s := Issued(p, k * SECOND + SECOND - 1);
      var at := s.created + p.WithDefaults().maxLifetime;
      !p.Live(s, at) && at < s.expires
  {
    var c := k * SECOND + SECOND - 1;
    FirstExpiry(p, c);
    LateInstant(k, Shorter(p), p.WithDefaults().maxLifetime);
    LiveMeans(p, Issued(p, c), Trunc(c) + p.WithDefaults().maxLifetime);
  }

  lemma FirstExpiry(p: Policy, c: int)
    requires SECOND <= c
    ensures p.ExpiryFor(c, c) == c + Shorter(p)
  {
  }

  lemma LateInstant(k: nat, m: int, cap: int)
    requires cap < Trunc(m + SECOND - 1)
    ensures var c := k * SECOND + SECOND - 1;
      Trunc(c) == k * SECOND && Trunc(c) + cap < Trunc(c + m)
  {
    var c := k * SECOND + SECOND - 1;
    assert Trunc(c) == k * SECOND;
    TruncAdd(SECOND - 1 + m, k * SECOND);
    assert c + m == (SECOND - 1 + m) + k * SECOND;
  }

  lemma IssuedRow(p: Policy, hash: string, c: int)
    requires p.Fits() && InRange(c) && InRange(p.ExpiryFor(c, c))
    ensures Written(FirstRow(p, hash, c)) && TimesOf(FirstRow(p, hash, c)) == Issued(p, c)
  {
    ReadStamp(c);
    ReadStamp(p.ExpiryFor(c, c));
  }

  /** One sign-in puts one row in the table. */
  lemma IssueAlone(p: Policy, id: string, hash: string, c: int) returns (evs: seq<Event>)
    requires p.Fits() && Reading(Init(p, c), c) && InRange(p.ExpiryFor(c, c))
    ensures Possible(Init(p, c), evs) && Run(Init(p, c), evs).table == map[id := FirstRow(p, hash, c)]
  {
    hide FirstRow;
    evs := [Issue(id, hash, c)];
    assert evs[..0] == [];
    assert Run(Init(p, c), []) == Init(p, c);
  }

  /** The run leaves a session in the table that the sweep would leave too, although it no
      longer authenticates. */
  ghost predicate SweptLate(p: Policy, now: int, evs: seq<Event>, id: string, at: int) {
    && Possible(Init(p, now), evs) && id in Run(Init(p, now), evs).table && InRange(at)
    && id in Sweep(Run(Init(p, now), evs).table, Stamp(at))
    && !p.Live(TimesOf(Run(Init(p, now), evs).table[id]), at)
  }

  lemma HeldRow(p: Policy, now: int, evs: seq<Event>, id: string, r: Row, at: int)
    requires Possible(Init(p, now), evs) && Run(Init(p, now), evs).table == map[id := r] && InRange(at)
    requires !Swept(r, at) && !p.Live(TimesOf(r), at)
    ensures SweptLate(p, now, evs, id, at)
  {
    SweepTakes(map[id := r], at, id);
  }

  lemma LateRow(p: Policy, c: int, r: Row, at: int)
    requires p.Fits() && InRange(at) && Written(r) && TimesOf(r) == Issued(p, c)
    requires !p.Live(Issued(p, c), at) && at < Issued(p, c).expires
    ensures !Swept(r, at) && !p.Live(TimesOf(r), at)
  {
    SweptMeansExpired(r, at);
  }

  lemma LateIsInRange(p: Policy, k: nat, c: int, at: int)
    requires p.Fits() && 1 <= k && !SweepsOnTime(p) && c == k * SECOND + SECOND - 1
    requires at == k * SECOND + p.WithDefaults().maxLifetime && InRange(c) && InRange(p.ExpiryFor(c, c))
    ensures InRange(at) && !p.Live(Issued(p, c), at) && at < Issued(p, c).expires
  {
    IssuedLate(p, k);
    TruncAdd(p.ExpiryFor(c, c), 0);
  }

  /** Under any other policy a single sign-in, in the last nanosecond `c` of any second `k`,
      makes such a run, and the instant `at` its cap is up shows it. */
  lemma OtherwiseTheSweepIsLate(p: Policy, id: string, hash: string, k: nat, c: int, at: int) returns (evs: seq<Event>)
    requires p.Fits() && 1 <= k && !SweepsOnTime(p) && c == k * SECOND + SECOND - 1
    requires at == k * SECOND + p.WithDefaults().maxLifetime && InRange(c) && InRange(p.ExpiryFor(c, c))
    ensures SweptLate(p, c, evs, id, at)
  {
    LateIsInRange(p, k, c, at);
    var r := FirstRow(p, hash, c);
    evs := IssueAlone(p, id, hash, c);
    IssuedRow(p, hash, c);
    LateRow(p, c, r, at);
    HeldRow(p, c, evs, id, r, at);
  }

  lemma LateDisagrees(p: Policy, now: int, evs: seq<Event>, id: string, at: int)
    requires SweptLate(p, now, evs, id, at)
    ensures !SweepIsExact(p)
  {
    assert !AgreesAt(p, now, evs, id, at);
  }

  lemma LateIsInexact(p: Policy, k: nat, c: int, at: int)
    requires p.Fits() && 1 <= k && !SweepsOnTime(p) && c == k * SECOND + SECOND - 1
    requires at == k * SECOND + p.WithDefaults().maxLifetime && InRange(c) && InRange(p.ExpiryFor(c, c))
    ensures !SweepIsExact(p)
  {
    var evs := OtherwiseTheSweepIsLate(p, "a", "h", k, c, at);
    LateDisagrees(p, c, evs, "a", at);
  }

  /** So the sweep takes exactly the dead, in every reachable table and at every instant, if
      and only if the policy sweeps on time. */
  lemma SweepIsExactlyOnTime(p: Policy)
    requires p.Fits()
    ensures SweepIsExact(p) <==> SweepsOnTime(p)
  {
    if SweepsOnTime(p) {
      forall now, evs, id, at
        ensures AgreesAt(p, now, evs, id, at)
      {
        if Possible(Init(p, now), evs) && id in Run(Init(p, now), evs).table && InRange(at) {
          SweepTakesTheDead(p, now, evs, id, at);
        }
      }
    } else {
      LateIsInexact(p, 1, 2 * SECOND - 1, SECOND + p.WithDefaults().maxLifetime);
    }
  }

  /** What a request judged at `at` on what it had read may become. */
  predicate Stands(p: Policy, r: Req, id: string, times: Times, at: int) {
    if p.Live(times, at) then
      || r == Admitted(id, at)
      || (p.NeedsTouch(times, at) && r == Owing(id, at, p.ExpiryFor(times.created, at), at))
    else r == Refused
  }

  lemma StepStands(s: State, ev: Event, q: Id, id: string, times: Times, at: int)
    requires q in s.reqs && Stands(s.p, s.reqs[q], id, times, at) && Enabled(s, ev)
    ensures q in Next(s, ev).reqs && Stands(Next(s, ev).p, Next(s, ev).reqs[q], id, times, at)
    ensures ev == TouchRow(q) || ev == TouchFails(q) ==> Next(s, ev).reqs[q] == Admitted(id, at)
    ensures s.reqs[q] == Admitted(id, at) ==> Next(s, ev).reqs[q] == Admitted(id, at)
  {
  }

  /** A judgement stands, however the run goes on: a request that found its session live is
      admitted, once the write it may owe was tried, whether or not that succeeded; one that found
      it expired is refused for good. */
  lemma {:induction false} JudgementStands(s: State, q: Id, at: int, evs: seq<Event>)
    requires Enabled(s, Judge(q, at)) && Possible(Next(s, Judge(q, at)), evs)
    ensures var r, t := s.reqs[q], Run(Next(s, Judge(q, at)), evs);
      && t.p == s.p && q in t.reqs && Stands(s.p, t.reqs[q], r.id, r.times, at)
      && (s.p.Live(r.times, at) && (TouchRow(q) in evs || TouchFails(q) in evs || !s.p.NeedsTouch(r.times, at)) ==>
            t.reqs[q] == Admitted(r.id, at))
    decreases |evs|
  {
    hide Stamp;
    hide TimesOf;
    if evs != [] {
      var front, ev := Front(evs), evs[|evs| - 1];
      JudgementStands(s, q, at, front);
      StepStands(Run(Next(s, Judge(q, at)), front), ev, q, s.reqs[q].id, s.reqs[q].times, at);
      InFront(evs, TouchRow(q));
      InFront(evs, TouchFails(q));
    }
  }

  /** A request whose token no row has is refused. */
  lemma UnknownTokenIsRefused(s: State, q: Id, hash: string)
    requires q !in s.reqs && forall i :: i in s.table ==> s.table[i].tokenHash != hash
    ensures Enabled(s, Lookup(q, None, hash)) && forall i :: !Enabled(s, Lookup(q, Some(i), hash))
    ensures Next(s, Lookup(q, None, hash)).reqs[q] == Refused
  {
  }

  lemma StepGone(s: State, ev: Event, id: string)
    requires id in s.born && id !in s.table && Enabled(s, ev)
    ensures id in Next(s, ev).born && id !in Next(s, ev).table
  {
  }

  /** A session that was ended, by logout, revocation or sweep, never comes back, whatever
      touch was already on its way. */
  lemma {:induction false} GoneStaysGone(s: State, evs: seq<Event>, id: string)
    requires id in s.born && id !in s.table && Possible(s, evs)
    ensures id in Run(s, evs).born && id !in Run(s, evs).table
    decreases |evs|
  {
    if evs != [] {
      GoneStaysGone(s, Front(evs), id);
      StepGone(Run(s, Front(evs)), evs[|evs| - 1], id);
    }
  }

  /** Logging out removes the row behind the cookie and no other; so does revoking. */
  lemma EndingOneSession(s: State, id: string)
    requires Inv(s) && id in s.table
    ensures Next(s, Logout(s.table[id].tokenHash)).table == Next(s, Revoke(id)).table
    ensures Next(s, Revoke(id)).table.Keys == s.table.Keys - {id}
    ensures forall i :: i in s.table && i != id ==> Next(s, Revoke(id)).table[i] == s.table[i]
  {
  }
}
