/** Session lifetime: the policy, the table that keeps instants as text, and the two
    mechanisms that end a session - the check on every read and the sweep. */
module Session {
  import opened Prelude
  import opened Calendar

  // ----- Policy -----

  /** Durations are signed 64-bit nanosecond counts. */
  const MAX_DURATION: int := 0x7fff_ffff_ffff_ffff
  const MIN_DURATION: int := -0x8000_0000_0000_0000
  const DEFAULT_TTL: int := 30 * 24 * 3600 * SECOND
  const DEFAULT_MAX_LIFETIME: int := 30 * 24 * 3600 * SECOND
  const DEFAULT_TOUCH_INTERVAL: int := 3600 * SECOND

  /** The difference of two instants saturates at the ends of the duration range. */
  function Sub(a: int, b: int): int {
    if a - b > MAX_DURATION then MAX_DURATION else if a - b < MIN_DURATION then MIN_DURATION else a - b
  }

  datatype Policy = Policy(ttl: int, maxLifetime: int, touchInterval: int) {
    predicate Fits() {
      && MIN_DURATION <= ttl <= MAX_DURATION && MIN_DURATION <= maxLifetime <= MAX_DURATION
      && MIN_DURATION <= touchInterval <= MAX_DURATION
    }

    function WithDefaults(): Policy {
      Policy(if ttl <= 0 then DEFAULT_TTL else ttl,
             if maxLifetime <= 0 then DEFAULT_MAX_LIFETIME else maxLifetime,
             if touchInterval <= 0 then DEFAULT_TOUCH_INTERVAL else touchInterval)
    }

    function ExpiryFor(createdAt: int, now: int): int {
      var p := WithDefaults();
      var expires := now + p.ttl;
      if createdAt == 0 then expires
      else if expires > createdAt + p.maxLifetime then createdAt + p.maxLifetime
      else expires
    }

    predicate Live(s: Times, now: int) {
      var p := WithDefaults();
      if s.expires != 0 && !(s.expires > now) then false
      else if s.created != 0 && Sub(now, s.created) >= p.maxLifetime then false
      else true
    }

    predicate NeedsTouch(s: Times, now: int) {
      Sub(now, s.lastSeen) >= WithDefaults().touchInterval
    }
  }

  /** The instants of a session, as the middleware sees them. */
  datatype Times = Times(created: int, lastSeen: int, expires: int)

  const THIRTY_DAYS: int := 2_592_000_000_000_000
  const ONE_HOUR: int := 3_600_000_000_000

  /** Each field by itself: kept when positive, otherwise its own documented default. */
  lemma DefaultsMean(p: Policy)
    ensures p.WithDefaults().ttl == if 0 < p.ttl then p.ttl else THIRTY_DAYS
    ensures p.WithDefaults().maxLifetime == if 0 < p.maxLifetime then p.maxLifetime else THIRTY_DAYS
    ensures p.WithDefaults().touchInterval == if 0 < p.touchInterval then p.touchInterval else ONE_HOUR
  {
  }

  /** A session is live exactly before both its idle expiry and its absolute cap of MaxLifetime,
      thirty days if unset, an unknown instant counting as no limit; saturation never changes
      the answer. */
  lemma LiveMeans(p: Policy, s: Times, now: int)
    requires p.Fits()
    ensures var cap := if 0 < p.maxLifetime then p.maxLifetime else THIRTY_DAYS;
      p.Live(s, now) <==> (s.expires == 0 || now < s.expires) && (s.created == 0 || now < s.created + cap)
  {
  }

  /** A renewal is the smaller of `now` plus TTL and the birth plus MaxLifetime, each thirty days
      if unset, of which a session of unknown birth has only the first; and it lies in the future
      exactly for a session still inside its cap. */
  lemma ExpiryMeans(p: Policy, created: int, now: int)
    requires p.Fits()
    ensures var sliding := now + if 0 < p.ttl then p.ttl else THIRTY_DAYS;
      var cap := created + if 0 < p.maxLifetime then p.maxLifetime else THIRTY_DAYS;
      var e := p.ExpiryFor(created, now);
      && e <= sliding && (e == sliding || e == cap)
      && (if created == 0 then e == sliding else e <= cap)
      && (now < e <==> created == 0 || now < cap)
  {
  }

  /** A write is due exactly when the last one is at least the touch interval old, an hour if
      unset. */
  lemma NeedsTouchMeans(p: Policy, s: Times, now: int)
    requires p.Fits()
    ensures p.NeedsTouch(s, now) <==> (if 0 < p.touchInterval then p.touchInterval else ONE_HOUR) <= now - s.lastSeen
  {
  }

  // ----- The table -----

  datatype Row = Row(tokenHash: string, created: string, lastSeen: string, expires: string)

  type Table = map<string, Row>

  /** An unreadable instant reads as the zero time. */
  function Read(s: string): int {
    match Parse(s)
    case Some(t) => t
    case None => 0
  }

  function TimesOf(r: Row): Times {
    Times(Read(r.created), Read(r.lastSeen), Read(r.expires))
  }

  predicate Taken(t: Table, id: string, hash: string) {
    id in t || exists i :: i in t && t[i].tokenHash == hash
  }

  function Insert(t: Table, id: string, r: Row): Table {
    if Taken(t, id, r.tokenHash) then t else t[id := r]
  }

  function Touch(t: Table, id: string, lastSeen: string, expires: string): Table {
    if id in t then t[id := t[id].(lastSeen := lastSeen, expires := expires)] else t
  }

  function Delete(t: Table, id: string): Table {
    t - {id}
  }

  function DeleteHash(t: Table, hash: string): Table {
    map id | id in t && t[id].tokenHash != hash :: t[id]
  }

  /** The sweep compares text with text. */
  function Sweep(t: Table, now: string): Table {
    map id | id in t && !LessEq(t[id].expires, now) :: t[id]
  }

  /** Distinct rows have distinct tokens. */
  ghost predicate UniqueTokens(t: Table) {
    forall i, j :: i in t && j in t && t[i].tokenHash == t[j].tokenHash ==> i == j
  }

  lemma InsertKeepsUnique(t: Table, id: string, r: Row)
    requires UniqueTokens(t)
    ensures UniqueTokens(Insert(t, id, r))
  {
  }

  lemma TouchKeepsUnique(t: Table, id: string, lastSeen: string, expires: string)
    requires UniqueTokens(t)
    ensures UniqueTokens(Touch(t, id, lastSeen, expires))
  {
  }

  class Store {
    var rows: Table

    constructor ()
      ensures rows == map[] && UniqueTokens(rows)
    {
      rows := map[];
    }

    method CreateSession(id: string, hash: string, s: Times) returns (ok: bool)
      requires UniqueTokens(rows)
      modifies this
      ensures ok <==> !Taken(old(rows), id, hash)
      ensures rows == Insert(old(rows), id, Row(hash, Stamp(s.created), Stamp(s.lastSeen), Stamp(s.expires)))
      ensures UniqueTokens(rows)
    {
      var row := Row(hash, Stamp(s.created), Stamp(s.lastSeen), Stamp(s.expires));
      InsertKeepsUnique(rows, id, row);
      ok := !Taken(rows, id, hash);
      if ok {
        rows := rows[id := row];
      }
    }

    method SessionByToken(hash: string) returns (found: Option<string>, s: Times)
      requires UniqueTokens(rows)
      ensures match found
              case Some(id) => id in rows && rows[id].tokenHash == hash && s == TimesOf(rows[id])
              case None => forall i :: i in rows ==> rows[i].tokenHash != hash
    {
      s := Times(0, 0, 0);
      if exists i :: i in rows && rows[i].tokenHash == hash {
        var id :| id in rows && rows[id].tokenHash == hash;
        return Some(id), TimesOf(rows[id]);
      }
      found := None;
    }

    method TouchSession(id: string, lastSeen: int, expires: int)
      requires UniqueTokens(rows)
      modifies this
      ensures rows == Touch(old(rows), id, Stamp(lastSeen), Stamp(expires)) && UniqueTokens(rows)
      ensures rows.Keys == old(rows).Keys
    {
      TouchKeepsUnique(rows, id, Stamp(lastSeen), Stamp(expires));
      if id in rows {
        rows := rows[id := rows[id].(lastSeen := Stamp(lastSeen), expires := Stamp(expires))];
      }
    }

    method DeleteSession(id: string)
      requires UniqueTokens(rows)
      modifies this
      ensures rows == Delete(old(rows), id) && UniqueTokens(rows)
    {
      rows := rows - {id};
    }

    method DeleteSessionByToken(hash: string)
      requires UniqueTokens(rows)
      modifies this
      ensures rows == DeleteHash(old(rows), hash) && UniqueTokens(rows)
    {
      rows := map id | id in rows && rows[id].tokenHash != hash :: rows[id];
    }

    /** The sweep, and how many rows it took. */
    method DeleteExpiredSessions(now: int) returns (n: nat)
      requires UniqueTokens(rows)
      modifies this
      ensures rows == Sweep(old(rows), Stamp(now)) && UniqueTokens(rows)
      ensures n == |old(rows)| - |rows|
    {
      var kept := map id | id in rows && !LessEq(rows[id].expires, Stamp(now)) :: rows[id];
      CardSubset(kept.Keys, rows.Keys);
      n := |rows| - |kept|;
      rows := kept;
    }
  }

  /** What a stored instant reads back as. */
  function ReadBack(t: int): int {
    if InRange(t) then Trunc(t) else 0
  }

  lemma ReadRow(hash: string, s: Times)
    ensures TimesOf(Row(hash, Stamp(s.created), Stamp(s.lastSeen), Stamp(s.expires)))
         == Times(ReadBack(s.created), ReadBack(s.lastSeen), ReadBack(s.expires))
  {
    ReadStamp(s.created);
    ReadStamp(s.lastSeen);
    ReadStamp(s.expires);
  }

  /** A session signed in under a token is found by it with its three instants, each to the
      second; a touch then shows in the two it names, and in no other session; and deleting it
      makes the token unknown. */
  method StoredAndFound(store: Store, id: string, hash: string, s: Times, lastSeen: int, expires: int)
    returns (issued: Times, touched: Times, gone: Option<string>)
    requires UniqueTokens(store.rows) && !Taken(store.rows, id, hash)
    modifies store
    ensures issued == Times(ReadBack(s.created), ReadBack(s.lastSeen), ReadBack(s.expires))
    ensures touched == Times(ReadBack(s.created), ReadBack(lastSeen), ReadBack(expires))
    ensures gone == None && store.rows == old(store.rows)
  {
    hide Stamp;
    hide TimesOf;
    hide ReadBack;
    var found, none;
    var ok := store.CreateSession(id, hash, s);
    ReadRow(hash, s);
    assert store.rows[id].tokenHash == hash;
    found, issued := store.SessionByToken(hash);
    store.TouchSession(id, lastSeen, expires);
    ReadRow(hash, Times(s.created, lastSeen, expires));
    assert store.rows[id].tokenHash == hash;
    found, touched := store.SessionByToken(hash);
    store.DeleteSession(id);
    gone, none := store.SessionByToken(hash);
  }

  // ----- The sweep and the check on read agree -----

  /** A row whose instants the store wrote itself. */
  ghost predicate Written(r: Row) {
    exists c, l, e :: InRange(c) && InRange(l) && InRange(e)
      && r.created == Stamp(c) && r.lastSeen == Stamp(l) && r.expires == Stamp(e)
  }

  predicate Swept(r: Row, now: int) {
    LessEq(r.expires, Stamp(now))
  }

  /** The sweep removes exactly those rows and changes no other. */
  lemma SweepTakes(t: Table, now: int, id: string)
    ensures id in Sweep(t, Stamp(now)) <==> id in t && !Swept(t[id], now)
    ensures id in Sweep(t, Stamp(now)) ==> Sweep(t, Stamp(now))[id] == t[id]
  {
  }

  lemma TruncVersus(e: int, now: int)
    ensures Trunc(e) <= Trunc(now) <==> Trunc(e) <= now
  {
  }

  lemma StampVersus(e: int, now: int)
    requires InRange(e) && InRange(now)
    ensures LessEq(Stamp(e), Stamp(now)) <==> Trunc(e) <= now
  {
    StampsInOrder(e, now);
    TruncVersus(e, now);
  }

  /** An instant outside the four-digit years reads back as the zero time. */
  lemma ReadStamp(t: int)
    ensures Read(Stamp(t)) == if InRange(t) then Trunc(t) else 0
  {
    ParseStamp(t);
  }

  /** The text comparison of the sweep decides what a comparison of instants would. */
  lemma SweptMeansExpired(r: Row, now: int)
    requires Written(r) && InRange(now)
    ensures Swept(r, now) <==> TimesOf(r).expires <= now
  {
    var c, l, e :| InRange(c) && InRange(l) && InRange(e)
      && r.created == Stamp(c) && r.lastSeen == Stamp(l) && r.expires == Stamp(e);
    StampVersus(e, now);
    ReadStamp(e);
  }

  /** Which rows the sweep and the read check treat differently. The sweep takes a row that
      would still authenticate only if its expiry is the zero time, which Live reads as
      "unknown"; and it leaves a rejected row only while the row is past its cap but not yet
      past its stored expiry. */
  lemma SweepVersusLive(p: Policy, r: Row, now: int)
    requires p.Fits() && Written(r) && InRange(now)
    ensures var s, cap := TimesOf(r), TimesOf(r).created + p.WithDefaults().maxLifetime;
      && (Swept(r, now) && p.Live(s, now) <==> s.expires == 0 <= now && (s.created == 0 || now < cap))
      && (!Swept(r, now) && !p.Live(s, now) <==> s.created != 0 && cap <= now < s.expires)
  {
    SweptMeansExpired(r, now);
    LiveMeans(p, TimesOf(r), now);
  }

  /** With a known expiry inside the cap the two agree row by row at every instant. */
  lemma SweepAgreesWithLive(p: Policy, r: Row, now: int)
    requires p.Fits() && Written(r) && InRange(now) && TimesOf(r).expires != 0
    requires TimesOf(r).created != 0 ==> TimesOf(r).expires <= TimesOf(r).created + p.WithDefaults().maxLifetime
    ensures Swept(r, now) <==> !p.Live(TimesOf(r), now)
  {
    SweepVersusLive(p, r, now);
  }

  // ----- Sliding renewal -----

  /** What a session's stored instants become when it is issued at `now`. */
  function Issued(p: Policy, now: int): Times {
    Times(Trunc(now), Trunc(now), Trunc(p.ExpiryFor(now, now)))
  }

  /** One authenticated request: the check, and the touch when one is due. */
  function Visit(p: Policy, s: Times, now: int): Times {
    if p.NeedsTouch(s, now) then s.(lastSeen := Trunc(now), expires := Trunc(p.ExpiryFor(s.created, now))) else s
  }

  /** The requests at the given instants all find the session live. */
  predicate AllLive(p: Policy, s: Times, visits: seq<int>)
    decreases |visits|
  {
    visits != [] ==> p.Live(s, visits[0]) && AllLive(p, Visit(p, s, visits[0]), visits[1..])
  }

  /** The requests among these, one after another, that write to the store. */
  function Writes(p: Policy, s: Times, visits: seq<int>): seq<int>
    decreases |visits|
  {
    if visits == [] then []
    else (if p.NeedsTouch(s, visits[0]) then [visits[0]] else []) + Writes(p, Visit(p, s, visits[0]), visits[1..])
  }

  /** The touch interval is kept between two writes, always, exactly when the first one falls on
      a whole second: the store drops the fraction of its instant, so the next write may come
      up to a second early, though never by a full one. */
  lemma GapExactlyWhen(p: Policy, s: Times, a: int)
    requires p.Fits() && p.NeedsTouch(s, a)
    ensures (forall b :: p.NeedsTouch(Visit(p, s, a), b) ==> b - a >= p.WithDefaults().touchInterval) <==> a % SECOND == 0
    ensures forall b :: p.NeedsTouch(Visit(p, s, a), b) ==> b - a > p.WithDefaults().touchInterval - SECOND
  {
    var next, gap := Visit(p, s, a), p.WithDefaults().touchInterval;
    TruncAdd(a, 0);
    forall b
      ensures p.NeedsTouch(next, b) <==> gap <= b - Trunc(a)
    {
      NeedsTouchMeans(p, next, b);
    }
    assert a == Trunc(a) + a % SECOND;
    assert p.NeedsTouch(next, Trunc(a) + gap);
  }

  /** Each write lies at least `gap` after the one before as it was stored, the first one after
      the stored instant `from`. */
  predicate Spaced(gap: int, from: int, writes: seq<int>)
    decreases |writes|
  {
    writes != [] ==> gap <= writes[0] - from && Spaced(gap, Trunc(writes[0]), writes[1..])
  }

  /** Reads stay reads: over any sequence of requests, each write comes at least the touch
      interval after the stored instant of the write before it. */
  lemma {:induction false} TouchesAreSpaced(p: Policy, s: Times, visits: seq<int>)
    requires p.Fits()
    ensures Spaced(p.WithDefaults().touchInterval, s.lastSeen, Writes(p, s, visits))
    decreases |visits|
  {
    if visits != [] {
      var rest := Writes(p, Visit(p, s, visits[0]), visits[1..]);
      NeedsTouchMeans(p, s, visits[0]);
      TouchesAreSpaced(p, Visit(p, s, visits[0]), visits[1..]);
      if p.NeedsTouch(s, visits[0]) {
        assert Writes(p, s, visits) == [visits[0]] + rest;
        assert ([visits[0]] + rest)[1..] == rest;
      } else {
        assert [] + rest == rest;
      }
    }
  }

  /** So two writes in a row are less than a second short of the interval at most, and not
      short at all when the first one falls on a whole second. */
  lemma {:induction false} GapsBetweenWrites(gap: int, from: int, writes: seq<int>, i: nat)
    requires Spaced(gap, from, writes) && i + 1 < |writes|
    ensures writes[i + 1] - writes[i] > gap - SECOND
    ensures writes[i] % SECOND == 0 ==> writes[i + 1] - writes[i] >= gap
    decreases |writes|
  {
    TruncAdd(writes[i], 0);
    if i > 0 {
      GapsBetweenWrites(gap, Trunc(writes[0]), writes[1..], i - 1);
    } else {
      assert Spaced(gap, Trunc(writes[0]), writes[1..]);
      assert writes[0] == Trunc(writes[0]) + writes[0] % SECOND;
    }
  }

  /** Two inputs on which the promised gap is missed: an hour under the default policy, and a
      second and a half, where three writes come within two seconds of the first. */
  lemma GapCanBeMissed()
    ensures Writes(Policy(0, 0, 0), Times(SECOND, SECOND, 0), [3602 * SECOND - 1, 7201 * SECOND])
         == [3602 * SECOND - 1, 7201 * SECOND]
    ensures 7201 * SECOND - (3602 * SECOND - 1) < DEFAULT_TOUCH_INTERVAL
    ensures Writes(Policy(0, 0, 1_500_000_000), Times(SECOND, SECOND, 0), [2_500_000_000, 3_500_000_000, 4_500_000_000])
         == [2_500_000_000, 3_500_000_000, 4_500_000_000]
  {
    var p, s := Policy(0, 0, 0), Times(SECOND, SECOND, 0);
    WriteFirst(p, s, 3602 * SECOND - 1, [7201 * SECOND]);
    WriteFirst(p, Visit(p, s, 3602 * SECOND - 1), 7201 * SECOND, []);
    var q := Policy(0, 0, 1_500_000_000);
    var t := Visit(q, s, 2_500_000_000);
    WriteFirst(q, s, 2_500_000_000, [3_500_000_000, 4_500_000_000]);
    WriteFirst(q, t, 3_500_000_000, [4_500_000_000]);
    WriteFirst(q, Visit(q, t, 3_500_000_000), 4_500_000_000, []);
    assert [2_500_000_000] + [3_500_000_000, 4_500_000_000] == [2_500_000_000, 3_500_000_000, 4_500_000_000];
  }

  lemma WriteFirst(p: Policy, s: Times, a: int, rest: seq<int>)
    requires p.NeedsTouch(s, a)
    ensures Writes(p, s, [a] + rest) == [a] + Writes(p, Visit(p, s, a), rest)
  {
    assert ([a] + rest)[1..] == rest;
  }

  /** How far the true last visit may be ahead of the stored one: the touch interval, but at
      least the second that storing drops. */
  function Lag(p: Policy): int {
    var q := p.WithDefaults();
    if q.touchInterval < SECOND then SECOND else q.touchInterval
  }

  /** The longest gap between requests that a session survives by itself: a whole-second TTL
      loses nothing to storage, another one up to a second. */
  function SafeGap(p: Policy): int {
    var q := p.WithDefaults();
    q.ttl - Lag(p) - if q.ttl % SECOND == 0 then 0 else SECOND
  }

  /** In the fields as they were set: a TTL and a touch interval in whole seconds leave gaps of
      their difference, and thirty days less an hour if neither is set. */
  lemma SafeGapMeans(p: Policy)
    ensures 0 < p.ttl && p.ttl % SECOND == 0 && SECOND <= p.touchInterval ==> SafeGap(p) == p.ttl - p.touchInterval
    ensures p.ttl <= 0 && p.touchInterval <= 0 ==> SafeGap(p) == THIRTY_DAYS - ONE_HOUR
  {
  }

  predicate GapsWithin(from: int, visits: seq<int>, gap: int)
    decreases |visits|
  {
    visits != [] ==> from <= visits[0] <= from + gap && GapsWithin(visits[0], visits[1..], gap)
  }

  /** A session last visited at `at`: seen recently enough, and expiring late enough. */
  ghost predicate Fresh(p: Policy, s: Times, at: int) {
    var q := p.WithDefaults();
    && 0 < s.created && s.lastSeen <= at < s.lastSeen + Lag(p)
    && (s.lastSeen + Lag(p) + SafeGap(p) <= s.expires || Trunc(s.created + q.maxLifetime) <= s.expires)
  }

  lemma TruncAdd(t: int, d: int)
    ensures t - SECOND < Trunc(t) <= t
    ensures d % SECOND == 0 ==> Trunc(t + d) == Trunc(t) + d
    ensures Trunc(Trunc(t) + d) <= Trunc(t + d)
  {
    if d % SECOND == 0 {
      assert d == d / SECOND * SECOND;
      assert (t + d) / SECOND == t / SECOND + d / SECOND;
    }
  }

  lemma IssuedIsFresh(p: Policy, now: int)
    requires p.Fits() && SECOND <= now
    ensures Fresh(p, Issued(p, now), now)
  {
    TruncAdd(now, p.WithDefaults().ttl);
    TruncAdd(now + p.WithDefaults().ttl, 0);
    TruncAdd(now, p.WithDefaults().maxLifetime);
  }

  lemma VisitKeepsFresh(p: Policy, s: Times, at: int, now: int)
    requires p.Fits()
    requires Fresh(p, s, at) && at <= now <= at + SafeGap(p)
    requires now < Trunc(s.created + p.WithDefaults().maxLifetime)
    ensures p.Live(s, now) && Fresh(p, Visit(p, s, now), now) && Visit(p, s, now).created == s.created
  {
    LiveMeans(p, s, now);
    if p.NeedsTouch(s, now) {
      TruncAdd(now, p.WithDefaults().ttl);
      TruncAdd(now + p.WithDefaults().ttl, 0);
    }
  }

  lemma {:induction false} FreshStaysLive(p: Policy, s: Times, at: int, visits: seq<int>)
    requires p.Fits() && Fresh(p, s, at)
    requires GapsWithin(at, visits, SafeGap(p))
    requires forall i :: 0 <= i < |visits| ==> visits[i] < Trunc(s.created + p.WithDefaults().maxLifetime)
    ensures AllLive(p, s, visits)
    decreases |visits|
  {
    if visits != [] {
      VisitKeepsFresh(p, s, at, visits[0]);
      FreshStaysLive(p, Visit(p, s, visits[0]), visits[0], visits[1..]);
    }
  }

  /** A session visited at gaps of at most TTL - TouchInterval stays live right up to its
      absolute cap (with a TTL in whole seconds, a second less for any other; an interval
      below a second counts as one). */
  lemma ActiveSessionLivesToItsCap(p: Policy, issued: int, visits: seq<int>)
    requires p.Fits() && SECOND <= issued
    requires GapsWithin(issued, visits, SafeGap(p))
    requires forall i :: 0 <= i < |visits| ==> visits[i] < Trunc(Trunc(issued) + p.WithDefaults().maxLifetime)
    ensures AllLive(p, Issued(p, issued), visits)
  {
    IssuedIsFresh(p, issued);
    FreshStaysLive(p, Issued(p, issued), issued, visits);
  }
}
