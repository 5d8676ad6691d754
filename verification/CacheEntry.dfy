/** The cache as one caller sees it: the critical sections of an entry, the bounded
    key directory, and a Fetch that nobody interferes with.

    Each critical section is a function on the entry's fields. The classes below update
    their fields in place and are tied to these functions by their contracts; the
    interleaving of the same functions is the subject of CacheProtocol. */
module CacheEntry {
  import opened Prelude

  /** A cached value: its dynamic type and its content. */
  datatype Value = Value(tag: int, data: int)

  datatype Status = Status(failed: bool, fetchedAt: int)

  /** What a caller's fetch function did. An error still hands back a value. */
  datatype FnOutcome = Good(value: Value) | Bad(degraded: Value) | Panicked

  /** Instants and durations are nanoseconds. */
  const RETRY_BACKOFF: int := 5_000_000_000

  /** The fields an entry's own lock guards. */
  datatype Fields = Fields(val: Value, expires: int, loaded: bool, refreshing: bool,
                           failed: bool, fetchedAt: int, gen: nat)

  const BLANK: Fields := Fields(Value(0, 0), 0, false, false, false, 0, 0)

  datatype LoadResult = Miss | Mismatch | Hit(value: Value, status: Status, spawn: bool)

  /** Reading an entry. A stale read claims the refresh if no one holds the claim. */
  function Load(f: Fields, tag: int, now: int): (Fields, LoadResult) {
    if !f.loaded then (f, Miss)
    else if f.val.tag != tag then (f, Mismatch)
    else
      var st := Status(f.failed, f.fetchedAt);
      if now < f.expires then (f, Hit(f.val, st, false))
      else if !f.refreshing then (f.(refreshing := true), Hit(f.val, st, true))
      else (f, Hit(f.val, st, false))
  }

  /** The half of Invalidate that runs under the entry's lock. */
  function Bump(f: Fields): Fields {
    f.(loaded := false, gen := f.gen + 1)
  }

  /** A new value becomes the entry's, at instant `at`. */
  function Publish(f: Fields, v: Value, at: int, ttl: int): Fields {
    f.(val := v, expires := at + ttl, loaded := true, failed := false, fetchedAt := at)
  }

  /** The cold path publishes only if no Invalidate came since it captured `gen`. */
  function PublishCold(f: Fields, gen: nat, v: Value, at: int, ttl: int): Fields {
    if f.gen == gen then Publish(f, v, at, ttl) else f
  }

  /** The end of a background revalidation that captured `gen`. */
  function Finish(f: Fields, gen: nat, out: Option<Value>, now: int, ttl: int): Fields {
    var g := f.(refreshing := false);
    if f.gen != gen then g
    else match out
      case Some(v) => Publish(g, v, now, ttl)
      case None => g.(failed := true, expires := now + RETRY_BACKOFF)
  }

  /** A revalidation counts as successful only if fn returned without error or panic. */
  function Outcome(out: FnOutcome): Option<Value> {
    match out
    case Good(v) => Some(v)
    case Bad(_) => None
    case Panicked => None
  }

  // ----- A burst of readers -----

  /** Reads of one entry at the given instants, nothing else in between: the final fields,
      and how many of the readers were told to start a revalidation. */
  function Burst(f: Fields, tag: int, nows: seq<int>): (Fields, nat)
    decreases |nows|
  {
    if nows == [] then (f, 0)
    else
      var (g, r) := Load(f, tag, nows[0]);
      var (h, n) := Burst(g, tag, nows[1..]);
      (h, n + if r.Hit? && r.spawn then 1 else 0)
  }

  /** Any burst of reads on a stale key starts exactly one revalidation, or none when one
      is already claimed; it never changes what readers are served. */
  lemma {:induction false} BurstStartsOne(f: Fields, tag: int, nows: seq<int>)
    requires f.loaded && f.val.tag == tag
    requires nows != [] && forall i :: 0 <= i < |nows| ==> f.expires <= nows[i]
    ensures Burst(f, tag, nows).1 == if f.refreshing then 0 else 1
    ensures Burst(f, tag, nows).0 == f.(refreshing := true)
    decreases |nows|
  {
    var (g, r) := Load(f, tag, nows[0]);
    if |nows| > 1 {
      BurstStartsOne(g, tag, nows[1..]);
    }
  }

  /** A value that has been published is served, unchanged and without a new revalidation,
      for exactly its ttl. */
  lemma PublishedServedForTtl(f: Fields, v: Value, at: int, ttl: int, now: int)
    ensures Load(Publish(f, v, at, ttl), v.tag, now).1
         == Hit(v, Status(false, at), at + ttl <= now && !f.refreshing)
  {
  }

  /** A failed revalidation keeps the last good value with its own timestamp, says so, and
      shields the upstream for exactly five seconds; the next reader after them retries. */
  lemma FailureShields(f: Fields, now: int, ttl: int, at: int)
    requires f.loaded
    ensures Load(Finish(f, f.gen, None, now, ttl), f.val.tag, at).1
         == Hit(f.val, Status(true, f.fetchedAt), now + 5_000_000_000 <= at)
  {
  }

  /** What may happen to an entry after an Invalidate: reads, and the ends of cold fetches and
      revalidations that had captured a generation. */
  datatype Access =
    | Reading(tag: int, now: int)
    | Storing(gen: nat, v: Value, at: int, ttl: int)
    | Ending(gen: nat, out: Option<Value>, now: int, ttl: int)

  function AfterAccess(f: Fields, a: Access): Fields {
    match a
    case Reading(tag, now) => Load(f, tag, now).0
    case Storing(gen, v, at, ttl) => PublishCold(f, gen, v, at, ttl)
    case Ending(gen, out, now, ttl) => Finish(f, gen, out, now, ttl)
  }

  function AfterAll(f: Fields, accesses: seq<Access>): Fields {
    if accesses == [] then f
    else AfterAccess(AfterAll(f, accesses[..|accesses| - 1]), accesses[|accesses| - 1])
  }

  /** The fetch or revalidation had begun by generation `gen`. */
  predicate Begun(a: Access, gen: nat) {
    !a.Reading? ==> a.gen <= gen
  }

  /** However many fetches and revalidations finish that had begun before an Invalidate, and
      whoever reads in between, the key stays cold and in the new generation. */
  lemma {:induction false} InvalidatedStaysCold(f: Fields, accesses: seq<Access>)
    requires forall i :: 0 <= i < |accesses| ==> Begun(accesses[i], f.gen)
    ensures var g := AfterAll(Bump(f), accesses);
      !g.loaded && g.gen == f.gen + 1
  {
    if accesses != [] {
      InvalidatedStaysCold(f, accesses[..|accesses| - 1]);
    }
  }

  // ----- The key directory -----

  /** The youngest `max` keys of an insertion order. */
  function Trim(order: seq<string>, max: nat): (r: seq<string>)
    ensures |r| <= max && |r| <= |order|
  {
    if |order| > max then order[|order| - max..] else order
  }

  /** The order after a lookup of `key` that inserts it when absent. */
  function Touch(order: seq<string>, key: string, max: nat): seq<string> {
    if key in order then order else Trim(order + [key], max)
  }

  /** The order after a whole sequence of lookups. */
  function OrderAfter(keys: seq<string>, max: nat): seq<string> {
    if keys == [] then [] else Touch(OrderAfter(keys[..|keys| - 1], max), keys[|keys| - 1], max)
  }

  /** Some of the last `max` entries of the log is the key. */
  predicate Recent(log: seq<string>, key: string, max: nat) {
    exists i :: 0 <= i < |log| && |log| - max <= i && log[i] == key
  }

  /** Reference: every insertion ever made. A lookup inserts exactly when its key is not
      among the last `max` insertions. */
  function InsertionsOf(keys: seq<string>, max: nat): seq<string> {
    if keys == [] then []
    else
      var log := InsertionsOf(keys[..|keys| - 1], max);
      if Recent(log, keys[|keys| - 1], max) then log else log + [keys[|keys| - 1]]
  }

  lemma TouchKeepsOrder(order: seq<string>, key: string, max: nat)
    requires NoDup(order) && |order| <= max && 1 <= max
    ensures NoDup(Touch(order, key, max)) && |Touch(order, key, max)| <= max
    ensures key in Touch(order, key, max)
    ensures forall k :: k in Touch(order, key, max) ==> k in order || k == key
  {
    var r := Touch(order, key, max);
    if key !in order {
      assert r[|r| - 1] == key;
      assert forall x :: x in r ==> x in order + [key];
    }
  }

  /** Trimming before an insertion does not change what is left after it. */
  lemma TrimTrim(log: seq<string>, key: string, max: nat)
    requires 1 <= max
    ensures Trim(Trim(log, max) + [key], max) == Trim(log + [key], max)
  {
  }

  lemma RecentMeans(log: seq<string>, key: string, max: nat)
    ensures Recent(log, key, max) <==> key in Trim(log, max)
  {
    if key in Trim(log, max) {
      var i :| 0 <= i < |Trim(log, max)| && Trim(log, max)[i] == key;
      assert log[|log| - |Trim(log, max)| + i] == key;
    }
    if Recent(log, key, max) {
      var i :| 0 <= i < |log| && |log| - max <= i && log[i] == key;
      assert Trim(log, max)[i - (|log| - |Trim(log, max)|)] == key;
    }
  }

  lemma {:induction false} OrderIsTrimmedLog(keys: seq<string>, max: nat)
    requires 1 <= max
    ensures OrderAfter(keys, max) == Trim(InsertionsOf(keys, max), max)
  {
    if keys != [] {
      OrderIsTrimmedLog(keys[..|keys| - 1], max);
      RecentMeans(InsertionsOf(keys[..|keys| - 1], max), keys[|keys| - 1], max);
      TrimTrim(InsertionsOf(keys[..|keys| - 1], max), keys[|keys| - 1], max);
    }
  }

  lemma {:induction false} OrderNoDup(keys: seq<string>, max: nat)
    requires 1 <= max
    ensures NoDup(OrderAfter(keys, max)) && |OrderAfter(keys, max)| <= max
    ensures keys != [] ==> keys[|keys| - 1] in OrderAfter(keys, max)
  {
    if keys != [] {
      OrderNoDup(keys[..|keys| - 1], max);
      TouchKeepsOrder(OrderAfter(keys[..|keys| - 1], max), keys[|keys| - 1], max);
    }
  }

  /** The retained keys are the last `max` insertions, for every sequence of lookups: no
      duplicates, never over the cap, full once enough keys were inserted, and the key just
      looked up is always among them. */
  lemma DirectoryIsFifo(keys: seq<string>, max: nat)
    requires 1 <= max
    ensures var order, log := OrderAfter(keys, max), InsertionsOf(keys, max);
      && |order| == (if |log| < max then |log| else max) && order == log[|log| - |order|..]
    ensures NoDup(OrderAfter(keys, max))
    ensures keys != [] ==> keys[|keys| - 1] in OrderAfter(keys, max)
  {
    OrderIsTrimmedLog(keys, max);
    OrderNoDup(keys, max);
  }

  /** A lookup of an absent key goes to the young end and, in a full directory, pushes out the
      oldest key and no other. */
  lemma LookupEvictsTheOldest(order: seq<string>, key: string, max: nat)
    requires 1 <= max && |order| <= max
    ensures Touch(order, key, max) ==
      if key in order then order else if |order| < max then order + [key] else order[1..] + [key]
  {
  }

  lemma OldestGoes(order: seq<string>)
    requires NoDup(order) && order != []
    ensures NoDup(order[1..]) && forall k :: k in order[1..] <==> k in order && k != order[0]
  {
    assert order == [order[0]] + order[1..];
  }

  // ----- The objects -----

  class Entry {
    var val: Value
    var expires: int
    var loaded: bool
    var refreshing: bool
    var failed: bool
    var fetchedAt: int
    var gen: nat

    ghost const name: string // the key the entry was created for

    constructor (key: string)
      ensures View() == BLANK && name == key
    {
      name := key;
      val, expires, loaded := Value(0, 0), 0, false;
      refreshing, failed, fetchedAt, gen := false, false, 0, 0;
    }

    function View(): Fields
      reads this
    {
      Fields(val, expires, loaded, refreshing, failed, fetchedAt, gen)
    }

    method Read(tag: int, now: int) returns (r: LoadResult)
      modifies this
      ensures (View(), r) == Load(old(View()), tag, now)
    {
      if !loaded {
        return Miss;
      }
      if val.tag != tag {
        return Mismatch;
      }
      var st := Status(failed, fetchedAt);
      if now < expires {
        return Hit(val, st, false);
      }
      if !refreshing {
        refreshing := true;
        return Hit(val, st, true);
      }
      return Hit(val, st, false);
    }

    method Drop()
      modifies this
      ensures View() == Bump(old(View()))
    {
      loaded := false;
      gen := gen + 1;
    }

    method StoreCold(captured: nat, v: Value, now: int, ttl: int)
      modifies this
      ensures View() == PublishCold(old(View()), captured, v, now, ttl)
    {
      if gen == captured {
        val := v;
        expires := now + ttl;
        loaded := true;
        failed := false;
        fetchedAt := now;
      }
    }

    method EndRevalidation(captured: nat, v: Value, ok: bool, now: int, ttl: int)
      modifies this
      ensures View() == Finish(old(View()), captured, if ok then Some(v) else None, now, ttl)
    {
      refreshing := false;
      if gen != captured {
      } else if ok {
        val := v;
        expires := now + ttl;
        loaded := true;
        failed := false;
        fetchedAt := now;
      } else {
        failed := true;
        expires := now + RETRY_BACKOFF;
      }
    }
  }

  /** What one Fetch answered, whether it called fn, and whether it left a revalidation
      for a background goroutine. */
  datatype Answer = Answer(result: FetchResult, called: bool, spawned: bool)
  datatype FetchResult = Got(value: Value, status: Status) | Failed(degraded: Value) | WrongType | Unwound

  /** Fetch on an entry whose fields are `f`, with nobody else running: the answer and the
      entry's next fields. `at` is when a cold call returned. */
  function FetchAlone(f: Fields, tag: int, ttl: int, now: int, out: FnOutcome, at: int): (Fields, Answer) {
    var (g, r) := Load(f, tag, now);
    match r
    case Mismatch => (g, Answer(WrongType, false, false))
    case Hit(v, st, spawn) => (g, Answer(Got(v, st), false, spawn))
    case Miss =>
      match out
      case Good(v) => (Publish(g, v, at, ttl), Answer(Got(v, Status(false, at)), true, false))
      case Bad(v) => (g, Answer(Failed(v), true, false))
      case Panicked => (g, Answer(Unwound, true, false))
  }

  /** What a Fetch nobody interferes with does, in the fields themselves: a value of another
      type is left alone; a fresh one is served as it is; a stale one is served and its refresh
      claimed by the first reader; and a cold one is fetched, and kept only if fn succeeded. */
  lemma FetchAloneMeans(f: Fields, tag: int, ttl: int, now: int, out: FnOutcome, at: int)
    ensures var (g, a) := FetchAlone(f, tag, ttl, now, out, at);
      if f.loaded then
        if f.val.tag != tag then g == f && a == Answer(WrongType, false, false)
        else
          && a == Answer(Got(f.val, Status(f.failed, f.fetchedAt)), false, f.expires <= now && !f.refreshing)
          && g == f.(refreshing := f.refreshing || f.expires <= now)
      else if out.Good? then
        && a == Answer(Got(out.value, Status(false, at)), true, false)
        && g == Fields(out.value, at + ttl, true, f.refreshing, false, at, f.gen)
      else g == f && a == Answer(if out.Bad? then Failed(out.degraded) else Unwound, true, false)
  {
  }

  class Cache {
    var entries: map<string, Entry>
    var order: seq<string>
    const maxEntries: nat

    constructor (max: nat)
      requires 1 <= max
      ensures Valid() && order == [] && maxEntries == max
    {
      entries, order, maxEntries := map[], [], max;
    }

    ghost predicate Valid()
      reads this
    {
      && 1 <= maxEntries
      && NoDup(order)
      && |order| <= maxEntries
      && (forall k :: k in entries <==> k in order)
      && (forall k :: k in entries ==> entries[k].name == k)
    }

    /** How many distinct keys are held: the length of the insertion order. */
    method Len() returns (n: nat)
      requires Valid()
      ensures n == |order|
    {
      NoDupCard(order);
      assert entries.Keys == Elems(order);
      n := |entries|;
    }

    method EntryFor(key: string) returns (e: Entry)
      requires Valid()
      modifies this
      ensures Valid() && order == Touch(old(order), key, maxEntries)
      ensures key in entries && entries[key] == e
      ensures if key in old(order) then e == old(entries)[key] else fresh(e) && e.View() == BLANK
      ensures forall k :: k in order && k != key ==> k in old(entries) && entries[k] == old(entries)[k]
    {
      if key in entries {
        return entries[key];
      }
      TouchKeepsOrder(order, key, maxEntries);
      e := new Entry(key);
      entries := entries[key := e];
      order := order + [key];
      assert order[..|order| - 1] == old(order);
      EvictOverCap();
    }

    /** The eviction loop at the end of a lookup: oldest keys go until the cap holds. */
    method EvictOverCap()
      requires forall k :: k in entries <==> k in order
      requires NoDup(order)
      modifies this
      ensures order == if |old(order)| > maxEntries then old(order)[|old(order)| - maxEntries..] else old(order)
      ensures forall k :: k in entries <==> k in order
      ensures forall k :: k in entries ==> k in old(entries) && entries[k] == old(entries)[k]
    {
      ghost var full := order;
      ghost var gone := 0;
      while |order| > maxEntries
        invariant gone <= |full| && order == full[gone..] && NoDup(order)
        invariant gone > 0 ==> |order| >= maxEntries
        invariant forall k :: k in entries <==> k in order
        invariant forall k :: k in entries ==> k in old(entries) && entries[k] == old(entries)[k]
        decreases |order|
      {
        var oldest := order[0];
        OldestGoes(order);
        order := order[1..];
        entries := entries - {oldest};
        gone := gone + 1;
      }
    }

    /** Invalidate drops the key's own value and no other key's. */
    method Invalidate(key: string)
      requires Valid()
      modifies this, entries.Values
      ensures Valid() && order == Touch(old(order), key, maxEntries) && key in entries
      ensures entries[key].View() == Bump(if key in old(order) then old(entries[key].View()) else BLANK)
      ensures forall k :: k in order && k != key ==>
        k in old(entries) && entries[k] == old(entries)[k] && entries[k].View() == old(entries[k].View())
    {
      var e := EntryFor(key);
      e.Drop();
    }

    /** The whole of Fetch when nobody interferes: load, and on a miss the gated re-check,
        the call and the publish. `out` is what fn does if it is called. */
    method FetchSolo(key: string, tag: int, ttl: int, now: int, recheck: int, out: FnOutcome, at: int)
      returns (a: Answer)
      requires Valid()
      modifies this, entries.Values
      ensures Valid() && order == Touch(old(order), key, maxEntries) && key in entries
      ensures if key in old(order) then entries[key] == old(entries)[key] else fresh(entries[key])
      ensures (entries[key].View(), a) ==
        FetchAlone(if key in old(order) then old(entries[key].View()) else BLANK, tag, ttl, now, out, at)
      ensures forall k :: k in order && k != key ==>
        k in old(entries) && entries[k] == old(entries)[k] && entries[k].View() == old(entries[k].View())
    {
      var e := EntryFor(key);
      var r := e.Read(tag, now);
      if r.Mismatch? {
        return Answer(WrongType, false, false);
      }
      if r.Hit? {
        return Answer(Got(r.value, r.status), false, r.spawn);
      }
      r := e.Read(tag, recheck);
      assert r.Miss?;
      var captured := e.gen;
      match out {
        case Bad(v) => return Answer(Failed(v), true, false);
        case Panicked => return Answer(Unwound, true, false);
        case Good(v) =>
          e.StoreCold(captured, v, at, ttl);
          return Answer(Got(v, Status(false, at)), true, false);
      }
    }
  }

  /** A Fetch of a key that is not held calls fn, and holds what it answered for `ttl`; an error
      or a panic is passed on and leaves the key cold. */
  method FetchCold(c: Cache, key: string, tag: int, ttl: int, now: int, recheck: int, out: FnOutcome, at: int)
    returns (a: Answer)
    requires c.Valid() && (key in c.entries ==> !c.entries[key].loaded)
    modifies c, c.entries.Values
    ensures c.Valid() && key in c.entries
    ensures forall k :: k in c.entries ==> fresh(c.entries[k]) || c.entries[k] in old(c.entries.Values)
    ensures match out
            case Good(v) =>
              && a == Answer(Got(v, Status(false, at)), true, false)
              && c.entries[key].loaded && c.entries[key].val == v && c.entries[key].fetchedAt == at
              && c.entries[key].expires == at + ttl && !c.entries[key].failed
            case Bad(v) => a == Answer(Failed(v), true, false) && !c.entries[key].loaded
            case Panicked => a == Answer(Unwound, true, false) && !c.entries[key].loaded
  {
    hide NoDup;
    hide Touch;
    a := c.FetchSolo(key, tag, ttl, now, recheck, out, at);
  }

  /** A Fetch of a value that is fresh serves it without calling fn, and changes nothing. */
  method FetchWarm(c: Cache, key: string, tag: int, ttl: int, now: int, recheck: int, out: FnOutcome, at: int)
    returns (a: Answer)
    requires c.Valid() && key in c.entries && c.entries[key].loaded
    requires c.entries[key].val.tag == tag && now < c.entries[key].expires
    modifies c, c.entries.Values
    ensures c.Valid() && key in c.entries && c.entries[key] == old(c.entries)[key]
    ensures c.entries[key].View() == old(c.entries[key].View())
    ensures a == Answer(Got(c.entries[key].val, Status(c.entries[key].failed, c.entries[key].fetchedAt)), false, false)
  {
    hide NoDup;
    hide Touch;
    a := c.FetchSolo(key, tag, ttl, now, recheck, out, at);
  }

  /** Fetched once, served for its whole ttl: after a cold Fetch that fn answered with `v`, every
      Fetch of that type before `at + ttl` answers `v` without calling fn. */
  method FetchTwice(c: Cache, key: string, v: Value, ttl: int, now: int, recheck: int, at: int,
                    ttl2: int, now2: int, recheck2: int, out2: FnOutcome, at2: int)
    returns (a: Answer, b: Answer)
    requires c.Valid() && (key in c.entries ==> !c.entries[key].loaded)
    requires now2 < at + ttl
    modifies c, c.entries.Values
    ensures c.Valid() && key in c.entries
    ensures c.entries[key].loaded && c.entries[key].val == v && c.entries[key].fetchedAt == at
    ensures c.entries[key].expires == at + ttl && !c.entries[key].failed
    ensures a == Answer(Got(v, Status(false, at)), true, false)
    ensures b == Answer(Got(v, Status(false, at)), false, false)
  {
    hide NoDup;
    a := FetchCold(c, key, v.tag, ttl, now, recheck, Good(v), at);
    b := FetchWarm(c, key, v.tag, ttl2, now2, recheck2, out2, at2);
  }

  /** Errors are not cached: after a cold Fetch that failed, or that fn panicked in, the next one
      calls fn again. */
  method FetchAfterFailure(c: Cache, key: string, tag: int, ttl: int, now: int, recheck: int, out: FnOutcome, at: int,
                           v: Value, now2: int, recheck2: int, at2: int)
    returns (a: Answer, b: Answer)
    requires c.Valid() && (key in c.entries ==> !c.entries[key].loaded) && !out.Good?
    modifies c, c.entries.Values
    ensures c.Valid()
    ensures a == Answer(if out.Bad? then Failed(out.degraded) else Unwound, true, false)
    ensures b == Answer(Got(v, Status(false, at2)), true, false)
  {
    hide NoDup;
    a := FetchCold(c, key, tag, ttl, now, recheck, out, at);
    b := FetchCold(c, key, v.tag, ttl, now2, recheck2, Good(v), at2);
  }
}
