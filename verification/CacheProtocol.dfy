/** The cache under concurrency.

    A state holds the directory, every entry ever created (eviction only removes it from
    the directory; goroutines keep their reference), and every Fetch, Invalidate and
    background revalidation with its program counter. One event is one critical section,
    one call boundary of fn, or the passing of time. `t` counts events, so it dates them;
    the fields marked history are never read by an event's guard or by what the code does. */
module CacheProtocol {
  import opened Prelude
  import opened CacheEntry

  type Id = nat

  /** What happened to an entry's value, oldest first (history). */
  datatype Mark =
    | Published(val: Value, at: int, ttl: int, start: nat)
    | RevalFailed(at: int)

  datatype Node = Node(
    f: Fields,
    gate: Option<Id>,  // the fetch that holds the cold-path lock
    bar: nat,          // history: when the entry was created or last invalidated
    marks: seq<Mark>)  // history

  /** What a Fetch hands its caller; `start` dates the fn call the value came from (history). */
  datatype Reply =
    | Served(val: Value, st: Status, start: nat)
    | Error(degraded: Value, start: nat)
    | BadType
    | Panic

  /** The answer of fn that a reply passes on. */
  function Handed(r: Reply): Option<FnOutcome> {
    match r
    case Served(v, _, _) => Some(Good(v))
    case Error(v, _) => Some(Bad(v))
    case _ => None
  }

  datatype FetchPc =
    | FStart
    | FHave(e: Id)
    | FQueued(e: Id)
    | FGated(e: Id)
    | FCold(e: Id)
    | FCaptured(e: Id, gen: nat)
    | FCalling(e: Id, gen: nat, start: nat)
    | FFetched(e: Id, gen: nat, start: nat, val: Value, at: int)
    | FReplying(e: Id, reply: Reply)
    | FDone(e: Id, reply: Reply)

  datatype FetchOp = FetchOp(key: string, tag: int, ttl: int, invoked: nat, pc: FetchPc)

  datatype InvalPc = IStart | IHave(e: Id) | IDone(e: Id, returned: nat)

  datatype InvalOp = InvalOp(key: string, invoked: nat, pc: InvalPc)

  datatype RevalPc =
    | RSpawned
    | RCaptured(gen: nat)
    | RCalling(gen: nat, start: nat)
    | RReplied(gen: nat, start: nat, out: Option<Value>)
    | RGone

  datatype RevalOp = RevalOp(e: Id, tag: int, ttl: int, pc: RevalPc)

  datatype State = State(
    max: nat,
    now: int,
    t: nat,
    order: seq<string>,
    dir: map<string, Id>,
    nodes: map<Id, Node>,
    fetches: map<Id, FetchOp>,
    invals: map<Id, InvalOp>,
    revals: map<Id, RevalOp>)

  datatype Event =
    | Tick(d: nat)
    | FetchInvoke(o: Id, key: string, tag: int, ttl: int)
    | FetchEntry(o: Id, made: Id)
    | FetchLoad(o: Id, r: Id)
    | FetchGate(o: Id)
    | FetchRecheck(o: Id)
    | FetchCapture(o: Id)
    | FetchCall(o: Id)
    | FetchAnswer(o: Id, out: FnOutcome)
    | FetchPublish(o: Id)
    | FetchReturn(o: Id)
    | InvalInvoke(o: Id, key: string)
    | InvalEntry(o: Id, made: Id)
    | InvalBump(o: Id)
    | RevalCapture(r: Id)
    | RevalCall(r: Id)
    | RevalAnswer(r: Id, out: FnOutcome)
    | RevalFinish(r: Id)

  function Init(max: nat, now: int): State {
    State(max, now, 0, [], map[], map[], map[], map[], map[])
  }

  // ----- Helpers of the steps -----

  function EntryOf(pc: FetchPc): Option<Id> {
    match pc
    case FStart => None
    case FHave(e) => Some(e)
    case FQueued(e) => Some(e)
    case FGated(e) => Some(e)
    case FCold(e) => Some(e)
    case FCaptured(e, _) => Some(e)
    case FCalling(e, _, _) => Some(e)
    case FFetched(e, _, _, _, _) => Some(e)
    case FReplying(e, _) => Some(e)
    case FDone(e, _) => Some(e)
  }

  /** The value an entry was last given. */
  function LastPublish(marks: seq<Mark>): Option<Mark> {
    if marks == [] then None
    else if marks[|marks| - 1].Published? then Some(marks[|marks| - 1])
    else LastPublish(marks[..|marks| - 1])
  }

  function StartOf(n: Node): nat {
    match LastPublish(n.marks)
    case Some(Published(_, _, _, start)) => start
    case _ => 0
  }

  predicate FetchAt(s: State, o: Id) {
    o in s.fetches && EntryOf(s.fetches[o].pc).Some? && EntryOf(s.fetches[o].pc).value in s.nodes
  }

  predicate RevalAt(s: State, r: Id) {
    r in s.revals && s.revals[r].e in s.nodes
  }

  function SetF(s: State, o: Id, pc: FetchPc): State
    requires o in s.fetches
  {
    s.(fetches := s.fetches[o := s.fetches[o].(pc := pc)])
  }

  function SetN(s: State, e: Id, n: Node): State {
    s.(nodes := s.nodes[e := n])
  }

  function SetI(s: State, o: Id, pc: InvalPc): State
    requires o in s.invals
  {
    s.(invals := s.invals[o := s.invals[o].(pc := pc)])
  }

  function SetR(s: State, r: Id, pc: RevalPc): State
    requires r in s.revals
  {
    s.(revals := s.revals[r := s.revals[r].(pc := pc)])
  }

  /** fn returns values of the type its caller asked for. */
  predicate Typed(out: FnOutcome, tag: int) {
    match out
    case Good(v) => v.tag == tag
    case Bad(v) => v.tag == tag
    case Panicked => true
  }

  // ----- The steps -----

  /** Which entry a lookup of `key` yields: the one in the directory, or `made`. */
  function Found(s: State, key: string, made: Id): Id {
    if key in s.dir then s.dir[key] else made
  }

  /** The directory's map once `key` was inserted and the order became `order`. */
  function Redirect(dir: map<string, Id>, order: seq<string>, key: string, made: Id): map<string, Id> {
    map k | k in dir.Keys + {key} && k in order :: if k == key then made else dir[k]
  }

  /** The directory after a lookup: an absent key is inserted and the oldest keys go. */
  function Lookup(s: State, key: string, made: Id): State {
    if key in s.dir then s
    else
      var order := Trim(s.order + [key], s.max);
      s.(order := order,
         dir := Redirect(s.dir, order, key, made),
         nodes := s.nodes[made := Node(BLANK, None, s.t, [])])
  }

  /** Where a fetch goes after loading entry `e`; a miss moves it to `miss`. */
  function Loaded(e: Id, n: Node, miss: FetchPc, res: LoadResult): FetchPc {
    match res
    case Miss => miss
    case Mismatch => FReplying(e, BadType)
    case Hit(v, st, _) => FReplying(e, Served(v, st, StartOf(n)))
  }

  /** A load by fetch `o`. A claimed refresh becomes the new revalidation `r`, or nobody's
      when `r` is None. */
  function LoadBy(s: State, o: Id, miss: FetchPc, r: Option<Id>): State
    requires FetchAt(s, o)
  {
    var op := s.fetches[o];
    var e := EntryOf(op.pc).value;
    var n := s.nodes[e];
    var (f, res) := Load(n.f, op.tag, s.now);
    s.(nodes := s.nodes[e := n.(f := f)],
       fetches := s.fetches[o := op.(pc := Loaded(e, n, miss, res))],
       revals := if res.Hit? && res.spawn && r.Some? then s.revals[r.value := RevalOp(e, op.tag, op.ttl, RSpawned)]
                 else s.revals)
  }

  /** The cold path's publish, with its mark. */
  function Stored(n: Node, gen: nat, val: Value, at: int, ttl: int, start: nat): Node {
    n.(f := PublishCold(n.f, gen, val, at, ttl),
       marks := if n.f.gen == gen then n.marks + [Published(val, at, ttl, start)] else n.marks)
  }

  function PublishBy(s: State, o: Id): State
    requires FetchAt(s, o) && s.fetches[o].pc.FFetched?
  {
    var op := s.fetches[o];
    var pc := op.pc;
    s.(nodes := s.nodes[pc.e := Stored(s.nodes[pc.e], pc.gen, pc.val, pc.at, op.ttl, pc.start)],
       fetches := s.fetches[o := op.(pc := FReplying(pc.e, Served(pc.val, Status(false, pc.at), pc.start)))])
  }

  /** Returning releases the gate if this fetch holds it. */
  function ReturnBy(s: State, o: Id): State
    requires FetchAt(s, o) && s.fetches[o].pc.FReplying?
  {
    var op := s.fetches[o];
    var n := s.nodes[op.pc.e];
    s.(nodes := s.nodes[op.pc.e := n.(gate := if n.gate == Some(o) then None else n.gate)],
       fetches := s.fetches[o := op.(pc := FDone(op.pc.e, op.pc.reply))])
  }

  function BumpBy(s: State, a: Id): State
    requires a in s.invals && s.invals[a].pc.IHave? && s.invals[a].pc.e in s.nodes
  {
    var op := s.invals[a];
    var n := s.nodes[op.pc.e];
    s.(nodes := s.nodes[op.pc.e := n.(f := Bump(n.f), bar := s.t)],
       invals := s.invals[a := op.(pc := IDone(op.pc.e, s.t))])
  }

  /** The end of a revalidation, with its mark. */
  function Finished(n: Node, gen: nat, out: Option<Value>, now: int, ttl: int, start: nat): Node {
    var mark := match out
      case Some(v) => Published(v, now, ttl, start)
      case None => RevalFailed(now);
    n.(f := Finish(n.f, gen, out, now, ttl),
       marks := if n.f.gen == gen then n.marks + [mark] else n.marks)
  }

  function FinishBy(s: State, r: Id): State
    requires RevalAt(s, r) && s.revals[r].pc.RReplied?
  {
    var op := s.revals[r];
    s.(nodes := s.nodes[op.e := Finished(s.nodes[op.e], op.pc.gen, op.pc.out, s.now, op.ttl, op.pc.start)],
       revals := s.revals[r := op.(pc := RGone)])
  }

  predicate Enabled(s: State, ev: Event) {
    match ev
    case Tick(_) => true
    case FetchInvoke(o, _, _, _) => o !in s.fetches
    case FetchEntry(o, made) => o in s.fetches && s.fetches[o].pc.FStart? && made !in s.nodes
    case FetchLoad(o, r) => FetchAt(s, o) && s.fetches[o].pc.FHave? && r !in s.revals
    case FetchGate(o) => FetchAt(s, o) && s.fetches[o].pc.FQueued? && s.nodes[s.fetches[o].pc.e].gate.None?
    case FetchRecheck(o) => FetchAt(s, o) && s.fetches[o].pc.FGated?
    case FetchCapture(o) => FetchAt(s, o) && s.fetches[o].pc.FCold?
    case FetchCall(o) => FetchAt(s, o) && s.fetches[o].pc.FCaptured?
    case FetchAnswer(o, out) => FetchAt(s, o) && s.fetches[o].pc.FCalling? && Typed(out, s.fetches[o].tag)
    case FetchPublish(o) => FetchAt(s, o) && s.fetches[o].pc.FFetched?
    case FetchReturn(o) => FetchAt(s, o) && s.fetches[o].pc.FReplying?
    case InvalInvoke(o, _) => o !in s.invals
    case InvalEntry(o, made) => o in s.invals && s.invals[o].pc.IStart? && made !in s.nodes
    case InvalBump(o) => o in s.invals && s.invals[o].pc.IHave? && s.invals[o].pc.e in s.nodes
    case RevalCapture(r) => RevalAt(s, r) && s.revals[r].pc.RSpawned?
    case RevalCall(r) => RevalAt(s, r) && s.revals[r].pc.RCaptured?
    case RevalAnswer(r, out) => RevalAt(s, r) && s.revals[r].pc.RCalling? && Typed(out, s.revals[r].tag)
    case RevalFinish(r) => RevalAt(s, r) && s.revals[r].pc.RReplied?
  }

  function Apply(s: State, ev: Event): State
    requires Enabled(s, ev)
  {
    match ev
    case Tick(d) => s.(now := s.now + d)
    case FetchInvoke(o, key, tag, ttl) =>
      s.(fetches := s.fetches[o := FetchOp(key, tag, ttl, s.t, FStart)])
    case FetchEntry(o, made) =>
      var key := s.fetches[o].key;
      SetF(Lookup(s, key, made), o, FHave(Found(s, key, made)))
    case FetchLoad(o, r) => LoadBy(s, o, FQueued(s.fetches[o].pc.e), Some(r))
    case FetchGate(o) =>
      var e := s.fetches[o].pc.e;
      SetF(SetN(s, e, s.nodes[e].(gate := Some(o))), o, FGated(e))
    case FetchRecheck(o) => LoadBy(s, o, FCold(s.fetches[o].pc.e), None)
    case FetchCapture(o) =>
      var e := s.fetches[o].pc.e;
      SetF(s, o, FCaptured(e, s.nodes[e].f.gen))
    case FetchCall(o) =>
      var pc := s.fetches[o].pc;
      SetF(s, o, FCalling(pc.e, pc.gen, s.t))
    case FetchAnswer(o, out) =>
      var pc := s.fetches[o].pc;
      SetF(s, o, match out
                 case Good(v) => FFetched(pc.e, pc.gen, pc.start, v, s.now)
                 case Bad(v) => FReplying(pc.e, Error(v, pc.start))
                 case Panicked => FReplying(pc.e, Panic))
    case FetchPublish(o) => PublishBy(s, o)
    case FetchReturn(o) => ReturnBy(s, o)
    case InvalInvoke(o, key) => s.(invals := s.invals[o := InvalOp(key, s.t, IStart)])
    case InvalEntry(o, made) =>
      var key := s.invals[o].key;
      SetI(Lookup(s, key, made), o, IHave(Found(s, key, made)))
    case InvalBump(o) => BumpBy(s, o)
    case RevalCapture(r) => SetR(s, r, RCaptured(s.nodes[s.revals[r].e].f.gen))
    case RevalCall(r) => SetR(s, r, RCalling(s.revals[r].pc.gen, s.t))
    case RevalAnswer(r, out) =>
      var pc := s.revals[r].pc;
      SetR(s, r, RReplied(pc.gen, pc.start, Outcome(out)))
    case RevalFinish(r) => FinishBy(s, r)
  }

  function Next(s: State, ev: Event): State
    requires Enabled(s, ev)
  {
    Apply(s, ev).(t := s.t + 1)
  }

  /** The events can happen, one after another, from `s`. */
  predicate Possible(s: State, evs: seq<Event>)
    decreases |evs|, 0
  {
    evs != [] ==> Possible(s, Front(evs)) && Enabled(Run(s, Front(evs)), evs[|evs| - 1])
  }

  function Run(s: State, evs: seq<Event>): State
    requires Possible(s, evs)
    decreases |evs|, 1
  {
    if evs == [] then s else Next(Run(s, Front(evs)), evs[|evs| - 1])
  }

  // ----- What every step keeps -----

  /** A call in flight that captured `gen` and started at `start` has been overtaken by an
      Invalidate, or started after the last one. */
  predicate CallOk(n: Node, gen: nat, start: nat) {
    gen <= n.f.gen && (gen == n.f.gen ==> n.bar < start)
  }

  function Due(m: Mark): int {
    match m
    case Published(_, at, ttl, _) => at + ttl
    case RevalFailed(at) => at + RETRY_BACKOFF
  }

  /** The entry's fields are what its marks say: value and timestamp of the last publish,
      failed and the deadline of the last mark. */
  ghost predicate NodeOk(n: Node, t: nat) {
    && n.bar < t
    && (n.f.loaded ==> LastPublish(n.marks).Some? && n.bar < StartOf(n))
    && (match LastPublish(n.marks)
        case Some(Published(v, at, _, _)) => n.f.val == v && n.f.fetchedAt == at
        case _ => LastPublish(n.marks).None?)
    && (n.f.failed <==> n.marks != [] && n.marks[|n.marks| - 1].RevalFailed?)
    && (n.marks != [] ==> n.f.expires == Due(n.marks[|n.marks| - 1]))
  }

  ghost predicate FetchOk(s: State, o: Id)
    requires o in s.fetches
  {
    var op := s.fetches[o];
    && op.invoked < s.t
    && (EntryOf(op.pc).Some? ==> EntryOf(op.pc).value in s.nodes)
    && match op.pc
       case FCaptured(e, gen) => gen <= s.nodes[e].f.gen
       case FCalling(e, gen, start) => CallOk(s.nodes[e], gen, start) && op.invoked < start < s.t
       case FFetched(e, gen, start, v, _) =>
         CallOk(s.nodes[e], gen, start) && op.invoked < start < s.t && v.tag == op.tag
       case FReplying(_, r) => Handed(r).Some? ==> Typed(Handed(r).value, op.tag)
       case FDone(_, r) => Handed(r).Some? ==> Typed(Handed(r).value, op.tag)
       case _ => true
  }

  predicate Live(op: RevalOp) {
    !op.pc.RGone?
  }

  ghost predicate RevalOk(s: State, r: Id)
    requires r in s.revals
  {
    var op := s.revals[r];
    && op.e in s.nodes
    && (Live(op) ==> s.nodes[op.e].f.refreshing)
    && match op.pc
       case RCaptured(gen) => gen <= s.nodes[op.e].f.gen
       case RCalling(gen, start) => CallOk(s.nodes[op.e], gen, start)
       case RReplied(gen, start, _) => CallOk(s.nodes[op.e], gen, start)
       case _ => true
  }

  /** Invalidates of the fetch's key that had returned when it was invoked. */
  predicate Precedes(a: InvalOp, b: FetchOp) {
    a.key == b.key && a.pc.IDone? && a.pc.returned < b.invoked
  }

  predicate After(n: Node, pc: FetchPc, bound: nat) {
    && bound < n.bar
    && (pc.FReplying? && Handed(pc.reply).Some? ==> bound < pc.reply.start)
    && (pc.FDone? && Handed(pc.reply).Some? ==> bound < pc.reply.start)
  }

  ghost predicate FloorOk(s: State, o: Id)
    requires o in s.fetches
  {
    FetchAt(s, o) ==>
      forall a :: a in s.invals && Precedes(s.invals[a], s.fetches[o]) ==>
        After(s.nodes[EntryOf(s.fetches[o].pc).value], s.fetches[o].pc, s.invals[a].invoked)
  }

  /** The directory's entry for `key` is younger, or was invalidated later, than `bound`. */
  predicate DirAfter(s: State, key: string, bound: nat) {
    key in s.dir && s.dir[key] in s.nodes ==> bound < s.nodes[s.dir[key]].bar
  }

  ghost predicate InvalOk(s: State, a: Id)
    requires a in s.invals
  {
    var op := s.invals[a];
    && op.invoked < s.t
    && match op.pc
       case IStart => true
       case IHave(e) => e in s.nodes && ((op.key in s.dir && s.dir[op.key] == e) || DirAfter(s, op.key, op.invoked))
       case IDone(_, returned) => op.invoked < returned < s.t && DirAfter(s, op.key, op.invoked)
  }

  predicate Holds(pc: FetchPc) {
    pc.FGated? || pc.FCold? || pc.FCaptured? || pc.FCalling? || pc.FFetched?
  }

  ghost predicate DirOk(s: State) {
    && 1 <= s.max && |s.order| <= s.max && NoDup(s.order)
    && (forall k :: k in s.dir <==> k in s.order)
    && (forall k :: k in s.dir ==> s.dir[k] in s.nodes)
  }

  /** A fetch between acquiring the gate and publishing is the one the gate names. */
  ghost predicate HolderOk(s: State, o: Id)
    requires o in s.fetches
  {
    Holds(s.fetches[o].pc) && FetchAt(s, o) ==> s.nodes[EntryOf(s.fetches[o].pc).value].gate == Some(o)
  }

  /** A gate that is taken names a fetch of this entry that will release it. */
  ghost predicate GateOk(s: State, e: Id)
    requires e in s.nodes
  {
    s.nodes[e].gate.Some? ==>
      var o := s.nodes[e].gate.value;
      && o in s.fetches && EntryOf(s.fetches[o].pc) == Some(e)
      && (Holds(s.fetches[o].pc) || s.fetches[o].pc.FReplying?)
  }

  /** At most one revalidation of an entry is claimed or running. */
  predicate Apart(s: State, p: Id, r: Id) {
    (p in s.revals && r in s.revals && Live(s.revals[p]) && Live(s.revals[r]) && s.revals[p].e == s.revals[r].e)
    ==> p == r
  }

  predicate Present(s: State, e: Id) {
    e in s.nodes
  }

  ghost predicate Nodes(s: State) {
    forall e {:trigger Present(s, e)} :: Present(s, e) ==> NodeOk(s.nodes[e], s.t) && GateOk(s, e)
  }

  ghost predicate Fetches(s: State) {
    forall o {:trigger FetchOk(s, o)} :: o in s.fetches ==> FetchOk(s, o) && FloorOk(s, o) && HolderOk(s, o)
  }

  ghost predicate Revals(s: State) {
    && (forall r {:trigger RevalOk(s, r)} :: r in s.revals ==> RevalOk(s, r))
    && (forall p, r {:trigger Apart(s, p, r)} :: Apart(s, p, r))
  }

  ghost predicate Invals(s: State) {
    forall a {:trigger InvalOk(s, a)} :: a in s.invals ==> InvalOk(s, a)
  }

  ghost predicate Inv(s: State) {
    DirOk(s) && Nodes(s) && Fetches(s) && Revals(s) && Invals(s)
  }

  lemma InitInv(max: nat, now: int)
    requires 1 <= max
    ensures Inv(Init(max, now))
  {
  }

  // ----- Every step keeps the invariant -----

  /** An entry only grows: its generation and the date of its last Invalidate move together. */
  predicate NodeLe(n: Node, m: Node) {
    n.bar <= m.bar && n.f.gen <= m.f.gen && (n.f.gen == m.f.gen ==> n.bar == m.bar)
  }

  /** The directory's entry for `k` in `s'` is the one in `s`, or newer than `s`. */
  predicate SameOrNew(s: State, s': State, k: string) {
    k in s'.dir ==>
      || (k in s.dir && s'.dir[k] == s.dir[k])
      || (s'.dir[k] !in s.nodes && s'.dir[k] in s'.nodes && s'.nodes[s'.dir[k]].bar == s.t)
  }

  /** `s'` differs from `s` at most in fetch `o`, entry `e`, invalidate `a` and revalidation
      `r`, which are `s`'s or new. */
  ghost predicate Local(s: State, s': State, o: Option<Id>, e: Option<Id>, a: Option<Id>, r: Option<Id>) {
    && s'.max == s.max && s.t <= s'.t
    && (forall k {:trigger SameOrNew(s, s', k)} :: SameOrNew(s, s', k))
    && s.nodes.Keys <= s'.nodes.Keys && s.fetches.Keys <= s'.fetches.Keys
    && (e.Some? && e.value in s.nodes ==> NodeLe(s.nodes[e.value], s'.nodes[e.value]))
    && (forall x :: x in s'.nodes && Some(x) != e ==> x in s.nodes && s'.nodes[x] == s.nodes[x])
    && (forall x :: x in s'.fetches && Some(x) != o ==> x in s.fetches && s'.fetches[x] == s.fetches[x])
    && (forall x :: x in s'.invals && Some(x) != a ==> x in s.invals && s'.invals[x] == s.invals[x])
    && (forall x :: x in s'.revals && Some(x) != r ==> x in s.revals && s'.revals[x] == s.revals[x])
  }

  /** What is left to show when a step is local: the parts it touched. */
  ghost predicate Touched(s: State, s': State, o: Option<Id>, e: Option<Id>, a: Option<Id>, r: Option<Id>) {
    && (o.Some? ==> o.value in s'.fetches && FetchOk(s', o.value) && FloorOk(s', o.value) && HolderOk(s', o.value))
    && (e.Some? ==> e.value in s'.nodes && NodeOk(s'.nodes[e.value], s'.t) && GateOk(s', e.value))
    && (a.Some? ==> a.value in s'.invals && InvalOk(s', a.value)
                    && (s'.invals[a.value].pc.IDone? ==> s.t <= s'.invals[a.value].pc.returned))
    && (r.Some? ==> r.value in s'.revals && RevalOk(s', r.value))
    && (e.Some? && e.value !in s.nodes ==> e.value in s'.nodes && s'.nodes[e.value].gate.None?)
    // a gate changes hands only between the touched fetch and no one
    && (e.Some? && e.value in s.nodes && e.value in s'.nodes ==>
          s'.nodes[e.value].gate == s.nodes[e.value].gate || (o.Some? && s.nodes[e.value].gate in {None, o}))
    && (o.Some? && o.value in s.fetches && o.value in s'.fetches
          && (Holds(s.fetches[o.value].pc) || s.fetches[o.value].pc.FReplying?) ==>
          && EntryOf(s'.fetches[o.value].pc) == EntryOf(s.fetches[o.value].pc)
          && (Holds(s'.fetches[o.value].pc) || s'.fetches[o.value].pc.FReplying? || e == EntryOf(s.fetches[o.value].pc)))
    // a claim disappears only with the revalidation that had it
    && (e.Some? && e.value in s.nodes && e.value in s'.nodes
          && s.nodes[e.value].f.refreshing && !s'.nodes[e.value].f.refreshing ==>
          r.Some? && r.value in s.revals && Live(s.revals[r.value]) && s.revals[r.value].e == e.value)
    && (r.Some? && r.value in s'.revals && Live(s'.revals[r.value]) ==>
          if r.value in s.revals then Live(s.revals[r.value]) && s.revals[r.value].e == s'.revals[r.value].e
          else s'.revals[r.value].e in s.nodes && !s.nodes[s'.revals[r.value].e].f.refreshing)
  }

  lemma KeepNodes(s: State, s': State, o: Option<Id>, e: Option<Id>, a: Option<Id>, r: Option<Id>)
    requires Inv(s) && Local(s, s', o, e, a, r) && Touched(s, s', o, e, a, r)
    ensures Nodes(s')
  {
    forall x | Present(s', x)
      ensures NodeOk(s'.nodes[x], s'.t) && GateOk(s', x)
    {
      if Some(x) != e {
        assert Present(s, x);
      }
    }
  }

  lemma KeepFetches(s: State, s': State, o: Option<Id>, e: Option<Id>, a: Option<Id>, r: Option<Id>)
    requires Inv(s) && Local(s, s', o, e, a, r) && Touched(s, s', o, e, a, r)
    ensures Fetches(s')
  {
    forall x | x in s'.fetches
      ensures FetchOk(s', x) && FloorOk(s', x) && HolderOk(s', x)
    {
      if Some(x) != o {
        assert FetchOk(s, x);
      }
    }
  }

  lemma KeepRevals(s: State, s': State, o: Option<Id>, e: Option<Id>, a: Option<Id>, r: Option<Id>)
    requires Inv(s) && Local(s, s', o, e, a, r) && Touched(s, s', o, e, a, r)
    ensures Revals(s')
  {
    forall x | x in s'.revals
      ensures RevalOk(s', x)
    {
      if Some(x) != r {
        assert RevalOk(s, x);
        if r.Some? {
          assert Apart(s, x, r.value);
        }
      }
    }
    forall p, q
      ensures Apart(s', p, q)
    {
      assert Apart(s, p, q);
      if p in s.revals {
        assert RevalOk(s, p);
      }
      if q in s.revals {
        assert RevalOk(s, q);
      }
    }
  }

  lemma KeepInvals(s: State, s': State, o: Option<Id>, e: Option<Id>, a: Option<Id>, r: Option<Id>)
    requires Inv(s) && Local(s, s', o, e, a, r) && Touched(s, s', o, e, a, r)
    ensures Invals(s')
  {
    forall x | x in s'.invals
      ensures InvalOk(s', x)
    {
      if Some(x) != a {
        assert InvalOk(s, x) && SameOrNew(s, s', s.invals[x].key);
      }
    }
  }

  lemma Keep(s: State, s': State, o: Option<Id>, e: Option<Id>, a: Option<Id>, r: Option<Id>)
    requires DirOk(s') && Inv(s) && Local(s, s', o, e, a, r) && Touched(s, s', o, e, a, r)
    ensures Inv(s')
  {
    KeepNodes(s, s', o, e, a, r);
    KeepFetches(s, s', o, e, a, r);
    KeepRevals(s, s', o, e, a, r);
    KeepInvals(s, s', o, e, a, r);
  }

  lemma LastAfter(marks: seq<Mark>, m: Mark)
    ensures LastPublish(marks + [m]) == if m.Published? then Some(m) else LastPublish(marks)
  {
    assert (marks + [m])[..|marks|] == marks;
  }

  /** A call started after the fetch was invoked postdates every Invalidate it must see. */
  lemma CallPostdates(s: State, o: Id, start: nat)
    requires Invals(s) && o in s.fetches && s.fetches[o].invoked < start
    ensures forall a :: a in s.invals && Precedes(s.invals[a], s.fetches[o]) ==> s.invals[a].invoked < start
  {
    forall a | a in s.invals && Precedes(s.invals[a], s.fetches[o])
      ensures s.invals[a].invoked < start
    {
      assert InvalOk(s, a);
    }
  }

  lemma StoredNode(n: Node, t: nat, gen: nat, val: Value, at: int, ttl: int, start: nat)
    requires NodeOk(n, t) && CallOk(n, gen, start)
    ensures var m := Stored(n, gen, val, at, ttl, start);
            NodeOk(m, t + 1) && NodeLe(n, m) && m.gate == n.gate && m.f.refreshing == n.f.refreshing
  {
    LastAfter(n.marks, Published(val, at, ttl, start));
  }

  lemma FinishedNode(n: Node, t: nat, gen: nat, out: Option<Value>, now: int, ttl: int, start: nat)
    requires NodeOk(n, t) && CallOk(n, gen, start)
    ensures var m := Finished(n, gen, out, now, ttl, start);
            NodeOk(m, t + 1) && NodeLe(n, m) && m.gate == n.gate
  {
    match out
    case Some(v) => LastAfter(n.marks, Published(v, now, ttl, start));
    case None => LastAfter(n.marks, RevalFailed(now));
  }

  lemma StepPublish(s: State, o: Id)
    requires Inv(s) && Enabled(s, FetchPublish(o))
    ensures Inv(Next(s, FetchPublish(o)))
  {
    var s', op, pc := Next(s, FetchPublish(o)), s.fetches[o], s.fetches[o].pc;
    assert FetchOk(s, o) && Present(s, pc.e);
    StoredNode(s.nodes[pc.e], s.t, pc.gen, pc.val, pc.at, op.ttl, pc.start);
    CallPostdates(s, o, pc.start);
    Keep(s, s', Some(o), Some(pc.e), None, None);
  }

  lemma StepFinish(s: State, r: Id)
    requires Inv(s) && Enabled(s, RevalFinish(r))
    ensures Inv(Next(s, RevalFinish(r)))
  {
    var s', op := Next(s, RevalFinish(r)), s.revals[r];
    assert RevalOk(s, r) && Present(s, op.e);
    FinishedNode(s.nodes[op.e], s.t, op.pc.gen, op.pc.out, s.now, op.ttl, op.pc.start);
    Keep(s, s', None, Some(op.e), None, Some(r));
  }

  /** A load changes nothing of an entry but the claim. */
  lemma LoadNode(n: Node, t: nat, tag: int, now: int)
    requires NodeOk(n, t)
    ensures NodeOk(n.(f := Load(n.f, tag, now).0), t + 1)
    ensures NodeLe(n, n.(f := Load(n.f, tag, now).0))
    ensures n.f.refreshing ==> Load(n.f, tag, now).0.refreshing
    ensures var r := Load(n.f, tag, now).1;
            r.Hit? ==> r.value.tag == tag && n.bar < StartOf(n) && (r.spawn ==> !n.f.refreshing && Load(n.f, tag, now).0.refreshing)
  {
  }

  predicate Loading(s: State, o: Id, miss: FetchPc, r: Option<Id>) {
    && FetchAt(s, o) && (r.Some? ==> r.value !in s.revals)
    && var pc := s.fetches[o].pc;
       (pc.FHave? && r.Some? && miss == FQueued(pc.e)) || (pc.FGated? && r.None? && miss == FCold(pc.e))
  }

  lemma LoadLocal(s: State, o: Id, miss: FetchPc, r: Option<Id>)
    requires Loading(s, o, miss, r) && NodeOk(s.nodes[s.fetches[o].pc.e], s.t)
    ensures Local(s, LoadBy(s, o, miss, r).(t := s.t + 1), Some(o), Some(s.fetches[o].pc.e), None,
                  if r.Some? && r.value in LoadBy(s, o, miss, r).revals then r else None)
  {
  }

  lemma LoadedFetch(s: State, o: Id, miss: FetchPc, r: Option<Id>)
    requires Loading(s, o, miss, r)
    requires FetchOk(s, o) && FloorOk(s, o) && HolderOk(s, o) && NodeOk(s.nodes[s.fetches[o].pc.e], s.t)
    ensures var s' := LoadBy(s, o, miss, r).(t := s.t + 1);
      o in s'.fetches && FetchOk(s', o) && FloorOk(s', o) && HolderOk(s', o)
  {
    LoadNode(s.nodes[s.fetches[o].pc.e], s.t, s.fetches[o].tag, s.now);
  }

  lemma LoadTouched(s: State, o: Id, miss: FetchPc, r: Option<Id>)
    requires Loading(s, o, miss, r)
    requires FetchOk(s, o) && FloorOk(s, o) && HolderOk(s, o)
    requires NodeOk(s.nodes[s.fetches[o].pc.e], s.t) && GateOk(s, s.fetches[o].pc.e)
    ensures Touched(s, LoadBy(s, o, miss, r).(t := s.t + 1), Some(o), Some(s.fetches[o].pc.e), None,
                  if r.Some? && r.value in LoadBy(s, o, miss, r).revals then r else None)
  {
    LoadNode(s.nodes[s.fetches[o].pc.e], s.t, s.fetches[o].tag, s.now);
    LoadedFetch(s, o, miss, r);
  }

  lemma StepGate(s: State, o: Id)
    requires Inv(s) && Enabled(s, FetchGate(o))
    ensures Inv(Next(s, FetchGate(o)))
  {
    var s', e := Next(s, FetchGate(o)), s.fetches[o].pc.e;
    assert FetchOk(s, o) && Present(s, e);
    Keep(s, s', Some(o), Some(e), None, None);
  }

  lemma StepReturn(s: State, o: Id)
    requires Inv(s) && Enabled(s, FetchReturn(o))
    ensures Inv(Next(s, FetchReturn(o)))
  {
    var s', e := Next(s, FetchReturn(o)), s.fetches[o].pc.e;
    assert FetchOk(s, o) && Present(s, e);
    Keep(s, s', Some(o), Some(e), None, None);
  }

  lemma StepBump(s: State, a: Id)
    requires Inv(s) && Enabled(s, InvalBump(a))
    ensures Inv(Next(s, InvalBump(a)))
  {
    var s', e := Next(s, InvalBump(a)), s.invals[a].pc.e;
    assert InvalOk(s, a) && Present(s, e);
    Keep(s, s', None, Some(e), Some(a), None);
  }

  lemma StepLoadBy(s: State, o: Id, miss: FetchPc, r: Option<Id>)
    requires Inv(s) && Loading(s, o, miss, r)
    ensures Inv(LoadBy(s, o, miss, r).(t := s.t + 1))
  {
    assert FetchOk(s, o) && Present(s, s.fetches[o].pc.e);
    LoadLocal(s, o, miss, r);
    LoadTouched(s, o, miss, r);
    Keep(s, LoadBy(s, o, miss, r).(t := s.t + 1), Some(o), Some(s.fetches[o].pc.e), None,
         if r.Some? && r.value in LoadBy(s, o, miss, r).revals then r else None);
  }

  lemma RedirectOk(dir: map<string, Id>, order: seq<string>, key: string, made: Id, max: nat)
    requires 1 <= max && |order| <= max && NoDup(order) && key !in order
    requires forall k :: k in dir <==> k in order
    ensures var next := Trim(order + [key], max);
            && NoDup(next) && |next| <= max && key in next
            && (forall k :: k in Redirect(dir, next, key, made) <==> k in next)
            && (forall k :: k in Redirect(dir, next, key, made) ==>
                  Redirect(dir, next, key, made)[k] == if k == key then made else dir[k])
  {
    TouchKeepsOrder(order, key, max);
  }

  lemma LookupDir(s: State, key: string, made: Id)
    requires DirOk(s) && made !in s.nodes
    ensures DirOk(Lookup(s, key, made)) && key in Lookup(s, key, made).dir
    ensures Lookup(s, key, made).dir[key] == Found(s, key, made)
    ensures forall k :: k in Lookup(s, key, made).dir && k != key ==> k in s.dir && Lookup(s, key, made).dir[k] == s.dir[k]
  {
    if key !in s.dir {
      RedirectOk(s.dir, s.order, key, made, s.max);
    }
  }

  lemma StepLookup(s: State, key: string, made: Id)
    requires Inv(s) && made !in s.nodes
    ensures Inv(Lookup(s, key, made).(t := s.t + 1))
  {
    LookupDir(s, key, made);
    var s' := Lookup(s, key, made).(t := s.t + 1);
    if key in s.dir {
      Keep(s, s', None, None, None, None);
    } else {
      MadeLocal(s, key, made);
      Keep(s, s', None, Some(made), None, None);
    }
  }

  lemma MadeLocal(s: State, key: string, made: Id)
    requires DirOk(s) && made !in s.nodes && key !in s.dir
    ensures var s' := Lookup(s, key, made).(t := s.t + 1);
      Local(s, s', None, Some(made), None, None) && Touched(s, s', None, Some(made), None, None)
  {
    LookupDir(s, key, made);
  }

  /** A step that only moves fetch `o` along. */
  lemma MoveFetch(s: State, o: Id, op: FetchOp, t: nat)
    requires Inv(s) && s.t <= t
    requires var s' := s.(fetches := s.fetches[o := op], t := t);
      FetchOk(s', o) && FloorOk(s', o) && HolderOk(s', o)
    requires o in s.fetches && (Holds(s.fetches[o].pc) || s.fetches[o].pc.FReplying?) ==>
      EntryOf(op.pc) == EntryOf(s.fetches[o].pc) && (Holds(op.pc) || op.pc.FReplying?)
    ensures Inv(s.(fetches := s.fetches[o := op], t := t))
  {
    Keep(s, s.(fetches := s.fetches[o := op], t := t), Some(o), None, None, None);
  }

  /** The fetch that looked its entry up, in the state that the lookup left. */
  lemma FetchFound(s: State, s1: State, o: Id, made: Id, op: FetchOp)
    requires Inv(s1) && o in s1.fetches && s1.fetches[o].pc.FStart? && s1.t == s.t + 1
    requires op == s1.fetches[o].(pc := FHave(Found(s, op.key, made)))
    requires op.key in s1.dir && s1.dir[op.key] == Found(s, op.key, made)
    ensures var s' := s1.(fetches := s1.fetches[o := op]);
      FetchOk(s', o) && FloorOk(s', o) && HolderOk(s', o)
  {
    assert FetchOk(s1, o);
    forall a | a in s1.invals && Precedes(s1.invals[a], op)
      ensures s1.invals[a].invoked < s1.nodes[Found(s, op.key, made)].bar
    {
      assert InvalOk(s1, a);
    }
  }

  lemma StepFetchEntry(s: State, o: Id, made: Id)
    requires Inv(s) && Enabled(s, FetchEntry(o, made))
    ensures Inv(Next(s, FetchEntry(o, made)))
  {
    var key := s.fetches[o].key;
    var s1 := Lookup(s, key, made).(t := s.t + 1);
    var op := s.fetches[o].(pc := FHave(Found(s, key, made)));
    StepLookup(s, key, made);
    LookupDir(s, key, made);
    FetchFound(s, s1, o, made, op);
    MoveFetch(s1, o, op, s.t + 1);
  }

  lemma StepInvalEntry(s: State, a: Id, made: Id)
    requires Inv(s) && Enabled(s, InvalEntry(a, made))
    ensures Inv(Next(s, InvalEntry(a, made)))
  {
    var key := s.invals[a].key;
    var s1 := Lookup(s, key, made).(t := s.t + 1);
    StepLookup(s, key, made);
    LookupDir(s, key, made);
    MoveInval(s1, a, Found(s, key, made));
  }

  /** An Invalidate that has just found the directory's entry for its key. */
  lemma MoveInval(s: State, a: Id, e: Id)
    requires Inv(s) && a in s.invals && s.invals[a].pc.IStart? && e in s.nodes
    requires s.invals[a].key in s.dir && s.dir[s.invals[a].key] == e
    ensures Inv(SetI(s, a, IHave(e)))
  {
    assert InvalOk(s, a);
    Keep(s, SetI(s, a, IHave(e)), None, None, Some(a), None);
  }

  /** The steps that move one fetch and touch nothing else. */
  lemma StepFetchOnly(s: State, ev: Event)
    requires Inv(s) && Enabled(s, ev)
    requires ev.FetchCapture? || ev.FetchCall? || ev.FetchAnswer?
    ensures Inv(Next(s, ev))
  {
    assert FetchOk(s, ev.o) && Present(s, s.fetches[ev.o].pc.e);
    if ev.FetchAnswer? {
      CallPostdates(s, ev.o, s.fetches[ev.o].pc.start);
    }
    MoveFetch(s, ev.o, Next(s, ev).fetches[ev.o], s.t + 1);
  }

  /** The steps that touch one revalidation and nothing else. */
  lemma StepRevalOnly(s: State, ev: Event)
    requires Inv(s) && Enabled(s, ev)
    requires ev.RevalCapture? || ev.RevalCall? || ev.RevalAnswer?
    ensures Inv(Next(s, ev))
  {
    assert RevalOk(s, ev.r) && Present(s, s.revals[ev.r].e);
    Keep(s, Next(s, ev), None, None, None, Some(ev.r));
  }

  lemma StepTick(s: State, d: nat)
    requires Inv(s)
    ensures Inv(Next(s, Tick(d)))
  {
    Keep(s, Next(s, Tick(d)), None, None, None, None);
  }

  lemma StepInvoke(s: State, o: Id, key: string, tag: int, ttl: int)
    requires Inv(s) && o !in s.fetches
    ensures Inv(Next(s, FetchInvoke(o, key, tag, ttl)))
  {
    MoveFetch(s, o, FetchOp(key, tag, ttl, s.t, FStart), s.t + 1);
  }

  lemma StepInvalInvoke(s: State, a: Id, key: string)
    requires Inv(s) && a !in s.invals
    ensures Inv(Next(s, InvalInvoke(a, key)))
  {
    Keep(s, Next(s, InvalInvoke(a, key)), None, None, Some(a), None);
  }

  lemma StepInv(s: State, ev: Event)
    requires Inv(s) && Enabled(s, ev)
    ensures Inv(Next(s, ev))
  {
    match ev
    case Tick(d) => StepTick(s, d);
    case FetchInvoke(o, key, tag, ttl) => StepInvoke(s, o, key, tag, ttl);
    case FetchEntry(o, made) => StepFetchEntry(s, o, made);
    case FetchLoad(o, r) => StepLoadBy(s, o, FQueued(s.fetches[o].pc.e), Some(r));
    case FetchGate(o) => StepGate(s, o);
    case FetchRecheck(o) => StepLoadBy(s, o, FCold(s.fetches[o].pc.e), None);
    case FetchCapture(_) => StepFetchOnly(s, ev);
    case FetchCall(_) => StepFetchOnly(s, ev);
    case FetchAnswer(_, _) => StepFetchOnly(s, ev);
    case FetchPublish(o) => StepPublish(s, o);
    case FetchReturn(o) => StepReturn(s, o);
    case InvalInvoke(a, key) => StepInvalInvoke(s, a, key);
    case InvalEntry(a, made) => StepInvalEntry(s, a, made);
    case InvalBump(a) => StepBump(s, a);
    case RevalCapture(_) => StepRevalOnly(s, ev);
    case RevalCall(_) => StepRevalOnly(s, ev);
    case RevalAnswer(_, _) => StepRevalOnly(s, ev);
    case RevalFinish(r) => StepFinish(s, r);
  }
}
