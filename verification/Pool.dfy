/** The one-shot task pool: a semaphore of slots, a join counter, and a drain that is
    terminal. One event is one critical section or one atomic access. */
module Pool {
  import opened Prelude

  type Id = nat

  datatype TPc =
    | Queued
    | Holding    // has a slot, has not re-checked its context
    | Running
    | Releasing  // fn is over, the slot is still held
    | Leaving    // holds no slot, still counted
    | Ended

  /** `runs` counts the calls of the task's function (history). */
  datatype Task = Task(ctxDone: bool, runs: nat, pc: TPc)

  datatype WPc = Joining | Drained | Returned(ok: bool)

  /** `misused` is the one thing the join counter forbids: taking it off zero while a Wait
      is under way (history). */
  datatype State = State(
    limit: int,
    slots: nat,
    count: int,
    closed: bool,
    misused: bool,
    tasks: map<Id, Task>,
    waits: map<Id, WPc>)

  datatype Event =
    | Go(x: Id, ctxDone: bool)
    | CtxEnds(x: Id)
    | Acquire(x: Id)
    | CancelQueued(x: Id)
    | Recheck(x: Id)
    | FnEnds(x: Id)
    | Release(x: Id)
    | Done(x: Id)
    | WaitCall(w: Id)
    | SeeZero(w: Id)
    | WaitJoined(w: Id)
    | WaitGiveUp(w: Id)

  function Init(limit: int): State {
    State(limit, 0, 0, false, false, map[], map[])
  }

  predicate TAt(s: State, x: Id, pc: TPc) {
    x in s.tasks && s.tasks[x].pc == pc
  }

  predicate WAt(s: State, w: Id, pc: WPc) {
    w in s.waits && s.waits[w] == pc
  }

  predicate Bounded(s: State) {
    s.limit > 0
  }

  /** Go answers true. */
  predicate Accepts(s: State, ev: Event) {
    ev.Go? && !s.closed && !ev.ctxDone
  }

  predicate Enabled(s: State, ev: Event) {
    match ev
    case Go(x, _) => x !in s.tasks
    case CtxEnds(x) => x in s.tasks
    case Acquire(x) => TAt(s, x, Queued) && (Bounded(s) ==> s.slots < s.limit)
    case CancelQueued(x) => TAt(s, x, Queued) && Bounded(s) && s.tasks[x].ctxDone
    case Recheck(x) => TAt(s, x, Holding) && s.slots > 0
    case FnEnds(x) => TAt(s, x, Running)
    case Release(x) => TAt(s, x, Releasing) && s.slots > 0
    case Done(x) => TAt(s, x, Leaving)
    case WaitCall(w) => w !in s.waits
    case SeeZero(w) => WAt(s, w, Joining) && s.count == 0
    case WaitJoined(w) => WAt(s, w, Drained)
    case WaitGiveUp(w) => WAt(s, w, Joining) || WAt(s, w, Drained)
  }

  function Started(t: Task): Task {
    t.(pc := Running, runs := t.runs + 1)
  }

  function Next(s: State, ev: Event): State
    requires Enabled(s, ev)
  {
    match ev
    case Go(x, ctxDone) =>
      if s.closed || ctxDone then s
      else s.(count := s.count + 1, misused := s.misused || (s.count == 0 && s.waits != map[]),
              tasks := s.tasks[x := Task(false, 0, Queued)])
    case CtxEnds(x) => s.(tasks := s.tasks[x := s.tasks[x].(ctxDone := true)])
    case Acquire(x) =>
      if Bounded(s) then s.(slots := s.slots + 1, tasks := s.tasks[x := s.tasks[x].(pc := Holding)])
      else s.(tasks := s.tasks[x := Started(s.tasks[x])])
    case CancelQueued(x) => s.(tasks := s.tasks[x := s.tasks[x].(pc := Leaving)])
    case Recheck(x) =>
      if s.tasks[x].ctxDone then s.(slots := s.slots - 1, tasks := s.tasks[x := s.tasks[x].(pc := Leaving)])
      else s.(tasks := s.tasks[x := Started(s.tasks[x])])
    case FnEnds(x) => s.(tasks := s.tasks[x := s.tasks[x].(pc := if Bounded(s) then Releasing else Leaving)])
    case Release(x) => s.(slots := s.slots - 1, tasks := s.tasks[x := s.tasks[x].(pc := Leaving)])
    case Done(x) => s.(count := s.count - 1, tasks := s.tasks[x := s.tasks[x].(pc := Ended)])
    case WaitCall(w) => s.(closed := true, waits := s.waits[w := Joining])
    case SeeZero(w) => s.(waits := s.waits[w := Drained])
    case WaitJoined(w) => s.(waits := s.waits[w := Returned(true)])
    case WaitGiveUp(w) => s.(waits := s.waits[w := Returned(false)])
  }

  predicate Possible(s: State, evs: seq<Event>)
    decreases |evs|, 0
  {
    evs != [] ==> Possible(s, Front(evs)) && Enabled(Run(s, Front(evs)), evs[|evs| - 1])
  }

  function Run(s: State, evs: seq<Event>): State
    requires Possible(s, evs)
    decreases |evs|, 1
  {
    if evs == [] then s else Next(Run(s, Front(evs)), evs[|evs| - 1])
  }

  // ----- What every step keeps -----

  function Unended(s: State): set<Id> {
    set x | x in s.tasks && !s.tasks[x].pc.Ended?
  }

  /** Tasks that hold a slot. */
  function Holders(s: State): set<Id> {
    set x | x in s.tasks && (s.tasks[x].pc.Holding? || s.tasks[x].pc.Running? || s.tasks[x].pc.Releasing?)
  }

  function RunningNow(s: State): set<Id> {
    set x | x in s.tasks && s.tasks[x].pc.Running?
  }

  predicate TaskOk(t: Task) {
    && t.runs <= 1
    && (t.pc.Queued? || t.pc.Holding? ==> t.runs == 0)
    && (t.pc.Running? || t.pc.Releasing? ==> t.runs == 1)
    && (!t.ctxDone && (t.pc.Leaving? || t.pc.Ended?) ==> t.runs == 1)
  }

  ghost predicate Inv(s: State) {
    && s.count == |Unended(s)|
    && (Bounded(s) ==> s.slots == |Holders(s)| && s.slots <= s.limit)
    && (forall x :: x in s.tasks ==> TaskOk(s.tasks[x]))
    && (forall x :: x in s.tasks && !Bounded(s) ==> !s.tasks[x].pc.Holding? && !s.tasks[x].pc.Releasing?)
    && (s.waits != map[] ==> s.closed)
    && (forall w :: w in s.waits && (s.waits[w].Drained? || s.waits[w] == Returned(true)) ==> s.count == 0)
    && !s.misused
  }

  lemma UnendedMoves(s: State, ev: Event)
    requires Enabled(s, ev)
    ensures Unended(Next(s, ev)) ==
      if Accepts(s, ev) then Unended(s) + {ev.x} else if ev.Done? then Unended(s) - {ev.x} else Unended(s)
  {
  }

  lemma HoldersMove(s: State, ev: Event)
    requires Bounded(s) && Enabled(s, ev)
    ensures Holders(Next(s, ev)) ==
      if ev.Acquire? then Holders(s) + {ev.x}
      else if ev.Release? || (ev.Recheck? && s.tasks[ev.x].ctxDone) then Holders(s) - {ev.x}
      else Holders(s)
  {
  }

  lemma StepCount(s: State, ev: Event)
    requires Inv(s) && Enabled(s, ev)
    ensures Next(s, ev).count == |Unended(Next(s, ev))|
  {
    UnendedMoves(s, ev);
  }

  lemma StepSlots(s: State, ev: Event)
    requires Inv(s) && Bounded(s) && Enabled(s, ev)
    ensures Next(s, ev).slots == |Holders(Next(s, ev))| && Next(s, ev).slots <= s.limit
  {
    HoldersMove(s, ev);
  }

  lemma StepInv(s: State, ev: Event)
    requires Inv(s) && Enabled(s, ev)
    ensures Inv(Next(s, ev))
  {
    StepCount(s, ev);
    if Bounded(s) {
      StepSlots(s, ev);
    }
    if ev.Done? {
      assert ev.x in Unended(s);
    }
  }

  lemma {:induction false} RunInv(limit: int, evs: seq<Event>)
    requires Possible(Init(limit), evs)
    ensures Inv(Run(Init(limit), evs)) && Run(Init(limit), evs).limit == limit
    decreases |evs|
  {
    if evs == [] {
      assert Unended(Init(limit)) == {} && Holders(Init(limit)) == {};
    } else {
      RunInv(limit, Front(evs));
      StepInv(Run(Init(limit), Front(evs)), evs[|evs| - 1]);
    }
  }

  // ----- The pool's promises -----

  /** Never more than Limit tasks run at once. */
  lemma BoundHolds(limit: int, evs: seq<Event>)
    requires limit > 0 && Possible(Init(limit), evs)
    ensures |RunningNow(Run(Init(limit), evs))| <= limit
  {
    RunInv(limit, evs);
    CardSubset(RunningNow(Run(Init(limit), evs)), Holders(Run(Init(limit), evs)));
  }

  /** Every accepted task runs at most once, and exactly once unless its context ended; once
      every task is over, by a panic too, all slots and the whole join count have been given
      back; and the join counter is never taken off zero under a Wait. */
  lemma TasksGiveBack(limit: int, evs: seq<Event>)
    requires Possible(Init(limit), evs)
    ensures var s := Run(Init(limit), evs);
      && (forall x :: x in s.tasks ==> s.tasks[x].runs <= 1)
      && (forall x :: x in s.tasks && s.tasks[x].pc.Ended? && !s.tasks[x].ctxDone ==> s.tasks[x].runs == 1)
      && ((forall x :: x in s.tasks ==> s.tasks[x].pc.Ended?) ==> s.count == 0 && (limit > 0 ==> s.slots == 0))
      && !s.misused
  {
    RunInv(limit, evs);
    var s := Run(Init(limit), evs);
    if forall x :: x in s.tasks ==> s.tasks[x].pc.Ended? {
      assert Unended(s) == {} && Holders(s) == {};
    }
  }

  lemma OnlyWaitCloses(s: State, ev: Event)
    requires Enabled(s, ev)
    ensures Next(s, ev).closed <==> s.closed || ev.WaitCall?
  {
  }

  lemma {:induction false} ClosedByWait(limit: int, evs: seq<Event>)
    requires Possible(Init(limit), evs)
    ensures Run(Init(limit), evs).closed <==> exists w :: WaitCall(w) in evs
    decreases |evs|
  {
    hide Next;
    hide Enabled;
    if evs != [] {
      var front, ev := Front(evs), evs[|evs| - 1];
      ClosedByWait(limit, front);
      OnlyWaitCloses(Run(Init(limit), front), ev);
      forall w
        ensures WaitCall(w) in evs <==> WaitCall(w) in front || WaitCall(w) == ev
      {
        InFront(evs, WaitCall(w));
      }
      if ev.WaitCall? {
        assert WaitCall(ev.w) in evs;
      }
    }
  }

  /** Go accepts a task exactly if no Wait has been called and its context lives, however many
      tasks there are; an accepted one is counted and queued, a refused one leaves no trace. */
  lemma AcceptedExactlyWhen(limit: int, evs: seq<Event>, x: Id, ctxDone: bool)
    requires Possible(Init(limit), evs) && Enabled(Run(Init(limit), evs), Go(x, ctxDone))
    ensures var s := Run(Init(limit), evs);
      var t := Next(s, Go(x, ctxDone));
      && (x in t.tasks <==> !ctxDone && forall w :: WaitCall(w) !in evs)
      && (x in t.tasks ==> TAt(t, x, Queued) && t.count == s.count + 1 && t.tasks[x].runs == 0)
      && (x !in t.tasks ==> t == s)
  {
    ClosedByWait(limit, evs);
  }

  /** Where a task's next step takes it. */
  predicate Moves(s: State, x: Id, ev: Event, pc: TPc) {
    Enabled(s, ev) && TAt(Next(s, ev), x, pc)
  }

  lemma TaskMoves(s: State, x: Id)
    requires Inv(s) && x in s.tasks
    ensures match s.tasks[x].pc
            case Queued =>
              && (Enabled(s, Acquire(x)) <==> s.limit <= 0 || |Holders(s)| < s.limit)
              && (Enabled(s, CancelQueued(x)) <==> s.limit > 0 && s.tasks[x].ctxDone)
            case Holding => Moves(s, x, Recheck(x), if s.tasks[x].ctxDone then Leaving else Running)
            case Running => Moves(s, x, FnEnds(x), if s.limit > 0 then Releasing else Leaving)
            case Releasing => Moves(s, x, Release(x), Leaving)
            case Leaving => Moves(s, x, Done(x), Ended)
            case Ended => true
  {
    assert x in Holders(s) ==> |Holders(s)| > 0;
  }

  /** No slot lies idle and nothing gets stuck: a queued task waits only while Limit others hold
      a slot, a task that holds one or has left it can always take its next step, and those
      steps give the slot back. */
  lemma NobodyIsStuck(limit: int, evs: seq<Event>, x: Id)
    requires Possible(Init(limit), evs) && x in Run(Init(limit), evs).tasks
    ensures var s := Run(Init(limit), evs);
      match s.tasks[x].pc
      case Queued =>
        && (Enabled(s, Acquire(x)) <==> limit <= 0 || |Holders(s)| < limit)
        && (Enabled(s, CancelQueued(x)) <==> limit > 0 && s.tasks[x].ctxDone)
      case Holding => Moves(s, x, Recheck(x), if s.tasks[x].ctxDone then Leaving else Running)
      case Running => Moves(s, x, FnEnds(x), if limit > 0 then Releasing else Leaving)
      case Releasing => Moves(s, x, Release(x), Leaving)
      case Leaving => Moves(s, x, Done(x), Ended)
      case Ended => true
  {
    hide Next;
    hide Enabled;
    RunInv(limit, evs);
    TaskMoves(Run(Init(limit), evs), x);
  }

  lemma ZeroMeansOver(s: State)
    requires Inv(s)
    ensures s.count == 0 <==> forall x :: x in s.tasks ==> s.tasks[x].pc.Ended?
  {
    assert forall x :: x in s.tasks && !s.tasks[x].pc.Ended? <==> x in Unended(s);
    assert s.count == 0 <==> Unended(s) == {};
  }

  lemma WaitCanReturn(limit: int, evs: seq<Event>, w: Id)
    requires Possible(Init(limit), evs) && WAt(Run(Init(limit), evs), w, Joining)
    ensures var s := Run(Init(limit), evs);
      && (Enabled(s, SeeZero(w)) <==> forall x :: x in s.tasks ==> s.tasks[x].pc.Ended?)
      && (Enabled(s, SeeZero(w)) ==> Enabled(Next(s, SeeZero(w)), WaitJoined(w)))
  {
    RunInv(limit, evs);
    ZeroMeansOver(Run(Init(limit), evs));
  }

  /** The task's context ended before it ran. */
  predicate Cancelled(s: State, x: Id) {
    x in s.tasks && s.tasks[x].ctxDone && s.tasks[x].runs == 0 && !s.tasks[x].pc.Running?
  }

  lemma StepCancelled(s: State, ev: Event, x: Id)
    requires Enabled(s, ev) && Bounded(s) && Cancelled(s, x)
    ensures Cancelled(Next(s, ev), x) && Bounded(Next(s, ev))
  {
  }

  /** A task of a bounded pool whose context ended before it ran never runs, however the run
      goes on. */
  lemma {:induction false} CancelledNeverRuns(s: State, evs: seq<Event>, x: Id)
    requires Possible(s, evs) && Bounded(s) && Cancelled(s, x)
    ensures Bounded(Run(s, evs)) && Cancelled(Run(s, evs), x)
    decreases |evs|
  {
    if evs != [] {
      CancelledNeverRuns(s, Front(evs), x);
      StepCancelled(Run(s, Front(evs)), evs[|evs| - 1], x);
    }
  }

  /** The pool is closed and every task it accepted has ended. */
  ghost predicate Over(s: State) {
    s.closed && forall x :: x in s.tasks ==> s.tasks[x].pc.Ended?
  }

  lemma StepOver(s: State, ev: Event)
    requires Over(s) && Enabled(s, ev)
    ensures Over(Next(s, ev)) && Next(s, ev).tasks.Keys == s.tasks.Keys
    ensures forall x :: x in s.tasks ==> Next(s, ev).tasks[x].runs == s.tasks[x].runs
  {
  }

  lemma {:induction false} StaysOver(s: State, evs: seq<Event>)
    requires Over(s) && Possible(s, evs)
    ensures Over(Run(s, evs)) && Run(s, evs).tasks.Keys == s.tasks.Keys
    ensures forall x :: x in s.tasks ==> Run(s, evs).tasks[x].runs == s.tasks[x].runs
    decreases |evs|
  {
    if evs != [] {
      StaysOver(s, Front(evs));
      StepOver(Run(s, Front(evs)), evs[|evs| - 1]);
    }
  }

  /** After a Wait returned nil, every task ever accepted has ended, and however the run
      goes on, none is accepted and none runs again. */
  lemma DrainIsTerminal(limit: int, evs: seq<Event>, more: seq<Event>, w: Id)
    requires Possible(Init(limit), evs) && WAt(Run(Init(limit), evs), w, Returned(true))
    requires Possible(Run(Init(limit), evs), more)
    ensures var s, t := Run(Init(limit), evs), Run(Run(Init(limit), evs), more);
      Over(s) && Over(t) && t.tasks.Keys == s.tasks.Keys && forall x :: x in s.tasks ==> t.tasks[x].runs == s.tasks[x].runs
  {
    var s := Run(Init(limit), evs);
    RunInv(limit, evs);
    assert Unended(s) == {};
    assert forall x :: x in s.tasks && !s.tasks[x].pc.Ended? ==> x in Unended(s);
    StaysOver(s, more);
  }
}
