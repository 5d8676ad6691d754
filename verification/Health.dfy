/** Readiness: overlapping sweeps over the registered checks, each call guarded by the check's
    running flag, and the log of readiness changes. */
module Health {
  import opened Prelude

  // ----- Overlapping sweeps -----

  /** The goroutine that calls a check. It clears the flag (Released) before it sends. */
  datatype Worker = NoCall | Calling | Ended(ok: bool) | Released(ok: bool) | Sent(ok: bool)

  /** What the sweep that wanted the call has of it: still waiting, its result, the deadline,
      or a flag that was already set. */
  datatype Caller = Waiting | Got(ok: bool) | Late | Busy

  /** One slot of one sweep, dated: when it tried the flag, when its call gave the flag back,
      and when its result was received. */
  datatype Slot = Slot(caller: Caller, worker: Worker, at: nat, freed: Option<nat>, got: Option<nat>)

  /** A slot is known by its sweep and by the index of its check. */
  type Key = (nat, nat)

  /** `sweeps` holds the number of checks each sweep copied; `running` the checks whose flag is
      set. */
  datatype State = State(clock: nat, checks: nat, running: set<nat>, sweeps: map<nat, nat>, slots: map<Key, Slot>)

  datatype Event =
    | Register
    | Sweep(s: nat)
    | Enter(k: Key)
    | Return(k: Key, ok: bool)
    | Release(k: Key)
    | Send(k: Key)
    | Receive(k: Key)
    | GiveUp(k: Key)

  const INIT := State(0, 0, {}, map[], map[])

  predicate Enabled(s: State, e: Event) {
    match e
    case Register => true
    case Sweep(id) => id !in s.sweeps
    case Enter(k) => k.0 in s.sweeps && k.1 < s.sweeps[k.0] && k !in s.slots
    case Return(k, _) => k in s.slots && s.slots[k].worker == Calling
    case Release(k) => k in s.slots && s.slots[k].worker.Ended?
    case Send(k) => k in s.slots && s.slots[k].worker.Released?
    case Receive(k) => k in s.slots && s.slots[k].caller == Waiting && s.slots[k].worker.Sent?
    case GiveUp(k) => k in s.slots && s.slots[k].caller == Waiting
  }

  function SlotAfter(s: State, e: Event): Slot
    requires Enabled(s, e) && !e.Register? && !e.Sweep?
  {
    match e
    case Enter(k) =>
      if k.1 in s.running then Slot(Busy, NoCall, s.clock, None, None)
      else Slot(Waiting, Calling, s.clock, None, None)
    case Return(k, ok) => s.slots[k].(worker := Ended(ok))
    case Release(k) => s.slots[k].(worker := Released(s.slots[k].worker.ok), freed := Some(s.clock))
    case Send(k) => s.slots[k].(worker := Sent(s.slots[k].worker.ok))
    case Receive(k) => s.slots[k].(caller := Got(s.slots[k].worker.ok), got := Some(s.clock))
    case GiveUp(k) => s.slots[k].(caller := Late)
  }

  function Apply(s: State, e: Event): State
    requires Enabled(s, e)
  {
    match e
    case Register => s.(clock := s.clock + 1, checks := s.checks + 1)
    case Sweep(id) => s.(clock := s.clock + 1, sweeps := s.sweeps[id := s.checks])
    case Enter(k) => s.(clock := s.clock + 1, slots := s.slots[k := SlotAfter(s, e)], running := s.running + {k.1})
    case Release(k) => s.(clock := s.clock + 1, slots := s.slots[k := SlotAfter(s, e)], running := s.running - {k.1})
    case _ => s.(clock := s.clock + 1, slots := s.slots[e.k := SlotAfter(s, e)])
  }

  predicate Possible(evs: seq<Event>)
    decreases |evs|, 0
  {
    evs == [] || (Possible(Front(evs)) && Enabled(Run(Front(evs)), evs[|evs| - 1]))
  }

  function Run(evs: seq<Event>): State
    requires Possible(evs)
    decreases |evs|, 1
  {
    if evs == [] then INIT else Apply(Run(Front(evs)), evs[|evs| - 1])
  }

  /** The slot's call has the flag: the check has not returned, or has only just. */
  predicate Holds(slot: Slot) {
    slot.worker == Calling || slot.worker.Ended?
  }

  predicate SlotOk(s: State, k: Key) {
    k in s.slots ==>
      var x := s.slots[k];
      && x.at < s.clock
      && (x.caller == Busy <==> x.worker == NoCall)
      && (x.caller.Got? ==> x.worker == Sent(x.caller.ok))
      && (x.freed.Some? <==> x.worker.Released? || x.worker.Sent?)
      && (x.freed.Some? ==> x.at < x.freed.value < s.clock)
      && (x.got.Some? <==> x.caller.Got?)
      && (x.got.Some? ==> x.freed.Some? && x.freed.value < x.got.value < s.clock)
  }

  predicate FlagSet(s: State, k: Key) {
    k in s.slots && Holds(s.slots[k]) ==> k.1 in s.running
  }

  ghost predicate FlagHeld(s: State, i: nat) {
    i in s.running ==> exists k :: k in s.slots && k.1 == i && Holds(s.slots[k])
  }

  predicate OneHolder(s: State, j: Key, k: Key) {
    j in s.slots && k in s.slots && j.1 == k.1 && Holds(s.slots[j]) && Holds(s.slots[k]) ==> j == k
  }

  /** Slot `j` had the flag of its check when slot `k` of the same check found it set. */
  predicate HadItWhen(s: State, j: Key, k: Key) {
    && j in s.slots && k in s.slots && j.1 == k.1 && s.slots[j].worker != NoCall
    && s.slots[j].at < s.slots[k].at
    && (s.slots[j].freed.Some? ==> s.slots[k].at < s.slots[j].freed.value)
  }

  ghost predicate BusyOk(s: State, k: Key) {
    k in s.slots && s.slots[k].caller == Busy ==> exists j :: HadItWhen(s, j, k)
  }

  ghost predicate Inv(s: State) {
    && (forall k {:trigger SlotOk(s, k)} :: SlotOk(s, k))
    && (forall k {:trigger FlagSet(s, k)} :: FlagSet(s, k))
    && (forall i {:trigger FlagHeld(s, i)} :: FlagHeld(s, i))
    && (forall j, k {:trigger OneHolder(s, j, k)} :: OneHolder(s, j, k))
    && (forall k {:trigger BusyOk(s, k)} :: BusyOk(s, k))
  }

  lemma StepSlot(s: State, e: Event, k: Key)
    requires Inv(s) && Enabled(s, e)
    ensures SlotOk(Apply(s, e), k)
  {
    assert SlotOk(s, k);
  }

  lemma StepSet(s: State, e: Event, k: Key)
    requires Inv(s) && Enabled(s, e)
    ensures FlagSet(Apply(s, e), k)
  {
    assert FlagSet(s, k);
    if e.Release? && k in s.slots {
      assert OneHolder(s, e.k, k);
    }
  }

  lemma StepHeld(s: State, e: Event, i: nat)
    requires Inv(s) && Enabled(s, e)
    ensures FlagHeld(Apply(s, e), i)
  {
    var s' := Apply(s, e);
    assert FlagHeld(s, i);
    if i in s'.running {
      var k: Key;
      if i in s.running {
        k :| k in s.slots && k.1 == i && Holds(s.slots[k]);
      } else {
        k := e.k;
      }
      assert Holds(s'.slots[k]);
    }
  }

  lemma StepOne(s: State, e: Event, j: Key, k: Key)
    requires Inv(s) && Enabled(s, e)
    ensures OneHolder(Apply(s, e), j, k)
  {
    assert OneHolder(s, j, k) && FlagSet(s, j) && FlagSet(s, k);
  }

  lemma StepBusy(s: State, e: Event, k: Key)
    requires Inv(s) && Enabled(s, e)
    ensures BusyOk(Apply(s, e), k)
  {
    var s' := Apply(s, e);
    if k in s'.slots && s'.slots[k].caller == Busy {
      assert BusyOk(s, k) && SlotOk(s, k) && FlagHeld(s, k.1);
      var j: Key;
      if k in s.slots {
        j :| HadItWhen(s, j, k);
      } else {
        j :| j in s.slots && j.1 == k.1 && Holds(s.slots[j]);
      }
      assert SlotOk(s, j);
      assert HadItWhen(s', j, k);
    }
  }

  lemma {:induction false} RunInv(evs: seq<Event>)
    requires Possible(evs)
    ensures Inv(Run(evs))
  {
    if evs != [] {
      var s, e := Run(Front(evs)), evs[|evs| - 1];
      RunInv(Front(evs));
      forall k ensures FlagSet(Apply(s, e), k) { StepSet(s, e, k); }
      forall i ensures FlagHeld(Apply(s, e), i) { StepHeld(s, e, i); }
      forall j, k ensures OneHolder(Apply(s, e), j, k) { StepOne(s, e, j, k); }
      forall k ensures SlotOk(Apply(s, e), k) { StepSlot(s, e, k); }
      forall k ensures BusyOk(Apply(s, e), k) { StepBusy(s, e, k); }
    }
  }

  /** However many sweeps overlap, a check has at most one call in flight, abandoned calls
      included; and its flag is set exactly while it has one that has not given it back. */
  lemma OneCallInFlight(evs: seq<Event>, i: nat)
    requires Possible(evs)
    ensures i in Run(evs).running <==> exists k :: InFlight(Run(evs), i, k)
    ensures forall j, k :: InFlight(Run(evs), i, j) && InFlight(Run(evs), i, k) ==> j == k
  {
    RunInv(evs);
    var s := Run(evs);
    assert FlagHeld(s, i);
    if i in s.running {
      var k :| k in s.slots && k.1 == i && Holds(s.slots[k]);
      assert InFlight(s, i, k);
    }
    forall k | InFlight(s, i, k)
      ensures i in s.running
    {
      assert FlagSet(s, k);
    }
    forall j, k | InFlight(s, i, j) && InFlight(s, i, k)
      ensures j == k
    {
      assert OneHolder(s, j, k);
    }
  }

  predicate InFlight(s: State, i: nat, k: Key) {
    k in s.slots && k.1 == i && Holds(s.slots[k])
  }

  /** "Still running" is true when it is said: a sweep that finds the flag set does so while
      some call is in flight that gave the flag back only later, if ever; in particular no
      sweep had its result yet. */
  lemma StillRunningIsTrue(evs: seq<Event>, k: Key) returns (j: Key)
    requires Possible(evs) && k in Run(evs).slots && Run(evs).slots[k].caller == Busy
    ensures j in Run(evs).slots && j.1 == k.1
    ensures var x, y := Run(evs).slots[j], Run(evs).slots[k];
      && x.at < y.at
      && (x.freed.Some? ==> y.at < x.freed.value)
      && (x.got.Some? ==> y.at < x.got.value)
  {
    RunInv(evs);
    assert BusyOk(Run(evs), k);
    j :| HadItWhen(Run(evs), j, k);
    assert SlotOk(Run(evs), j);
  }

  /** A sweep that has received a check's result finds the flag free of that call for ever. */
  lemma ReceivedMeansReleased(evs: seq<Event>, j: Key)
    requires Possible(evs) && j in Run(evs).slots && Run(evs).slots[j].caller.Got?
    ensures !Holds(Run(evs).slots[j])
    ensures Run(evs).slots[j].worker == Sent(Run(evs).slots[j].caller.ok)
  {
    RunInv(evs);
    assert SlotOk(Run(evs), j);
  }

  // ----- The verdict and its log -----

  datatype CheckResult = CheckResult(name: string, ok: bool, err: string)

  datatype Readiness = Unknown | Ready | Unready

  /** A line of the log; an Unready one names what fails. */
  datatype Line = LogReady | LogUnready(failing: seq<(string, string)>)

  predicate AllOk(results: seq<CheckResult>) {
    forall i :: 0 <= i < |results| ==> results[i].ok
  }

  function Failing(results: seq<CheckResult>): seq<(string, string)> {
    if results == [] then []
    else
      var last := results[|results| - 1];
      Failing(results[..|results| - 1]) + if last.ok then [] else [(last.name, last.err)]
  }

  function ReadinessOf(results: seq<CheckResult>): Readiness {
    if AllOk(results) then Ready else Unready
  }

  function LineFor(results: seq<CheckResult>): Line {
    if AllOk(results) then LogReady else LogUnready(Failing(results))
  }

  /** The log after the sweeps swapped their verdicts in, in this order. */
  function Logged(sweeps: seq<seq<CheckResult>>): seq<Line> {
    if sweeps == [] then []
    else
      var before := sweeps[..|sweeps| - 1];
      var last := sweeps[|sweeps| - 1];
      Logged(before) + if Held(before) == ReadinessOf(last) then [] else [LineFor(last)]
  }

  /** What the state field holds after these sweeps. */
  function Held(sweeps: seq<seq<CheckResult>>): Readiness {
    if sweeps == [] then Unknown else ReadinessOf(sweeps[|sweeps| - 1])
  }

  /** Every slot of the sweep has an answer of some kind. */
  predicate SweepOver(s: State, id: nat) {
    id in s.sweeps && forall i: nat {:trigger (id, i)} :: i < s.sweeps[id] ==> (id, i) in s.slots && s.slots[(id, i)].caller != Waiting
  }

  function ResultOf(c: Caller, name: string, err: string): CheckResult {
    match c
    case Got(ok) => CheckResult(name, ok, if ok then "" else err)
    case Late => CheckResult(name, false, "deadline")
    case Busy => CheckResult(name, false, "still running from an earlier check")
    case Waiting => CheckResult(name, false, "")
  }

  function ReportOf(s: State, id: nat, name: nat -> string, err: nat -> string): seq<CheckResult>
    requires SweepOver(s, id)
  {
    seq(s.sweeps[id], (i: nat) requires i < s.sweeps[id] && (id, i) in s.slots => ResultOf(s.slots[(id, i)].caller, name(i), err(i)))
  }

  // ----- What the events say of it -----

  /** The registrations among the first `n` events. */
  function Registrations(evs: seq<Event>, n: nat): set<nat>
    requires n <= |evs|
  {
    set i: nat | i < n && evs[i].Register?
  }

  /** The call of the slot came back with this answer. */
  predicate CameBack(x: Slot, ok: bool) {
    x.worker == Ended(ok) || x.worker == Released(ok) || x.worker == Sent(ok)
  }

  /** A slot tells what happened to it. */
  ghost predicate Tells(evs: seq<Event>, s: State, k: Key) {
    && (k in s.slots <==> Enter(k) in evs)
    && (forall ok {:trigger Return(k, ok)} :: Return(k, ok) in evs <==> k in s.slots && CameBack(s.slots[k], ok))
    && (Receive(k) in evs <==> k in s.slots && s.slots[k].caller.Got?)
    && (GiveUp(k) in evs <==> k in s.slots && s.slots[k].caller.Late?)
  }

  lemma StepTells(evs: seq<Event>, s: State, e: Event, k: Key)
    requires Tells(evs, s, k) && SlotOk(s, k) && Enabled(s, e)
    ensures Tells(evs + [e], Apply(s, e), k)
  {
    assert forall x :: x in evs + [e] <==> x in evs || x == e;
  }

  lemma {:induction false} RunTells(evs: seq<Event>, k: Key)
    requires Possible(evs)
    ensures Tells(evs, Run(evs), k)
  {
    if evs != [] {
      RunTells(Front(evs), k);
      RunInv(Front(evs));
      assert SlotOk(Run(Front(evs)), k);
      StepTells(Front(evs), Run(Front(evs)), evs[|evs| - 1], k);
      assert evs == Front(evs) + [evs[|evs| - 1]];
    }
  }

  lemma {:induction false} ChecksCounted(evs: seq<Event>)
    requires Possible(evs)
    ensures Run(evs).checks == |Registrations(evs, |evs|)|
  {
    if evs != [] {
      ChecksCounted(Front(evs));
      var before, last := Registrations(Front(evs), |evs| - 1), |evs| - 1;
      assert Registrations(evs, |evs|) == if evs[last].Register? then before + {last} else before;
    }
  }

  /** A sweep copies every check registered before it began, and no other, for good. */
  lemma {:induction false} SweepCopiesAll(evs: seq<Event>, i: nat, id: nat)
    requires Possible(evs) && i < |evs| && evs[i] == Sweep(id)
    ensures id in Run(evs).sweeps && Run(evs).sweeps[id] == |Registrations(evs, i)|
  {
    if i == |evs| - 1 {
      ChecksCounted(Front(evs));
      assert Registrations(Front(evs), i) == Registrations(evs, i);
    } else {
      SweepCopiesAll(Front(evs), i, id);
      assert Registrations(Front(evs), i) == Registrations(evs, i);
    }
  }

  /** Why a check is reported as not OK. */
  function Complaint(evs: seq<Event>, k: Key, err: string): string {
    if Receive(k) in evs then err
    else if GiveUp(k) in evs then "deadline"
    else "still running from an earlier check"
  }

  /** A sweep reports one result for each check registered before it began. A check is OK exactly
      if this very sweep called it, the call returned without error, and the sweep heard so
      rather than giving up; and the sweep is ready exactly if all of them are. */
  lemma ReadyMeansAllAnswered(evs: seq<Event>, i: nat, id: nat, name: nat -> string, err: nat -> string)
    requires Possible(evs) && i < |evs| && evs[i] == Sweep(id) && SweepOver(Run(evs), id)
    ensures var report, n := ReportOf(Run(evs), id, name, err), |Registrations(evs, i)|;
      && |report| == n
      && (forall c: nat {:trigger report[c]} :: c < n ==>
            && report[c].name == name(c)
            && (report[c].ok <==> Return((id, c), true) in evs && Receive((id, c)) in evs)
            && (report[c].ok || report[c].err == Complaint(evs, (id, c), err(c))))
      && (AllOk(report) <==>
            forall c: nat {:trigger Receive((id, c))} :: c < n ==>
              Return((id, c), true) in evs && Receive((id, c)) in evs)
  {
    RunInv(evs);
    SweepCopiesAll(evs, i, id);
    var s := Run(evs);
    var report, n := ReportOf(s, id, name, err), |Registrations(evs, i)|;
    forall c: nat | c < n
      ensures report[c] == ResultOf(s.slots[(id, c)].caller, name(c), err(c))
      ensures report[c].ok <==> Return((id, c), true) in evs && Receive((id, c)) in evs
      ensures s.slots[(id, c)].caller.Got? <==> Receive((id, c)) in evs
      ensures s.slots[(id, c)].caller.Late? <==> GiveUp((id, c)) in evs
    {
      RunTells(evs, (id, c));
      assert SlotOk(s, (id, c));
    }
    if AllOk(report) {
      forall c: nat | c < n
        ensures Return((id, c), true) in evs && Receive((id, c)) in evs
      {
        assert report[c].ok;
      }
    }
  }

  class Registry {
    var state: Readiness
    var log: seq<Line>

    constructor ()
      ensures state == Unknown && log == []
    {
      state, log := Unknown, [];
    }

    /** Ready exactly when every check passed; none at all is ready. */
    method Verdict(results: seq<CheckResult>) returns (ready: bool)
      ensures ready <==> AllOk(results)
    {
      ready := true;
      for i := 0 to |results|
        invariant ready <==> AllOk(results[..i])
      {
        assert results[..i + 1] == results[..i] + [results[i]];
        assert AllOk(results[..i + 1]) <==> AllOk(results[..i]) && results[i].ok;
        if !results[i].ok {
          ready := false;
        }
      }
      assert results[..|results|] == results;
    }

    method LogTransition(ready: bool, results: seq<CheckResult>, ghost past: seq<seq<CheckResult>>)
      requires ready <==> AllOk(results)
      requires state == Held(past) && log == Logged(past)
      modifies this
      ensures state == Held(past + [results]) && log == Logged(past + [results])
    {
      assert (past + [results])[..|past|] == past;
      var was := state;
      state := if ready then Ready else Unready;
      if was == state {
        return;
      }
      if ready {
        log := log + [LogReady];
        return;
      }
      var failed: seq<(string, string)> := [];
      for i := 0 to |results|
        invariant failed == Failing(results[..i])
      {
        assert results[..i + 1][..i] == results[..i];
        if !results[i].ok {
          failed := failed + [(results[i].name, results[i].err)];
        }
      }
      assert results[..|results|] == results;
      log := log + [LogUnready(failed)];
    }
  }

  /** Sweep `i` changed the readiness: the first one, or one unlike the one before. */
  predicate Edge(sweeps: seq<seq<CheckResult>>, i: nat)
    requires i < |sweeps|
  {
    i == 0 || ReadinessOf(sweeps[i - 1]) != ReadinessOf(sweeps[i])
  }

  /** The indices of the sweeps that changed the readiness. */
  function Edges(sweeps: seq<seq<CheckResult>>): seq<nat> {
    if sweeps == [] then []
    else Edges(sweeps[..|sweeps| - 1]) + if Edge(sweeps, |sweeps| - 1) then [|sweeps| - 1] else []
  }

  /** Edges lists them all, once each and in order. */
  lemma {:induction false} EdgesAreAll(sweeps: seq<seq<CheckResult>>)
    ensures forall i: nat :: i in Edges(sweeps) <==> i < |sweeps| && Edge(sweeps, i)
    ensures forall m, n :: 0 <= m < n < |Edges(sweeps)| ==> Edges(sweeps)[m] < Edges(sweeps)[n]
  {
    if sweeps != [] {
      var before := sweeps[..|sweeps| - 1];
      EdgesAreAll(before);
      assert forall i: nat :: i < |before| ==> Edge(before, i) == Edge(sweeps, i);
      forall m | 0 <= m < |Edges(before)|
        ensures Edges(before)[m] < |before|
      {
        assert Edges(before)[m] in Edges(before);
      }
    }
  }

  ghost predicate TellsOf(lines: seq<Line>, at: seq<nat>, sweeps: seq<seq<CheckResult>>) {
    && |lines| == |at|
    && forall m :: 0 <= m < |at| ==> at[m] < |sweeps| && lines[m] == LineFor(sweeps[at[m]])
  }

  lemma TellsMore(lines: seq<Line>, at: seq<nat>, sweeps: seq<seq<CheckResult>>)
    requires sweeps != [] && TellsOf(lines, at, sweeps[..|sweeps| - 1])
    ensures TellsOf(lines, at, sweeps)
    ensures TellsOf(lines + [LineFor(sweeps[|sweeps| - 1])], at + [|sweeps| - 1], sweeps)
  {
  }

  /** The log is one line per change of readiness and nothing else, in swap order, each line
      telling of the sweep that made the change. */
  lemma {:induction false} LogIsTheEdges(sweeps: seq<seq<CheckResult>>)
    ensures TellsOf(Logged(sweeps), Edges(sweeps), sweeps)
  {
    if sweeps != [] {
      var before, last := sweeps[..|sweeps| - 1], sweeps[|sweeps| - 1];
      LogIsTheEdges(before);
      TellsMore(Logged(before), Edges(before), sweeps);
      if Edge(sweeps, |sweeps| - 1) {
        assert Logged(sweeps) == Logged(before) + [LineFor(last)];
      } else {
        assert Logged(sweeps) == Logged(before) && Edges(sweeps) == Edges(before);
      }
    }
  }

  /** Ready and not ready take turns in the log, and its last line is the current state. */
  lemma {:induction false} LinesAlternate(sweeps: seq<seq<CheckResult>>)
    ensures forall m :: 0 <= m < |Logged(sweeps)| - 1 ==> Logged(sweeps)[m].LogReady? != Logged(sweeps)[m + 1].LogReady?
    ensures sweeps != [] ==>
      Logged(sweeps) != [] && (Logged(sweeps)[|Logged(sweeps)| - 1].LogReady? <==> Held(sweeps) == Ready)
  {
    if sweeps != [] {
      LinesAlternate(sweeps[..|sweeps| - 1]);
    }
  }

  /** The line that says not ready names exactly the failing checks, in their order. */
  lemma {:induction false} FailingNamesThem(results: seq<CheckResult>)
    ensures forall x :: x in Failing(results) <==>
      exists i :: 0 <= i < |results| && !results[i].ok && (results[i].name, results[i].err) == x
    ensures Failing(results) == [] <==> AllOk(results)
  {
    if results != [] {
      var before := results[..|results| - 1];
      FailingNamesThem(before);
      forall i | 0 <= i < |results| && !results[i].ok
        ensures (results[i].name, results[i].err) in Failing(results)
      {
        assert i < |before| ==> before[i] == results[i];
      }
      forall x | x in Failing(results)
        ensures exists i :: 0 <= i < |results| && !results[i].ok && (results[i].name, results[i].err) == x
      {
        if x in Failing(before) {
          var i :| 0 <= i < |before| && !before[i].ok && (before[i].name, before[i].err) == x;
          assert results[i] == before[i];
        }
      }
    }
  }
}
