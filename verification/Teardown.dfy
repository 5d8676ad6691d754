/** Ordered teardown: the stack of shutdown steps, and what its order means for the
    goroutines of the supervised group. */
module Teardown {
  import opened Prelude
  import G = Group

  /** What a step's function is. The application's own are told apart by a number. */
  datatype Kind = App(id: nat) | Tracing | MetricsExport | BackgroundWork | BackgroundContext | Api | Streams

  datatype Step = Step(name: string, kind: Kind)

  datatype Outcome = Fine | Failed(err: string) | Panicked

  /** A step that has run. */
  datatype Ran = Ran(step: Step, outcome: Outcome)

  function Reversed<T>(s: seq<T>): (r: seq<T>)
    ensures |r| == |s|
  {
    if s == [] then [] else [s[|s| - 1]] + Reversed(Front(s))
  }

  lemma {:induction false} ReversedAt<T>(s: seq<T>)
    ensures forall i :: 0 <= i < |s| ==> Reversed(s)[i] == s[|s| - 1 - i]
  {
    if s != [] {
      ReversedAt(Front(s));
    }
  }

  /** The error a finished step contributes to the joined error of the teardown. */
  function ErrorOf(r: Ran): Option<string> {
    match r.outcome
    case Fine => None
    case Failed(err) => Some(r.step.name + ": " + err)
    case Panicked => Some(r.step.name + ": panicked during shutdown")
  }

  function Errors(ran: seq<Ran>): seq<string> {
    if ran == [] then []
    else
      var rest := Errors(ran[..|ran| - 1]);
      match ErrorOf(ran[|ran| - 1])
      case None => rest
      case Some(e) => rest + [e]
  }

  /** The joined error is nil exactly when every step answered nil. */
  lemma {:induction false} NilIffAllFine(ran: seq<Ran>)
    ensures Errors(ran) == [] <==> forall i :: 0 <= i < |ran| ==> ran[i].outcome.Fine?
  {
    if ran != [] {
      NilIffAllFine(ran[..|ran| - 1]);
    }
  }

  /** Every failed or panicked step is in it by name, and nothing else. */
  lemma {:induction false} ErrorsAreTheFailures(ran: seq<Ran>, e: string)
    ensures e in Errors(ran) <==> exists i :: 0 <= i < |ran| && Reports(ran[i], e)
  {
    if ran != [] {
      ErrorsAreTheFailures(ran[..|ran| - 1], e);
      assert ErrorOf(ran[|ran| - 1]) == Some(e) <==> Reports(ran[|ran| - 1], e);
    }
  }

  predicate Reports(r: Ran, e: string) {
    || (r.outcome.Failed? && e == r.step.name + ": " + r.outcome.err)
    || (r.outcome.Panicked? && e == r.step.name + ": panicked during shutdown")
  }

  /** The errors are in the order of the steps. */
  lemma {:induction false} ErrorsInOrder(a: seq<Ran>, b: seq<Ran>)
    ensures Errors(a + b) == Errors(a) + Errors(b)
  {
    if b == [] {
      assert a + b == a;
    } else {
      ErrorsInOrder(a, b[..|b| - 1]);
      assert (a + b)[..|a + b| - 1] == a + b[..|b| - 1];
    }
  }

  function Steps(ran: seq<Ran>): (s: seq<Step>)
    ensures |s| == |ran|
    ensures forall i :: 0 <= i < |s| ==> s[i] == ran[i].step
  {
    seq(|ran|, i requires 0 <= i < |ran| => ran[i].step)
  }

  // ----- The object -----

  class Stack {
    var steps: seq<Step>
    var done: bool

    constructor ()
      ensures steps == [] && !done
    {
      steps, done := [], false;
    }

    /** A nil function is ignored, and so is a step that comes after Shutdown. */
    method Push(name: string, fn: Option<Kind>)
      modifies this`steps
      ensures steps == if fn.None? || done then old(steps) else old(steps) + [Step(name, fn.value)]
    {
      if fn.None? {
        return;
      }
      if done {
        return;
      }
      steps := steps + [Step(name, fn.value)];
    }

    /** Runs what was pushed, last first, whatever each step answers; `answer` is what the
        i-th step to run does. A second call does nothing. */
    method Shutdown(answer: nat -> Outcome) returns (ran: seq<Ran>, errs: seq<string>)
      modifies this
      ensures done && (if old(done) then steps == old(steps) && ran == [] else steps == [])
      ensures !old(done) ==> Steps(ran) == Reversed(old(steps))
      ensures forall i :: 0 <= i < |ran| ==> ran[i].outcome == answer(i)
      ensures errs == Errors(ran)
    {
      ran, errs := [], [];
      if done {
        return;
      }
      done := true;
      var taken := steps;
      steps := [];
      var i := |taken|;
      while i > 0
        invariant 0 <= i <= |taken| && |ran| == |taken| - i
        invariant done && steps == []
        invariant forall j :: 0 <= j < |ran| ==> ran[j] == Ran(taken[|taken| - 1 - j], answer(j))
        invariant errs == Errors(ran)
      {
        i := i - 1;
        var r := Ran(taken[i], answer(|ran|));
        match r.outcome {
          case Fine =>
          case Failed(err) => errs := errs + [r.step.name + ": " + err];
          case Panicked => errs := errs + [r.step.name + ": panicked during shutdown"];
        }
        assert (ran + [r])[..|ran|] == ran;
        ran := ran + [r];
      }
      ReversedAt(taken);
    }
  }

  /** A step pushed before Shutdown runs first, one pushed after it never does, and nothing runs
      twice. */
  method ShutDownTwice(stack: Stack, early: Step, late: Step, answer: nat -> Outcome) returns (ran: seq<Ran>, again: seq<Ran>)
    requires !stack.done
    modifies stack
    ensures |ran| == |old(stack.steps)| + 1 && ran[0] == Ran(early, answer(0))
    ensures forall i :: 0 < i < |ran| ==> ran[i] == Ran(old(stack.steps)[|ran| - 1 - i], answer(i))
    ensures again == [] && stack.steps == []
  {
    var errs;
    ghost var all := stack.steps + [early];
    stack.Push(early.name, Some(early.kind));
    ran, errs := stack.Shutdown(answer);
    ReversedAt(all);
    assert forall i :: 0 <= i < |ran| ==> Steps(ran)[i] == all[|all| - 1 - i];
    stack.Push(late.name, Some(late.kind));
    again, errs := stack.Shutdown(answer);
  }

  // ----- Teardown beside the running group -----

  /** `taken` is what Shutdown found on the stack and `todo` what is left of it; `joins`
      names the Wait that each background-work step called, by its place in the run order. */
  datatype State = State(
    g: G.State,
    stack: seq<Step>,
    done: bool,
    taken: seq<Step>,
    todo: seq<Step>,
    current: Option<Step>,
    ran: seq<Ran>,
    joins: map<nat, G.Id>)

  datatype Event =
    | Push(step: Step)
    | Begin
    | Start(w: G.Id)
    | End(outcome: Outcome)
    | InGroup(ev: G.Event)

  const INIT := State(G.INIT, [], false, [], [], None, [], map[])

  /** background-work ends when its Wait returns, and fails exactly when that gave up. */
  predicate Enabled(s: State, ev: Event) {
    match ev
    case Push(_) => true
    case Begin => true
    case Start(w) =>
      s.current.None? && s.todo != [] && (s.todo[|s.todo| - 1].kind.BackgroundWork? ==> w !in s.g.ws)
    case End(outcome) =>
      s.current.Some? &&
      (s.current.value.kind.BackgroundWork? ==>
         && |s.ran| in s.joins && s.joins[|s.ran|] in s.g.ws
         && var pc := s.g.ws[s.joins[|s.ran|]].pc;
            pc.Returned? && (if pc.ok then outcome.Fine? else outcome.Failed?))
    case InGroup(e) => G.Enabled(s.g, e)
  }

  function Next(s: State, ev: Event): State
    requires Enabled(s, ev)
  {
    match ev
    case Push(step) => if s.done then s else s.(stack := s.stack + [step])
    case Begin => if s.done then s else s.(done := true, taken := s.stack, todo := s.stack, stack := [])
    case Start(w) =>
      var step := s.todo[|s.todo| - 1];
      var s1 := s.(todo := Front(s.todo), current := Some(step));
      if step.kind.BackgroundWork?
      then s1.(g := G.Next(s.g, G.WaitCall(w)), joins := s.joins[|s.ran| := w])
      else s1
    case End(outcome) => s.(current := None, ran := s.ran + [Ran(s.current.value, outcome)])
    case InGroup(e) => s.(g := G.Next(s.g, e))
  }

  predicate Possible(evs: seq<Event>)
    decreases |evs|, 0
  {
    evs != [] ==> Possible(Front(evs)) && Enabled(Run(Front(evs)), evs[|evs| - 1])
  }

  function Run(evs: seq<Event>): State
    requires Possible(evs)
    decreases |evs|, 1
  {
    if evs == [] then INIT else Next(Run(Front(evs)), evs[|evs| - 1])
  }

  /** The steps pushed before the first Shutdown, in push order. */
  function Accepted(evs: seq<Event>): seq<Step> {
    if evs == [] then []
    else
      var front := Front(evs);
      match evs[|evs| - 1]
      case Push(step) => if Begin in front then Accepted(front) else Accepted(front) + [step]
      case _ => Accepted(front)
  }

  function Underway(s: State): seq<Step> {
    match s.current
    case None => []
    case Some(step) => [step]
  }

  /** The Wait of a background-work step, by the step's place in the run order. */
  ghost predicate JoinOk(s: State, i: nat)
    requires i in s.joins
  {
    && s.joins[i] in s.g.ws
    && (if i < |s.ran| then
          && s.ran[i].step.kind.BackgroundWork?
          && s.g.ws[s.joins[i]].pc.Returned?
          && (s.ran[i].outcome.Fine? ==> s.g.ws[s.joins[i]].pc.ok)
        else
          i == |s.ran| && s.current.Some? && s.current.value.kind.BackgroundWork?)
  }

  ghost predicate Joins(s: State) {
    && (forall i {:trigger JoinOk(s, i)} :: i in s.joins ==> JoinOk(s, i))
    && (forall i: nat :: i < |s.ran| && s.ran[i].step.kind.BackgroundWork? ==> i in s.joins)
    && (s.current.Some? && s.current.value.kind.BackgroundWork? ==> |s.ran| in s.joins)
  }

  /** Nothing taken off the stack is lost, repeated or reordered. */
  ghost predicate Ordered(s: State) {
    && (!s.done ==> s.taken == [] && s.todo == [] && s.current.None? && s.ran == [])
    && (s.done ==> s.stack == [])
    && Reversed(s.taken) == Steps(s.ran) + Underway(s) + Reversed(s.todo)
  }

  /** A Wait that has returned stays returned, with its answer. */
  lemma ReturnedStays(s: G.State, ev: G.Event, w: G.Id)
    requires G.Enabled(s, ev) && w in s.ws
    ensures w in G.Next(s, ev).ws && G.Next(s, ev).ws[w].began == s.ws[w].began
    ensures s.ws[w].pc.Returned? ==> G.Next(s, ev).ws[w] == s.ws[w]
  {
  }

  lemma StepJoin(s: State, ev: Event, i: nat)
    requires Joins(s) && Enabled(s, ev) && i in Next(s, ev).joins
    ensures JoinOk(Next(s, ev), i)
  {
    if i in s.joins {
      assert JoinOk(s, i);
      match ev
      case Start(w) =>
        if s.todo[|s.todo| - 1].kind.BackgroundWork? {
          ReturnedStays(s.g, G.WaitCall(w), s.joins[i]);
        }
      case InGroup(e) => ReturnedStays(s.g, e, s.joins[i]);
      case _ =>
    }
  }

  lemma StepJoins(s: State, ev: Event)
    requires Joins(s) && Enabled(s, ev)
    ensures Joins(Next(s, ev))
  {
    forall i | i in Next(s, ev).joins
      ensures JoinOk(Next(s, ev), i)
    {
      StepJoin(s, ev, i);
    }
    if |s.ran| in s.joins {
      assert JoinOk(s, |s.ran|);
    }
  }

  lemma StepOrdered(s: State, ev: Event)
    requires Ordered(s) && Enabled(s, ev)
    ensures Ordered(Next(s, ev))
  {
    hide G.Next;
    hide G.Enabled;
    if ev.End? {
      RanOne(s, ev);
    } else if ev.Start? {
      StartKeepsOrder(Steps(s.ran), s.todo);
    }
  }

  lemma StartKeepsOrder(ran: seq<Step>, todo: seq<Step>)
    requires todo != []
    ensures ran + [] + Reversed(todo) == ran + [todo[|todo| - 1]] + Reversed(Front(todo))
  {
  }

  lemma RanOne(s: State, ev: Event)
    requires Enabled(s, ev) && ev.End?
    ensures Steps(Next(s, ev).ran) == Steps(s.ran) + Underway(s)
  {
  }

  lemma StepGroup(s: State, ev: Event)
    requires G.Inv(s.g) && Enabled(s, ev)
    ensures G.Inv(Next(s, ev).g)
  {
    match ev
    case Start(w) =>
      if s.todo[|s.todo| - 1].kind.BackgroundWork? {
        G.StepInv(s.g, G.WaitCall(w));
      }
    case InGroup(e) => G.StepInv(s.g, e);
    case _ =>
  }

  lemma {:induction false} RunInv(evs: seq<Event>)
    requires Possible(evs)
    ensures Ordered(Run(evs)) && Joins(Run(evs)) && G.Inv(Run(evs).g)
    decreases |evs|
  {
    if evs == [] {
      G.RunInv([]);
    } else {
      var s, ev := Run(Front(evs)), evs[|evs| - 1];
      RunInv(Front(evs));
      StepOrdered(s, ev);
      StepJoins(s, ev);
      StepGroup(s, ev);
    }
  }

  lemma {:induction false} AcceptedIsTaken(evs: seq<Event>)
    requires Possible(evs)
    ensures Run(evs).done <==> Begin in evs
    ensures Accepted(evs) == if Begin in evs then Run(evs).taken else Run(evs).stack
    decreases |evs|
  {
    if evs != [] {
      var front := Front(evs);
      AcceptedIsTaken(front);
      StackMoves(Run(front), evs[|evs| - 1]);
      InFront(evs, Begin);
    }
  }

  lemma StackMoves(s: State, ev: Event)
    requires Enabled(s, ev)
    ensures Next(s, ev).done == (s.done || ev.Begin?)
    ensures Next(s, ev).taken == if ev.Begin? && !s.done then s.stack else s.taken
    ensures !s.done && !ev.Begin? ==> Next(s, ev).stack == if ev.Push? then s.stack + [ev.step] else s.stack
  {
  }

  /** Every accepted step runs exactly once, one at a time, in reverse push order, whatever
      the steps before it answered; a step pushed after Shutdown began never runs. */
  lemma StepsRunOnceInReverse(evs: seq<Event>)
    requires Possible(evs) && Begin in evs
    ensures var s := Run(evs);
      && Steps(s.ran) + Underway(s) <= Reversed(Accepted(evs))
      && (s.current.None? && s.todo == [] ==> Steps(s.ran) == Reversed(Accepted(evs)))
      && (s.current.None? && s.todo != [] ==> forall w :: w !in s.g.ws ==> Enabled(s, Start(w)))
  {
    RunInv(evs);
    AcceptedIsTaken(evs);
    var s := Run(evs);
    assert Steps(s.ran) + Underway(s) == Reversed(s.taken)[..|s.ran| + |Underway(s)|];
  }

  /** The step at place `i` of the accepted ones has started, and it has ended. */
  predicate Started(s: State, n: nat, i: nat) {
    i < n && n - i <= |s.ran| + |Underway(s)|
  }

  predicate Ended(s: State, n: nat, i: nat) {
    i < n && n - i <= |s.ran|
  }

  /** What has run is the accepted steps from the last one down. */
  predicate RunDown(s: State, all: seq<Step>) {
    && |s.ran| + |Underway(s)| <= |all|
    && forall k {:trigger s.ran[k]} :: 0 <= k < |s.ran| ==> s.ran[k].step == all[|all| - 1 - k]
  }

  lemma PrefixRunsDown(s: State, all: seq<Step>)
    requires Steps(s.ran) + Underway(s) <= Reversed(all)
    ensures RunDown(s, all)
  {
    ReversedAt(all);
    forall k | 0 <= k < |s.ran|
      ensures s.ran[k].step == all[|all| - 1 - k]
    {
      assert (Steps(s.ran) + Underway(s))[k] == Reversed(all)[k];
    }
  }

  lemma StepsRunDown(evs: seq<Event>)
    requires Possible(evs) && Begin in evs
    ensures RunDown(Run(evs), Accepted(evs))
  {
    StepsRunOnceInReverse(evs);
    PrefixRunsDown(Run(evs), Accepted(evs));
  }

  lemma YoungerEnded(s: State, all: seq<Step>, i: nat, j: nat)
    requires RunDown(s, all) && i < j < |all| && Started(s, |all|, i)
    ensures Ended(s, |all|, j) && s.ran[|all| - 1 - j].step == all[j]
  {
  }

  /** Whatever was pushed, by whom and between what: a step starts only after every step that
      was pushed after it has ended, and where it ran says which it is. */
  lemma YoungerStepsEndFirst(evs: seq<Event>, i: nat, j: nat)
    requires Possible(evs) && Begin in evs && i < j < |Accepted(evs)|
    requires Started(Run(evs), |Accepted(evs)|, i)
    ensures var s, all := Run(evs), Accepted(evs);
      Ended(s, |all|, j) && s.ran[|all| - 1 - j].step == all[j]
  {
    StepsRunDown(evs);
    YoungerEnded(Run(evs), Accepted(evs), i, j);
  }

  const TRACING := Step("tracing", Tracing)
  const METRICS := Step("metrics-export", MetricsExport)
  const WORK := Step("background-work", BackgroundWork)
  const CONTEXT := Step("background-context", BackgroundContext)
  const API := Step("api", Api)
  const STREAMS := Step("streams", Streams)

  /** Run pushed its four steps at these places, in this order, whatever else was pushed before,
      between and after them. */
  predicate RunPushed(all: seq<Step>, work: nat, context: nat, api: nat, streams: nat) {
    && work < context < api < streams < |all|
    && all[work] == WORK && all[context] == CONTEXT && all[api] == API && all[streams] == STREAMS
  }

  /** Once a step pushed before Run's own has started, streams, api, background-context and
      background-work have ended, in that order. */
  lemma RunStepsGoFirst(evs: seq<Event>, i: nat, work: nat, context: nat, api: nat, streams: nat)
    requires Possible(evs) && Begin in evs && RunPushed(Accepted(evs), work, context, api, streams)
    requires i < work && Started(Run(evs), |Accepted(evs)|, i)
    ensures var s, last := Run(evs), |Accepted(evs)| - 1;
      && last - streams < last - api < last - context < last - work < |s.ran|
      && s.ran[last - streams].step == STREAMS && s.ran[last - api].step == API
      && s.ran[last - context].step == CONTEXT && s.ran[last - work].step == WORK
  {
    YoungerStepsEndFirst(evs, i, streams);
    YoungerStepsEndFirst(evs, i, api);
    YoungerStepsEndFirst(evs, i, context);
    YoungerStepsEndFirst(evs, i, work);
  }

  /** The steps that New pushes first go last: metrics-export starts after everything but
      tracing has ended, and tracing after that. */
  lemma TelemetryGoesLast(evs: seq<Event>, j: nat)
    requires Possible(evs) && Begin in evs && j < |Accepted(evs)|
    requires 2 <= |Accepted(evs)| && Accepted(evs)[0] == TRACING && Accepted(evs)[1] == METRICS
    ensures OldestGoLast(Run(evs), Accepted(evs), j)
  {
    StepsRunDown(evs);
    OldestEnd(Run(evs), Accepted(evs), j);
  }

  /** The second step accepted starts after step `j` has ended, unless that is one of the first
      two; the first one after every other, and it is tracing that runs last. */
  predicate OldestGoLast(s: State, all: seq<Step>, j: nat) {
    && (Started(s, |all|, 1) && 1 < j ==> Ended(s, |all|, j))
    && (Started(s, |all|, 0) && 0 < j ==> Ended(s, |all|, j))
    && (Ended(s, |all|, 0) ==> s.ran[|all| - 1].step == TRACING)
  }

  lemma OldestEnd(s: State, all: seq<Step>, j: nat)
    requires RunDown(s, all) && j < |all| && all[0] == TRACING
    ensures OldestGoLast(s, all, j)
  {
  }

  /** A Wait that answered nil leaves nobody behind who was there when it began. */
  lemma JoinedWhenNil(g: G.State, w: G.Id)
    requires G.Inv(g) && w in g.ws
    ensures g.ws[w].pc.Returned? && g.ws[w].pc.ok ==>
      forall x :: x in g.gs && g.gs[x].entered < g.ws[w].began ==> g.gs[x].left.Some?
  {
    assert G.WaiterOk(g, w);
  }

  /** If background-work answered nil, then from its end on, through every later step, no
      goroutine supervised before it began is live. */
  lemma BackgroundWorkJoins(evs: seq<Event>, i: nat)
    requires Possible(evs) && i < |Run(evs).ran|
    requires Run(evs).ran[i] == Ran(WORK, Fine)
    ensures var s := Run(evs);
      && i in s.joins && s.joins[i] in s.g.ws
      && forall g :: g in s.g.gs && s.g.gs[g].entered < s.g.ws[s.joins[i]].began ==> s.g.gs[g].left.Some?
  {
    RunInv(evs);
    var s := Run(evs);
    assert JoinOk(s, i);
    JoinedWhenNil(s.g, s.joins[i]);
  }

  /** The promise to the application: once a step pushed before background-work has started,
      the work that was supervised before the drain is over, and stays over, unless
      background-work reported that it was not. */
  lemma BackgroundWorkIsJoinedFirst(evs: seq<Event>, i: nat, work: nat)
    requires Possible(evs) && Begin in evs && i < work < |Accepted(evs)| && Accepted(evs)[work] == WORK
    requires Started(Run(evs), |Accepted(evs)|, i)
    ensures var s, at := Run(evs), |Accepted(evs)| - 1 - work;
      && at < |s.ran| && s.ran[at].step == WORK
      && (s.ran[at].outcome.Fine? ==>
            && at in s.joins && s.joins[at] in s.g.ws
            && forall g :: g in s.g.gs && s.g.gs[g].entered < s.g.ws[s.joins[at]].began ==> s.g.gs[g].left.Some?)
  {
    YoungerStepsEndFirst(evs, i, work);
    var s, at := Run(evs), |Accepted(evs)| - 1 - work;
    if s.ran[at].outcome.Fine? {
      BackgroundWorkJoins(evs, at);
    }
  }
}
