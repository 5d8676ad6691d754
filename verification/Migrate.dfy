/** The forward-only migration runner over a database whose transactions may fail, and whose
    process may die, at any point. */
module Migrate {
  import opened Prelude

  /** One step: what it makes of the contents, None when it fails on them; no Up at all is an
      error. */
  datatype Migration<!D> = Migration(name: string, up: Option<D -> Option<D>>)

  /** What the file holds: its contents, its user_version, and the history of committed steps. */
  datatype File<D> = File(data: D, version: int, committed: seq<int>)

  /** What befalls one step from outside. A commit that reports an error or is cut short by a
      crash may or may not have reached the disk. */
  datatype Fault =
    | Nothing
    | BeginFails
    | UpFails
    | StampFails
    | CommitFails(durable: bool)
    | CrashEarly             // before the commit: the transaction is lost
    | CrashLate(durable: bool)

  datatype Outcome = Done | Unreadable | FromTheFuture | Failed(index: int) | Crashed | Panicked

  /** One start of the program: its list of steps, whether user_version can be read, and what
      befalls each step. */
  datatype Start<!D> = Start(steps: seq<Migration<D>>, readFails: bool, fault: nat -> Fault)

  /** How a step ended. */
  datatype StepEnd = Committed | Error | Death

  /** The end of step `i`, given the contents it finds. */
  function StepEnds<D>(m: Migration<D>, f: Fault, data: D): StepEnd {
    if m.up.None? || f.BeginFails? || f.UpFails? then Error
    else if f.CrashEarly? then Death
    else if m.up.value(data).None? || f.StampFails? || f.CommitFails? then Error
    else if f.CrashLate? then Death
    else Committed
  }

  /** Whether the step's transaction reached the disk. */
  predicate Lands<D>(m: Migration<D>, f: Fault, data: D) {
    && m.up.Some? && m.up.value(data).Some?
    && (f.Nothing? || (f.CommitFails? && f.durable) || (f.CrashLate? && f.durable))
  }

  function AfterStep<D>(file: File<D>, i: nat, m: Migration<D>, f: Fault): File<D> {
    if Lands(m, f, file.data) then File(m.up.value(file.data).value, i + 1, file.committed + [i]) else file
  }

  /** The steps from `i` on. */
  function Loop<D>(file: File<D>, i: nat, st: Start<D>): (File<D>, Outcome)
    requires i <= |st.steps|
    decreases |st.steps| - i
  {
    if i == |st.steps| then (file, Done)
    else
      var m, f := st.steps[i], st.fault(i);
      var next := AfterStep(file, i, m, f);
      match StepEnds(m, f, file.data)
      case Committed => Loop(next, i + 1, st)
      case Error => (next, Failed(i))
      case Death => (next, Crashed)
  }

  /** One call of MigrateContext. A negative version, which only another program can have
      written, makes the first list access panic. */
  function Migrated<D>(file: File<D>, st: Start<D>): (File<D>, Outcome) {
    if st.readFails then (file, Unreadable)
    else if file.version > |st.steps| then (file, FromTheFuture)
    else if file.version < 0 then (file, Panicked)
    else Loop(file, file.version, st)
  }

  class Database<!D> {
    var data: D
    var version: int
    var committed: seq<int>

    function View(): File<D>
      reads this
    {
      File(data, version, committed)
    }

    constructor (data: D)
      ensures View() == File(data, 0, [])
    {
      this.data, version, committed := data, 0, [];
    }

    method Migrate(st: Start<D>) returns (r: Outcome)
      modifies this
      ensures (View(), r) == Migrated(old(View()), st)
    {
      if st.readFails {
        return Unreadable;
      }
      if version > |st.steps| {
        return FromTheFuture;
      }
      if version < 0 {
        return Panicked;
      }
      var i := version;
      while i < |st.steps|
        invariant 0 <= i <= |st.steps|
        invariant Loop(View(), i, st) == Migrated(old(View()), st)
      {
        var end := ApplyStep(i, st.steps[i], st.fault(i));
        if end == Error {
          return Failed(i);
        }
        if end == Death {
          return Crashed;
        }
        i := i + 1;
      }
      return Done;
    }

    /** One transaction: the contents and the stamp change together or not at all. */
    method ApplyStep(i: nat, m: Migration<D>, f: Fault) returns (end: StepEnd)
      modifies this
      ensures View() == AfterStep(old(View()), i, m, f)
      ensures end == StepEnds(m, f, old(data))
    {
      if m.up.None? || f.BeginFails? {
        return Error;
      }
      var draft := m.up.value(data);
      if f.CrashEarly? {
        return Death;
      }
      if f.UpFails? || draft.None? || f.StampFails? {
        return Error;
      }
      if f.Nothing? || f.durable {
        data, version, committed := draft.value, i + 1, committed + [i];
      }
      if f.CrashLate? {
        return Death;
      }
      return if f.Nothing? then Committed else Error;
    }
  }

  // ----- Runs -----

  /** The contents that the first `n` steps, in order, make of `start`; None if one of them
      cannot be applied. */
  function Built<D>(start: D, steps: seq<Migration<D>>, n: nat): Option<D>
    requires n <= |steps|
  {
    if n == 0 then Some(start)
    else
      var before := Built(start, steps, n - 1);
      if before.None? || steps[n - 1].up.None? then None else steps[n - 1].up.value(before.value)
  }

  function Upto(n: nat): seq<int> {
    if n == 0 then [] else Upto(n - 1) + [n - 1]
  }

  /** The file is exactly what the first user_version steps of the master list make of the
      first contents, each committed once and in order. */
  ghost predicate IsPrefix<D>(start: D, master: seq<Migration<D>>, file: File<D>) {
    && 0 <= file.version <= |master|
    && file.committed == Upto(file.version)
    && Built(start, master, file.version) == Some(file.data)
  }

  lemma {:induction false} BuiltOfPrefix<D>(start: D, steps: seq<Migration<D>>, master: seq<Migration<D>>, n: nat)
    requires n <= |steps| && steps <= master
    ensures Built(start, steps, n) == Built(start, master, n)
  {
    if n > 0 {
      BuiltOfPrefix(start, steps, master, n - 1);
      assert steps[n - 1] == master[n - 1];
    }
  }

  lemma {:induction false} LoopKeepsPrefix<D>(start: D, master: seq<Migration<D>>, file: File<D>, i: nat, st: Start<D>)
    requires st.steps <= master && i <= |st.steps|
    requires IsPrefix(start, master, file) && file.version == i
    ensures var (file', r) := Loop(file, i, st);
      && IsPrefix(start, master, file')
      && i <= file'.version <= |st.steps|
      && (r == Done ==> file'.version == |st.steps|)
    decreases |st.steps| - i
  {
    if i < |st.steps| {
      assert st.steps[i] == master[i];
      var next := AfterStep(file, i, st.steps[i], st.fault(i));
      assert IsPrefix(start, master, next);
      if StepEnds(st.steps[i], st.fault(i), file.data).Committed? {
        LoopKeepsPrefix(start, master, next, i + 1, st);
      }
    }
  }

  /** One run, of any build, whatever befalls it: the version never goes back, nil means the
      file is current, and a newer file is refused unchanged. */
  lemma RunKeepsPrefix<D>(start: D, master: seq<Migration<D>>, file: File<D>, st: Start<D>)
    requires IsPrefix(start, master, file) && st.steps <= master
    ensures var (file', r) := Migrated(file, st);
      && IsPrefix(start, master, file')
      && file.version <= file'.version
      && (r == Done ==> file'.version == |st.steps|)
      && (r == FromTheFuture <==> !st.readFails && file.version > |st.steps|)
      && (file.version >= |st.steps| ==> file' == file)
  {
    if !st.readFails && file.version <= |st.steps| {
      LoopKeepsPrefix(start, master, file, file.version, st);
      OutcomeOfLoop(file, file.version, st);
    }
  }

  lemma {:induction false} OutcomeOfLoop<D>(file: File<D>, i: nat, st: Start<D>)
    requires i <= |st.steps|
    ensures Loop(file, i, st).1 in {Done, Crashed} || Loop(file, i, st).1.Failed?
    decreases |st.steps| - i
  {
    if i < |st.steps| {
      var next := AfterStep(file, i, st.steps[i], st.fault(i));
      OutcomeOfLoop(next, i + 1, st);
    }
  }

  /** A failure names the step it is about: nothing befell the steps before it, they are in the
      file, and it either could not be applied or had something befall it; it is in the file too
      only if it was its commit that failed. A crash befell some step. */
  lemma FailureNamesTheStep<D>(file: File<D>, st: Start<D>, k: nat)
    requires 0 <= file.version
    ensures var (file', r) := Migrated(file, st);
      r == Failed(k) ==>
        && file.version <= k < |st.steps|
        && (forall i :: file.version <= i < k ==> st.fault(i) == Nothing)
        && file'.version == k + (if file'.version == k + 1 then 1 else 0)
        && (file'.version == k + 1 ==> st.fault(k) == CommitFails(true))
        && (st.fault(k).Nothing? || st.fault(k).CrashEarly? || st.fault(k).CrashLate? ==>
              st.steps[k].up.None? || st.steps[k].up.value(file'.data).None?)
    ensures Migrated(file, st).1 == Crashed ==>
      exists i: nat :: file.version <= i < |st.steps| && (st.fault(i).CrashEarly? || st.fault(i).CrashLate?)
  {
    if !st.readFails && file.version <= |st.steps| {
      LoopEnds(file, file.version, st, k);
    }
  }

  lemma {:induction false} LoopEnds<D>(file: File<D>, i: nat, st: Start<D>, k: nat)
    requires file.version == i <= |st.steps|
    ensures var (file', r) := Loop(file, i, st);
      r == Failed(k) ==>
        && i <= k < |st.steps|
        && (forall j :: i <= j < k ==> st.fault(j) == Nothing)
        && file'.version == k + (if file'.version == k + 1 then 1 else 0)
        && (file'.version == k + 1 ==> st.fault(k) == CommitFails(true))
        && (st.fault(k).Nothing? || st.fault(k).CrashEarly? || st.fault(k).CrashLate? ==>
              st.steps[k].up.None? || st.steps[k].up.value(file'.data).None?)
    ensures Loop(file, i, st).1 == Crashed ==>
      exists j: nat :: i <= j < |st.steps| && (st.fault(j).CrashEarly? || st.fault(j).CrashLate?)
    decreases |st.steps| - i
  {
    if i < |st.steps| {
      var next := AfterStep(file, i, st.steps[i], st.fault(i));
      if StepEnds(st.steps[i], st.fault(i), file.data).Committed? {
        LoopEnds(next, i + 1, st, k);
      }
    }
  }

  /** The file after a sequence of starts. */
  function History<D>(file: File<D>, runs: seq<Start<D>>): File<D> {
    if runs == [] then file else Migrated(History(file, runs[..|runs| - 1]), runs[|runs| - 1]).0
  }

  /** Every build's list is the master list cut short: steps are only ever appended. */
  ghost predicate AppendOnly<D>(runs: seq<Start<D>>, master: seq<Migration<D>>) {
    forall k {:trigger runs[k]} :: 0 <= k < |runs| ==> runs[k].steps <= master
  }

  /** Over any sequence of starts of older and newer builds, each failing or crashing anywhere,
      the file holds exactly the in-order effect of the first user_version steps, and each of
      those was committed exactly once. */
  lemma {:induction false} FileIsAlwaysAPrefix<D>(start: D, master: seq<Migration<D>>, runs: seq<Start<D>>)
    requires AppendOnly(runs, master)
    ensures IsPrefix(start, master, History(File(start, 0, []), runs))
  {
    if runs == [] {
      assert Built(start, master, 0) == Some(start);
    } else {
      var before := runs[..|runs| - 1];
      FileIsAlwaysAPrefix(start, master, before);
      assert runs[|runs| - 1].steps <= master;
      RunKeepsPrefix(start, master, History(File(start, 0, []), before), runs[|runs| - 1]);
    }
  }

  /** The crashes along the way leave no trace: two databases with any two histories, once a
      run of the same build has returned nil on both, are the same database. */
  lemma HistoriesConverge<D>(start: D, master: seq<Migration<D>>, a: seq<Start<D>>, b: seq<Start<D>>, x: Start<D>, y: Start<D>)
    requires AppendOnly(a, master) && AppendOnly(b, master)
    requires x.steps <= master && x.steps == y.steps
    requires Migrated(History(File(start, 0, []), a), x).1 == Done
    requires Migrated(History(File(start, 0, []), b), y).1 == Done
    ensures Migrated(History(File(start, 0, []), a), x).0 == Migrated(History(File(start, 0, []), b), y).0
    ensures Built(start, x.steps, |x.steps|) == Some(Migrated(History(File(start, 0, []), a), x).0.data)
  {
    FileIsAlwaysAPrefix(start, master, a);
    FileIsAlwaysAPrefix(start, master, b);
    RunKeepsPrefix(start, master, History(File(start, 0, []), a), x);
    RunKeepsPrefix(start, master, History(File(start, 0, []), b), y);
    BuiltOfPrefix(start, x.steps, master, |x.steps|);
  }

  /** A run returns nil exactly when the version can be read, is not ahead of the list, and
      every remaining step can be applied in order with nothing going wrong. */
  lemma NilExactlyWhen<D>(start: D, master: seq<Migration<D>>, file: File<D>, st: Start<D>)
    requires IsPrefix(start, master, file) && st.steps <= master
    ensures Migrated(file, st).1 == Done <==>
      && !st.readFails && file.version <= |st.steps|
      && (forall k {:trigger st.fault(k)} :: file.version <= k < |st.steps| ==> st.fault(k) == Nothing)
      && Built(start, st.steps, |st.steps|).Some?
  {
    if !st.readFails && file.version <= |st.steps| {
      BuiltOfPrefix(start, st.steps, master, file.version);
      NilExactly(start, file, file.version, st);
    }
  }

  lemma {:induction false} NilExactly<D>(start: D, file: File<D>, i: nat, st: Start<D>)
    requires i <= |st.steps| && Built(start, st.steps, i) == Some(file.data)
    ensures Loop(file, i, st).1 == Done <==>
      && (forall k {:trigger st.fault(k)} :: i <= k < |st.steps| ==> st.fault(k) == Nothing)
      && Built(start, st.steps, |st.steps|).Some?
    decreases |st.steps| - i
  {
    if i < |st.steps| {
      var next := AfterStep(file, i, st.steps[i], st.fault(i));
      if StepEnds(st.steps[i], st.fault(i), file.data).Committed? {
        NilExactly(start, next, i + 1, st);
      } else if st.fault(i) == Nothing {
        BuiltStops(start, st.steps, i + 1, |st.steps|);
      }
    }
  }

  lemma {:induction false} BuiltStops<D>(start: D, steps: seq<Migration<D>>, i: nat, n: nat)
    requires i <= n <= |steps| && Built(start, steps, i).None?
    ensures Built(start, steps, n).None?
  {
    if i < n {
      BuiltStops(start, steps, i, n - 1);
    }
  }
}
