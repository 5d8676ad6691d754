/** The supervised group: an atomic counter that no lock guards, and a channel that Wait
    arms and the last goroutine to leave closes.

    One event is one atomic access, so a Go can land between any two of them: between a
    leaver's decrement and its lock, between its re-check of the count and the close, and
    between Wait's read of the count and its arming of the channel. */
module Group {
  import opened Prelude

  type Id = nat
  type Chan = nat

  datatype GPc =
    | Running
    | BackingOff
    | Leaving
    | MustWake      // took the count to zero, has not locked yet
    | Waking        // holds the lock, has not re-read the count
    | SawZero       // holds the lock, re-read a zero, has not closed yet
    | Gone

  /** A supervised goroutine; `entered` and `left` date its increment and its decrement. */
  datatype Goroutine = Goroutine(entered: nat, left: Option<nat>, ctxDone: bool, pc: GPc)

  datatype WPc =
    | Called
    | Locked
    | Arming         // holds the lock, has read a count above zero
    | Selecting(c: Chan)
    | Returned(ok: bool, at: nat)

  /** A call of Wait, and the date it began. */
  datatype Waiter = Waiter(began: nat, pc: WPc)

  datatype Owner = Goer(g: Id) | Joiner(w: Id)

  /** `broken` is the panic of closing a closed channel. `zeros` dates, for every closed
      channel and for the closer at work, when the zero count was read (history). */
  datatype State = State(
    t: nat,
    n: int,
    mu: Option<Owner>,
    idle: Option<Chan>,
    made: nat,
    closed: set<Chan>,
    broken: bool,
    gs: map<Id, Goroutine>,
    ws: map<Id, Waiter>,
    zeros: map<Chan, nat>)

  datatype Event =
    | Enter(g: Id)
    | Cancel(g: Id)
    | FnReturns(g: Id)
    | FnPanics(g: Id)
    | Respawn(g: Id)
    | StopBackoff(g: Id)
    | Leave(g: Id)
    | WakeLock(g: Id)
    | WakeRead(g: Id)
    | WakeClose(g: Id)
    | WaitCall(w: Id)
    | WaitLock(w: Id)
    | WaitRead(w: Id)
    | WaitArm(w: Id)
    | WaitWoken(w: Id)
    | WaitGiveUp(w: Id)
    | Other  // anything outside the group

  const INIT := State(0, 0, None, None, 0, {}, false, map[], map[], map[])

  predicate GAt(s: State, g: Id, pc: GPc) {
    g in s.gs && s.gs[g].pc == pc
  }

  predicate WAt(s: State, w: Id, pc: WPc) {
    w in s.ws && s.ws[w].pc == pc
  }

  predicate Enabled(s: State, ev: Event) {
    match ev
    case Enter(g) => g !in s.gs
    case Cancel(g) => g in s.gs
    case FnReturns(g) => GAt(s, g, Running)
    case FnPanics(g) => GAt(s, g, Running)
    case Respawn(g) => GAt(s, g, BackingOff)
    case StopBackoff(g) => GAt(s, g, BackingOff) && s.gs[g].ctxDone
    case Leave(g) => GAt(s, g, Leaving)
    case WakeLock(g) => GAt(s, g, MustWake) && s.mu.None?
    case WakeRead(g) => GAt(s, g, Waking)
    case WakeClose(g) => GAt(s, g, SawZero) && s.idle.Some?
    case WaitCall(w) => w !in s.ws
    case WaitLock(w) => WAt(s, w, Called) && s.mu.None?
    case WaitRead(w) => WAt(s, w, Locked)
    case WaitArm(w) => WAt(s, w, Arming)
    case WaitWoken(w) => w in s.ws && s.ws[w].pc.Selecting? && s.ws[w].pc.c in s.closed
    case WaitGiveUp(w) => w in s.ws && s.ws[w].pc.Selecting?
    case Other => true
  }

  function SetG(s: State, g: Id, pc: GPc): map<Id, Goroutine>
    requires g in s.gs
  {
    s.gs[g := s.gs[g].(pc := pc)]
  }

  function SetW(s: State, w: Id, pc: WPc): map<Id, Waiter>
    requires w in s.ws
  {
    s.ws[w := s.ws[w].(pc := pc)]
  }

  function Next(s: State, ev: Event): State
    requires Enabled(s, ev)
  {
    var t := s.t + 1;
    match ev
    case Enter(g) => s.(t := t, n := s.n + 1, gs := s.gs[g := Goroutine(s.t, None, false, Running)])
    case Cancel(g) => s.(t := t, gs := s.gs[g := s.gs[g].(ctxDone := true)])
    case FnReturns(g) => s.(t := t, gs := SetG(s, g, Leaving))
    case FnPanics(g) => s.(t := t, gs := SetG(s, g, if s.gs[g].ctxDone then Leaving else BackingOff))
    case Respawn(g) => s.(t := t, gs := SetG(s, g, Running))
    case StopBackoff(g) => s.(t := t, gs := SetG(s, g, Leaving))
    case Leave(g) =>
      s.(t := t, n := s.n - 1,
         gs := s.gs[g := s.gs[g].(left := Some(s.t), pc := if s.n - 1 != 0 then Gone else MustWake)])
    case WakeLock(g) => s.(t := t, mu := Some(Goer(g)), gs := SetG(s, g, Waking))
    case WakeRead(g) =>
      if s.idle.Some? && s.n == 0
      then s.(t := t, gs := SetG(s, g, SawZero), zeros := s.zeros[s.idle.value := s.t])
      else s.(t := t, mu := None, gs := SetG(s, g, Gone))
    case WakeClose(g) =>
      s.(t := t, mu := None, idle := None, closed := s.closed + {s.idle.value},
         broken := s.broken || s.idle.value in s.closed, gs := SetG(s, g, Gone))
    case WaitCall(w) => s.(t := t, ws := s.ws[w := Waiter(s.t, Called)])
    case WaitLock(w) => s.(t := t, mu := Some(Joiner(w)), ws := SetW(s, w, Locked))
    case WaitRead(w) =>
      if s.n == 0 then s.(t := t, mu := None, ws := SetW(s, w, Returned(true, s.t)))
      else s.(t := t, ws := SetW(s, w, Arming))
    case WaitArm(w) =>
      var c := if s.idle.None? then s.made else s.idle.value;
      s.(t := t, mu := None, idle := Some(c), made := if s.idle.None? then s.made + 1 else s.made,
         ws := SetW(s, w, Selecting(c)))
    case WaitWoken(w) => s.(t := t, ws := SetW(s, w, Returned(true, s.t)))
    case WaitGiveUp(w) => s.(t := t, ws := SetW(s, w, Returned(false, s.t)))
    case Other => s.(t := t)
  }

  predicate Possible(evs: seq<Event>)
    decreases |evs|, 0
  {
    evs != [] ==> Possible(Front(evs)) && Enabled(Run(Front(evs)), evs[|evs| - 1])
  }

  function Run(evs: seq<Event>): State
    requires Possible(evs)
    decreases |evs|, 1
  {
    if evs == [] then INIT else Next(Run(Front(evs)), evs[|evs| - 1])
  }

  // ----- What every step keeps -----

  /** The goroutines the counter counts: entered, and not yet past their decrement. */
  function Counted(s: State): set<Id> {
    set g | g in s.gs && s.gs[g].left.None?
  }

  /** A leaver that will still take the lock and look. */
  predicate Due(s: State, g: Id) {
    g in s.gs && (s.gs[g].pc.MustWake? || s.gs[g].pc.Waking? || s.gs[g].pc.SawZero?)
  }

  /** Everyone who entered before `z` had left before `z`. */
  ghost predicate EmptyAt(s: State, z: nat) {
    forall g :: g in s.gs && s.gs[g].entered < z ==> s.gs[g].left.Some? && s.gs[g].left.value < z
  }

  ghost predicate GoroutineOk(s: State, g: Id)
    requires g in s.gs
  {
    var x := s.gs[g];
    && x.entered < s.t
    && (x.left.None? <==> x.pc.Running? || x.pc.BackingOff? || x.pc.Leaving?)
    && (x.left.Some? ==> x.entered < x.left.value < s.t)
    && (x.pc.Waking? || x.pc.SawZero? ==> s.mu == Some(Goer(g)))
    && (x.pc.SawZero? ==> s.idle.Some? && s.idle.value in s.zeros)
  }

  ghost predicate WaiterOk(s: State, w: Id)
    requires w in s.ws
  {
    var x := s.ws[w];
    && x.began < s.t
    && (x.pc.Locked? || x.pc.Arming? ==> s.mu == Some(Joiner(w)))
    && (x.pc.Selecting? ==>
          && (x.pc.c in s.closed || s.idle == Some(x.pc.c))
          && (x.pc.c in s.zeros ==> x.began < s.zeros[x.pc.c]))
    && (x.pc.Returned? && x.pc.ok ==> exists z :: x.began <= z <= x.pc.at && EmptyAt(s, z))
    && (x.pc.Returned? ==> x.pc.at < s.t)
  }

  /** The armed channel is open, and a zero is on record for it only while its closer holds
      the lock. */
  predicate IdleOk(s: State) {
    s.idle.Some? ==>
      && s.idle.value < s.made && s.idle.value !in s.closed
      && (s.idle.value in s.zeros ==> s.mu.Some? && s.mu.value.Goer? && GAt(s, s.mu.value.g, SawZero))
  }

  ghost predicate ChansOk(s: State) {
    && IdleOk(s)
    && (forall c :: c in s.closed ==> c < s.made && c in s.zeros)
    && (forall c :: c in s.zeros ==> c < s.made && s.zeros[c] < s.t && EmptyAt(s, s.zeros[c]))
  }

  /** An armed channel, or a Wait about to arm one, over a zero count has a leaver on its way. */
  ghost predicate WakePending(s: State) {
    s.n == 0 && (s.idle.Some? || exists w :: WAt(s, w, Arming)) ==> exists g :: Due(s, g)
  }

  /** A held lock belongs to somebody who is about to release it. */
  predicate OwnerOk(s: State) {
    match s.mu
    case None => true
    case Some(Goer(g)) => g in s.gs && (s.gs[g].pc.Waking? || (s.gs[g].pc.SawZero? && s.idle.Some?))
    case Some(Joiner(w)) => w in s.ws && (s.ws[w].pc.Locked? || s.ws[w].pc.Arming?)
  }

  ghost predicate Inv(s: State) {
    && OwnerOk(s)
    && s.n == |Counted(s)|
    && (forall g {:trigger GoroutineOk(s, g)} :: g in s.gs ==> GoroutineOk(s, g))
    && (forall w {:trigger WaiterOk(s, w)} :: w in s.ws ==> WaiterOk(s, w))
    && ChansOk(s)
    && WakePending(s)
    && !s.broken
  }

  lemma SameCounted(s: State, ev: Event)
    requires Enabled(s, ev) && !ev.Enter? && !ev.Leave?
    ensures Counted(Next(s, ev)) == Counted(s) && Next(s, ev).n == s.n
  {
  }

  lemma StepCount(s: State, ev: Event)
    requires Enabled(s, ev) && s.n == |Counted(s)|
    requires ev.Leave? ==> GoroutineOk(s, ev.g)
    ensures Next(s, ev).n == |Counted(Next(s, ev))|
  {
    if ev.Enter? {
      assert Counted(Next(s, ev)) == Counted(s) + {ev.g};
    } else if ev.Leave? {
      assert Counted(Next(s, ev)) == Counted(s) - {ev.g};
    } else {
      SameCounted(s, ev);
    }
  }

  /** With a zero count, everyone who ever entered has left. */
  lemma ZeroIsEmpty(s: State)
    requires Inv(s) && s.n == 0
    ensures EmptyAt(s, s.t)
  {
    assert Counted(s) == {};
    forall g | g in s.gs
      ensures s.gs[g].left.Some? && s.gs[g].left.value < s.t
    {
      assert GoroutineOk(s, g);
      assert g !in Counted(s);
    }
  }

  /** An instant at which everyone had left stays one: entering and leaving only add dates. */
  lemma EmptyStays(s: State, ev: Event, z: nat)
    requires Inv(s) && Enabled(s, ev) && z <= s.t && EmptyAt(s, z)
    ensures EmptyAt(Next(s, ev), z)
  {
    forall g | g in Next(s, ev).gs && Next(s, ev).gs[g].entered < z
      ensures Next(s, ev).gs[g].left.Some? && Next(s, ev).gs[g].left.value < z
    {
      assert g in s.gs ==> GoroutineOk(s, g);
    }
  }

  lemma OwnGoroutine(s: State, ev: Event, g: Id)
    requires Inv(s) && Enabled(s, ev) && g in Next(s, ev).gs && !(g in s.gs && Next(s, ev).gs[g] == s.gs[g])
    ensures GoroutineOk(Next(s, ev), g)
  {
    assert g in s.gs ==> GoroutineOk(s, g);
  }

  lemma OtherGoroutine(s: State, ev: Event, g: Id)
    requires Inv(s) && Enabled(s, ev) && g in s.gs && g in Next(s, ev).gs && Next(s, ev).gs[g] == s.gs[g]
    ensures GoroutineOk(Next(s, ev), g)
  {
    assert GoroutineOk(s, g);
    match ev
    case WakeRead(h) => assert GoroutineOk(s, h);
    case WakeClose(h) => assert GoroutineOk(s, h);
    case WaitRead(w) => assert WaiterOk(s, w);
    case WaitArm(w) => assert WaiterOk(s, w);
    case _ =>
  }

  lemma StepGoroutine(s: State, ev: Event, g: Id)
    requires Inv(s) && Enabled(s, ev) && g in Next(s, ev).gs
    ensures GoroutineOk(Next(s, ev), g)
  {
    if g in s.gs && Next(s, ev).gs[g] == s.gs[g] {
      OtherGoroutine(s, ev, g);
    } else {
      OwnGoroutine(s, ev, g);
    }
  }

  /** What a waiter needs from the rest of the state. */
  lemma IdleWaiter(s: State, ev: Event, w: Id)
    requires Inv(s) && Enabled(s, ev) && w in s.ws && w in Next(s, ev).ws && Next(s, ev).ws[w] == s.ws[w]
    ensures WaiterOk(Next(s, ev), w)
  {
    assert WaiterOk(s, w);
    if s.ws[w].pc.Returned? && s.ws[w].pc.ok {
      var z :| s.ws[w].began <= z <= s.ws[w].pc.at && EmptyAt(s, z);
      EmptyStays(s, ev, z);
    }
    match ev
    case WakeRead(h) => assert GoroutineOk(s, h);
    case WakeClose(h) => assert GoroutineOk(s, h);
    case WaitRead(v) => assert WaiterOk(s, v);
    case WaitArm(v) => assert WaiterOk(s, v);
    case _ =>
  }

  lemma ActiveWaiter(s: State, ev: Event, w: Id)
    requires Inv(s) && Enabled(s, ev) && w in Next(s, ev).ws && !(w in s.ws && Next(s, ev).ws[w] == s.ws[w])
    ensures WaiterOk(Next(s, ev), w)
  {
    assert w in s.ws ==> WaiterOk(s, w);
    if ev.WaitRead? && s.n == 0 {
      ZeroIsEmpty(s);
      EmptyStays(s, ev, s.t);
    } else if ev.WaitWoken? {
      EmptyStays(s, ev, s.zeros[s.ws[w].pc.c]);
    }
  }

  lemma StepZeros(s: State, ev: Event)
    requires Inv(s) && Enabled(s, ev)
    ensures forall c :: c in Next(s, ev).zeros ==>
      c < Next(s, ev).made && Next(s, ev).zeros[c] < Next(s, ev).t && EmptyAt(Next(s, ev), Next(s, ev).zeros[c])
  {
    forall c | c in Next(s, ev).zeros
      ensures c < Next(s, ev).made && Next(s, ev).zeros[c] < Next(s, ev).t && EmptyAt(Next(s, ev), Next(s, ev).zeros[c])
    {
      if ev.WakeRead? && s.n == 0 && s.idle == Some(c) {
        ZeroIsEmpty(s);
        EmptyStays(s, ev, s.t);
      } else {
        EmptyStays(s, ev, s.zeros[c]);
      }
    }
  }

  lemma StepClosed(s: State, ev: Event)
    requires Inv(s) && Enabled(s, ev)
    ensures forall c :: c in Next(s, ev).closed ==> c < Next(s, ev).made && c in Next(s, ev).zeros
    ensures !Next(s, ev).broken
  {
    if ev.WakeClose? {
      assert GoroutineOk(s, ev.g);
    }
  }

  lemma StepIdle(s: State, ev: Event)
    requires Inv(s) && Enabled(s, ev)
    ensures IdleOk(Next(s, ev))
  {
    match ev
    case WakeRead(h) => assert GoroutineOk(s, h);
    case WakeClose(h) => assert GoroutineOk(s, h);
    case WaitRead(w) => assert WaiterOk(s, w);
    case WaitArm(w) => assert WaiterOk(s, w);
    case _ =>
  }

  lemma StepChans(s: State, ev: Event)
    requires Inv(s) && Enabled(s, ev)
    ensures ChansOk(Next(s, ev)) && !Next(s, ev).broken
  {
    StepZeros(s, ev);
    StepClosed(s, ev);
    StepIdle(s, ev);
  }

  /** A leaver on its way stays on its way until it has read the count under the lock. */
  lemma DueStays(s: State, ev: Event, g: Id)
    requires Enabled(s, ev) && Due(s, g) && ev != WakeRead(g) && ev != WakeClose(g)
    ensures Due(Next(s, ev), g)
  {
  }

  lemma StepWake(s: State, ev: Event)
    requires Inv(s) && Enabled(s, ev)
    ensures WakePending(Next(s, ev))
  {
    var s' := Next(s, ev);
    if ev.Leave? {
      assert s'.n == 0 ==> Due(s', ev.g);
    } else if ev.WakeRead? || ev.WakeClose? {
      // the lock is held, so no Wait is arming; a zero read under an armed channel stays due
      assert GoroutineOk(s, ev.g);
      forall w
        ensures !WAt(s', w, Arming)
      {
        assert w in s.ws ==> WaiterOk(s, w);
      }
      assert s'.idle.Some? && s'.n == 0 ==> Due(s', ev.g);
    } else if s'.n == 0 && (s'.idle.Some? || exists w :: WAt(s', w, Arming)) {
      assert s.n == 0 by {
        StepCount(s, ev);
      }
      if !s.idle.Some? {
        if ev.WaitArm? {
          assert WAt(s, ev.w, Arming);
        } else {
          var w :| WAt(s', w, Arming);
          assert WAt(s, w, Arming);
        }
      }
      var g :| Due(s, g);
      DueStays(s, ev, g);
    }
  }

  lemma StepOwner(s: State, ev: Event)
    requires Inv(s) && Enabled(s, ev)
    ensures OwnerOk(Next(s, ev))
  {
    if ev.WakeRead? || ev.WakeClose? {
      assert GoroutineOk(s, ev.g);
    } else if ev.WaitRead? || ev.WaitArm? {
      assert WaiterOk(s, ev.w);
    }
  }

  lemma StepInv(s: State, ev: Event)
    requires Inv(s) && Enabled(s, ev)
    ensures Inv(Next(s, ev))
  {
    assert ev.Leave? ==> GoroutineOk(s, ev.g);
    StepCount(s, ev);
    StepOwner(s, ev);
    StepChans(s, ev);
    StepWake(s, ev);
    forall g | g in Next(s, ev).gs
      ensures GoroutineOk(Next(s, ev), g)
    {
      StepGoroutine(s, ev, g);
    }
    forall w | w in Next(s, ev).ws
      ensures WaiterOk(Next(s, ev), w)
    {
      if w in s.ws && Next(s, ev).ws[w] == s.ws[w] {
        IdleWaiter(s, ev, w);
      } else {
        ActiveWaiter(s, ev, w);
      }
    }
  }

  lemma {:induction false} RunInv(evs: seq<Event>)
    requires Possible(evs)
    ensures Inv(Run(evs)) && Run(evs).t == |evs|
    decreases |evs|
  {
    if evs == [] {
      assert Counted(INIT) == {};
    } else {
      RunInv(Front(evs));
      StepInv(Run(Front(evs)), evs[|evs| - 1]);
    }
  }

  // ----- Dates in a state are positions in the run -----

  ghost predicate GDated(evs: seq<Event>, s: State, g: Id)
    requires g in s.gs
  {
    && s.gs[g].entered < |evs| && evs[s.gs[g].entered] == Enter(g)
    && (s.gs[g].left.Some? ==> s.gs[g].left.value < |evs| && evs[s.gs[g].left.value] == Leave(g))
  }

  ghost predicate WDated(evs: seq<Event>, s: State, w: Id)
    requires w in s.ws
  {
    && s.ws[w].began < |evs| && evs[s.ws[w].began] == WaitCall(w)
    && (s.ws[w].pc.Returned? ==>
          && s.ws[w].pc.at < |evs| && evs[s.ws[w].pc.at] in {WaitRead(w), WaitWoken(w), WaitGiveUp(w)}
          && (s.ws[w].pc.ok <==> evs[s.ws[w].pc.at] != WaitGiveUp(w)))
  }

  ghost predicate Recorded(evs: seq<Event>, s: State, i: nat)
    requires i < |evs|
  {
    evs[i].Enter? ==> evs[i].g in s.gs && s.gs[evs[i].g].entered == i
  }

  ghost predicate Dated(evs: seq<Event>, s: State) {
    && s.t == |evs|
    && (forall g {:trigger GDated(evs, s, g)} :: g in s.gs ==> GDated(evs, s, g))
    && (forall w {:trigger WDated(evs, s, w)} :: w in s.ws ==> WDated(evs, s, w))
    && (forall i: nat {:trigger Recorded(evs, s, i)} :: i < |evs| ==> Recorded(evs, s, i))
  }

  lemma StepGDated(evs: seq<Event>, s: State, ev: Event, g: Id)
    requires Dated(evs, s) && Enabled(s, ev) && g in Next(s, ev).gs
    ensures GDated(evs + [ev], Next(s, ev), g)
  {
    assert g in s.gs ==> GDated(evs, s, g);
  }

  lemma StepWDated(evs: seq<Event>, s: State, ev: Event, w: Id)
    requires Dated(evs, s) && Enabled(s, ev) && w in Next(s, ev).ws
    ensures WDated(evs + [ev], Next(s, ev), w)
  {
    assert w in s.ws ==> WDated(evs, s, w);
  }

  lemma StepRecorded(evs: seq<Event>, s: State, ev: Event, i: nat)
    requires Dated(evs, s) && Enabled(s, ev) && i <= |evs|
    ensures Recorded(evs + [ev], Next(s, ev), i)
  {
    assert i < |evs| ==> Recorded(evs, s, i);
  }

  lemma StepDated(evs: seq<Event>, s: State, ev: Event)
    requires Dated(evs, s) && Enabled(s, ev)
    ensures Dated(evs + [ev], Next(s, ev))
  {
    forall g | g in Next(s, ev).gs
      ensures GDated(evs + [ev], Next(s, ev), g)
    {
      StepGDated(evs, s, ev, g);
    }
    forall w | w in Next(s, ev).ws
      ensures WDated(evs + [ev], Next(s, ev), w)
    {
      StepWDated(evs, s, ev, w);
    }
    forall i: nat | i < |evs + [ev]|
      ensures Recorded(evs + [ev], Next(s, ev), i)
    {
      StepRecorded(evs, s, ev, i);
    }
  }

  lemma {:induction false} RunDated(evs: seq<Event>)
    requires Possible(evs)
    ensures Dated(evs, Run(evs))
    decreases |evs|
  {
    if evs != [] {
      RunDated(Front(evs));
      StepDated(Front(evs), Run(Front(evs)), evs[|evs| - 1]);
      assert evs == Front(evs) + [evs[|evs| - 1]];
    }
  }

  lemma LeftMoves(s: State, ev: Event, g: Id)
    requires Enabled(s, ev) && g in s.gs
    ensures g in Next(s, ev).gs && Next(s, ev).gs[g].entered == s.gs[g].entered
    ensures Next(s, ev).gs[g].left == s.gs[g].left || Next(s, ev).gs[g].left == Some(s.t)
  {
  }

  /** Whoever was counted after the first `i` events either still is, or left later. */
  lemma {:induction false} CountedSince(evs: seq<Event>, i: nat)
    requires Possible(evs) && i <= |evs|
    ensures Possible(evs[..i])
    ensures forall g :: g in Counted(Run(evs[..i])) ==>
      g in Run(evs).gs && Run(evs).gs[g].entered < i && (Run(evs).gs[g].left.None? || i <= Run(evs).gs[g].left.value)
    decreases |evs|
  {
    RunInv(evs);
    if i == |evs| {
      assert evs[..i] == evs;
      forall g | g in Counted(Run(evs))
        ensures Run(evs).gs[g].entered < i
      {
        assert GoroutineOk(Run(evs), g);
      }
    } else {
      var front := Front(evs);
      CountedSince(front, i);
      RunInv(front);
      assert front[..i] == evs[..i];
      forall g | g in Counted(Run(evs[..i]))
        ensures g in Run(evs).gs && Run(evs).gs[g].entered < i
        ensures Run(evs).gs[g].left.None? || i <= Run(evs).gs[g].left.value
      {
        LeftMoves(Run(front), evs[|evs| - 1], g);
      }
    }
  }

  // ----- What Wait and the wake-up promise -----

  /** A Wait that returns nil is right: at some instant between its call and its return the
      count was zero. */
  lemma WaitSawZero(evs: seq<Event>, w: Id)
    requires Possible(evs) && w in Run(evs).ws
    requires Run(evs).ws[w].pc.Returned? && Run(evs).ws[w].pc.ok
    ensures var x := Run(evs).ws[w];
      exists z :: x.began <= z <= x.pc.at && z <= |evs| && Possible(evs[..z]) && Run(evs[..z]).n == 0
  {
    var s := Run(evs);
    RunInv(evs);
    assert WaiterOk(s, w);
    var z :| s.ws[w].began <= z <= s.ws[w].pc.at && EmptyAt(s, z);
    CountedSince(evs, z);
    RunInv(evs[..z]);
    assert Counted(Run(evs[..z])) == {};
  }

  /** So every goroutine supervised before the call has left before the return. */
  lemma WaitJoinsAll(evs: seq<Event>, w: Id, i: nat, g: Id)
    requires Possible(evs) && w in Run(evs).ws
    requires Run(evs).ws[w].pc.Returned? && Run(evs).ws[w].pc.ok
    requires i < Run(evs).ws[w].began && i < |evs| && evs[i] == Enter(g)
    ensures var x := Run(evs).ws[w];
      && x.began < |evs| && evs[x.began] == WaitCall(w)
      && exists l :: i < l < x.pc.at && l < |evs| && evs[l] == Leave(g)
  {
    var s := Run(evs);
    RunInv(evs);
    RunDated(evs);
    assert WaiterOk(s, w) && WDated(evs, s, w);
    assert Recorded(evs, s, i) && GDated(evs, s, g) && GoroutineOk(s, g);
    assert evs[s.gs[g].left.value] == Leave(g);
  }

  /** And a Wait fails only by giving up: it returns at once over a zero count, and nil whenever
      it is woken. */
  lemma WaitFailsOnlyByGivingUp(evs: seq<Event>, w: Id)
    requires Possible(evs) && w in Run(evs).ws
    ensures var x := Run(evs).ws[w];
      && (x.pc.Returned? ==> x.pc.at < |evs| && (x.pc.ok <==> evs[x.pc.at] != WaitGiveUp(w)))
      && (x.pc.Locked? && Run(evs).n == 0 ==>
            Enabled(Run(evs), WaitRead(w)) && WAt(Next(Run(evs), WaitRead(w)), w, Returned(true, |evs|)))
  {
    RunDated(evs);
    assert WDated(evs, Run(evs), w);
  }

  // ----- How a goroutine ends -----

  /** What the events say of a goroutine. */
  ghost predicate Told(evs: seq<Event>, s: State, g: Id) {
    && (g in s.gs <==> Enter(g) in evs)
    && (Cancel(g) in evs <==> g in s.gs && s.gs[g].ctxDone)
    && (FnReturns(g) in evs ==> g in s.gs && !s.gs[g].pc.Running? && !s.gs[g].pc.BackingOff?)
    && (g in s.gs && !s.gs[g].pc.Running? && !s.gs[g].pc.BackingOff? ==>
          FnReturns(g) in evs || (FnPanics(g) in evs && Cancel(g) in evs))
    && (g in s.gs && s.gs[g].pc.BackingOff? ==> FnPanics(g) in evs)
  }

  lemma StepTold(evs: seq<Event>, s: State, ev: Event, g: Id)
    requires Told(evs, s, g) && Enabled(s, ev)
    ensures Told(evs + [ev], Next(s, ev), g)
  {
    assert forall x :: x in evs + [ev] <==> x in evs || x == ev;
  }

  lemma {:induction false} RunTold(evs: seq<Event>, g: Id)
    requires Possible(evs)
    ensures Told(evs, Run(evs), g)
    decreases |evs|
  {
    hide Next;
    hide Enabled;
    if evs != [] {
      RunTold(Front(evs), g);
      StepTold(Front(evs), Run(Front(evs)), evs[|evs| - 1], g);
      assert evs == Front(evs) + [evs[|evs| - 1]];
    }
  }

  /** A goroutine leaves only because its function returned, or because it panicked and its
      context has ended; a panic alone never ends it. */
  lemma {:induction false} LeavesForAReason(evs: seq<Event>, i: nat, g: Id)
    requires Possible(evs) && i < |evs| && evs[i] == Leave(g)
    ensures FnReturns(g) in evs[..i] || (FnPanics(g) in evs[..i] && Cancel(g) in evs[..i])
    decreases |evs|
  {
    if i == |evs| - 1 {
      RunTold(Front(evs), g);
      assert evs[..i] == Front(evs);
    } else {
      LeavesForAReason(Front(evs), i, g);
      assert evs[..i] == Front(evs)[..i];
    }
  }

  /** The respawn can happen, and puts the goroutine back to work. */
  predicate RunsAgain(s: State, g: Id) {
    Enabled(s, Respawn(g)) && GAt(Next(s, Respawn(g)), g, Running) && Next(s, Respawn(g)).n == s.n
  }

  /** After a panic the goroutine runs again, with no other way on, exactly if its context lives;
      otherwise it leaves. All along it stays counted. */
  predicate AfterPanic(s: State, g: Id, live: bool) {
    if live then RunsAgain(s, g) && !Enabled(s, Leave(g)) && !Enabled(s, StopBackoff(g))
    else Enabled(s, Leave(g)) && !Enabled(s, Respawn(g))
  }

  lemma PanicMoves(s: State, g: Id)
    requires Enabled(s, FnPanics(g))
    ensures Next(s, FnPanics(g)).n == s.n && AfterPanic(Next(s, FnPanics(g)), g, !s.gs[g].ctxDone)
  {
  }

  lemma PanicIsRespawned(evs: seq<Event>, g: Id)
    requires Possible(evs) && Enabled(Run(evs), FnPanics(g))
    ensures Next(Run(evs), FnPanics(g)).n == Run(evs).n
    ensures AfterPanic(Next(Run(evs), FnPanics(g)), g, Cancel(g) !in evs)
  {
    hide Next;
    hide AfterPanic;
    RunTold(evs, g);
    PanicMoves(Run(evs), g);
  }

  /** The end of the context cuts a backoff short, exactly then, and the goroutine leaves. */
  lemma BackoffStops(evs: seq<Event>, g: Id)
    requires Possible(evs) && GAt(Run(evs), g, BackingOff)
    ensures Enabled(Run(evs), StopBackoff(g)) <==> Cancel(g) in evs
    ensures Cancel(g) in evs ==> Enabled(Next(Run(evs), StopBackoff(g)), Leave(g))
  {
    RunTold(evs, g);
  }

  /** A function that has returned is never run again. */
  lemma ReturnIsFinal(evs: seq<Event>, g: Id)
    requires Possible(evs) && FnReturns(g) in evs
    ensures var s := Run(evs); !Enabled(s, FnReturns(g)) && !Enabled(s, FnPanics(g)) && !Enabled(s, Respawn(g))
  {
    RunTold(evs, g);
  }

  /** No wake-up is lost: over a zero count, an armed channel means a leaver that has yet to
      look; and no channel is ever closed twice. */
  lemma NoLostWakeUp(evs: seq<Event>)
    requires Possible(evs)
    ensures var s := Run(evs);
      !s.broken && (s.n == 0 && s.idle.Some? ==> exists g :: Due(s, g))
  {
    RunInv(evs);
  }

  lemma RunSnoc(evs: seq<Event>, ev: Event)
    requires Possible(evs) && Enabled(Run(evs), ev)
    ensures Possible(evs + [ev]) && Run(evs + [ev]) == Next(Run(evs), ev)
  {
    assert Front(evs + [ev]) == evs;
  }

  /** The channel `c` is armed over a zero count, and waiter `w` waits on it. */
  predicate Armed(s: State, w: Id, c: Chan) {
    s.n == 0 && s.idle == Some(c) && WAt(s, w, Selecting(c))
  }

  /** The steps that a leaver, or a Wait that holds the lock, takes on its way out. */
  predicate Helps(ev: Event) {
    ev.WakeLock? || ev.WakeRead? || ev.WakeClose? || ev.WaitRead? || ev.WaitArm?
  }

  /** After these steps, all of them on somebody's way out, waiter `w` can return. */
  ghost predicate Frees(evs: seq<Event>, more: seq<Event>, w: Id) {
    && (forall ev :: ev in more ==> Helps(ev))
    && Possible(evs + more) && Enabled(Run(evs + more), WaitWoken(w))
  }

  lemma FreesLater(evs: seq<Event>, ev: Event, more: seq<Event>, w: Id)
    requires Helps(ev) && Frees(evs + [ev], more, w)
    ensures Frees(evs, [ev] + more, w)
  {
    assert evs + ([ev] + more) == evs + [ev] + more;
  }

  lemma ReadSeesZero(s: State, w: Id, c: Chan, g: Id)
    requires Armed(s, w, c) && GAt(s, g, Waking)
    ensures Enabled(s, WakeRead(g))
    ensures Armed(Next(s, WakeRead(g)), w, c) && GAt(Next(s, WakeRead(g)), g, SawZero)
  {
  }

  lemma CloseWakes(s: State, w: Id, c: Chan, g: Id)
    requires Armed(s, w, c) && GAt(s, g, SawZero)
    ensures Enabled(s, WakeClose(g)) && Enabled(Next(s, WakeClose(g)), WaitWoken(w))
  {
  }

  lemma SeerCloses(evs: seq<Event>, w: Id, c: Chan, g: Id)
    requires Possible(evs) && Armed(Run(evs), w, c) && GAt(Run(evs), g, SawZero)
    ensures Frees(evs, [WakeClose(g)], w)
  {
    hide Next;
    CloseWakes(Run(evs), w, c, g);
    RunSnoc(evs, WakeClose(g));
  }

  /** A leaver that holds the lock closes the channel. */
  lemma HolderCloses(evs: seq<Event>, w: Id, c: Chan, g: Id) returns (more: seq<Event>)
    requires Possible(evs) && Armed(Run(evs), w, c)
    requires Run(evs).mu == Some(Goer(g)) && OwnerOk(Run(evs))
    ensures |more| <= 2 && Frees(evs, more, w)
  {
    hide Next;
    if GAt(Run(evs), g, Waking) {
      ReadSeesZero(Run(evs), w, c, g);
      RunSnoc(evs, WakeRead(g));
      SeerCloses(evs + [WakeRead(g)], w, c, g);
      FreesLater(evs, WakeRead(g), [WakeClose(g)], w);
      more := [WakeRead(g)] + [WakeClose(g)];
    } else {
      SeerCloses(evs, w, c, g);
      more := [WakeClose(g)];
    }
  }

  /** With the lock free, a leaver that is due takes it first. */
  lemma LeaverCloses(evs: seq<Event>, w: Id, c: Chan, g: Id) returns (more: seq<Event>)
    requires Possible(evs) && Armed(Run(evs), w, c)
    requires Run(evs).mu.None? && Due(Run(evs), g)
    ensures |more| <= 3 && Frees(evs, more, w)
  {
    RunInv(evs);
    assert GoroutineOk(Run(evs), g);
    RunSnoc(evs, WakeLock(g));
    more := HolderCloses(evs + [WakeLock(g)], w, c, g);
    FreesLater(evs, WakeLock(g), more, w);
    more := [WakeLock(g)] + more;
  }

  /** A Wait that holds the lock gives it back in one step, and leaves the channel and the
      leaver as they are. */
  lemma JoinerReleases(s: State, w: Id, c: Chan, g: Id, v: Id) returns (ev: Event)
    requires Inv(s) && Armed(s, w, c) && Due(s, g) && s.mu == Some(Joiner(v))
    ensures Helps(ev) && Enabled(s, ev)
    ensures Armed(Next(s, ev), w, c) && Due(Next(s, ev), g) && Next(s, ev).mu.None?
  {
    assert WaiterOk(s, v);
    ev := if WAt(s, v, Locked) then WaitRead(v) else WaitArm(v);
  }

  lemma JoinerThenLeaver(evs: seq<Event>, w: Id, c: Chan, g: Id, v: Id) returns (more: seq<Event>)
    requires Possible(evs) && Armed(Run(evs), w, c) && Due(Run(evs), g) && Run(evs).mu == Some(Joiner(v))
    ensures |more| <= 4 && Frees(evs, more, w)
  {
    RunInv(evs);
    var ev := JoinerReleases(Run(evs), w, c, g, v);
    RunSnoc(evs, ev);
    more := LeaverCloses(evs + [ev], w, c, g);
    FreesLater(evs, ev, more, w);
    more := [ev] + more;
  }

  lemma WaiterIsArmed(s: State, w: Id)
    requires Inv(s) && w in s.ws && s.ws[w].pc.Selecting? && s.n == 0 && s.ws[w].pc.c !in s.closed
    ensures Armed(s, w, s.ws[w].pc.c) && exists g :: Due(s, g)
  {
    assert WaiterOk(s, w);
  }

  /** A waiter over a zero count is never stranded: at most four steps of goroutines already on
      their way out, and no new one, let it return. */
  lemma NobodyIsStranded(evs: seq<Event>, w: Id) returns (more: seq<Event>)
    requires Possible(evs) && w in Run(evs).ws
    requires Run(evs).ws[w].pc.Selecting? && Run(evs).n == 0
    ensures |more| <= 4 && forall ev :: ev in more ==> Helps(ev)
    ensures Possible(evs + more) && Enabled(Run(evs + more), WaitWoken(w))
  {
    RunInv(evs);
    var c := Run(evs).ws[w].pc.c;
    if c in Run(evs).closed {
      more := [];
      assert evs + more == evs;
      return;
    }
    WaiterIsArmed(Run(evs), w);
    var g :| Due(Run(evs), g);
    match Run(evs).mu
    case Some(Goer(h)) => more := HolderCloses(evs, w, c, h);
    case None => more := LeaverCloses(evs, w, c, g);
    case Some(Joiner(v)) => more := JoinerThenLeaver(evs, w, c, g, v);
  }

  /** The count is exact: a goroutine is counted from its Go to the single decrement that its
      last return or its unrestarted panic leads to, through every panic and respawn. */
  lemma CountIsExact(evs: seq<Event>)
    requires Possible(evs)
    ensures var s := Run(evs);
      s.n == |set g | g in s.gs && (s.gs[g].pc.Running? || s.gs[g].pc.BackingOff? || s.gs[g].pc.Leaving?)|
  {
    var s := Run(evs);
    RunInv(evs);
    forall g | g in s.gs
      ensures s.gs[g].left.None? <==> s.gs[g].pc.Running? || s.gs[g].pc.BackingOff? || s.gs[g].pc.Leaving?
    {
      assert GoroutineOk(s, g);
    }
    assert Counted(s) == set g | g in s.gs && (s.gs[g].pc.Running? || s.gs[g].pc.BackingOff? || s.gs[g].pc.Leaving?);
  }

  // ----- The object -----

  /** A broadcast channel that is only ever closed. */
  class Signal {
    var closed: bool

    constructor ()
      ensures !closed
    {
      closed := false;
    }

    method Close()
      requires !closed
      modifies this
      ensures closed
    {
      closed := true;
    }
  }

  /** The group's own fields, updated in place by one caller at a time. */
  class Supervisor {
    var n: int
    var idle: Signal?

    constructor ()
      ensures Valid() && n == 0 && idle == null
    {
      n, idle := 0, null;
    }

    ghost predicate Valid()
      reads this, idle
    {
      idle != null ==> !idle.closed
    }

    method Enter()
      modifies this`n
      ensures n == old(n) + 1
    {
      n := n + 1;
    }

    /** The decrement, and the wake-up when it reached zero. */
    method Leave()
      requires Valid()
      modifies this, idle
      ensures Valid() && n == old(n) - 1
      ensures if n == 0 && old(idle) != null then idle == null && old(idle).closed
              else idle == old(idle)
    {
      n := n - 1;
      if n != 0 {
        return;
      }
      Wake();
    }

    /** Closes the armed channel, and only over a zero count. */
    method Wake()
      requires Valid()
      modifies this`idle, idle
      ensures Valid()
      ensures if old(idle) != null && n == 0 then idle == null && old(idle).closed
              else idle == old(idle) && (idle != null ==> !idle.closed)
    {
      if idle != null && n == 0 {
        idle.Close();
        idle := null;
      }
    }

    /** The critical section of Wait: null when nothing runs, else the channel to wait on,
        which concurrent Waits share. */
    method Join() returns (sig: Signal?)
      requires Valid()
      modifies this`idle
      ensures Valid()
      ensures if n == 0 then sig == null && idle == old(idle)
              else sig == idle && sig != null && !sig.closed && (if old(idle) == null then fresh(sig) else sig == old(idle))
    {
      if n == 0 {
        return null;
      }
      if idle == null {
        idle := new Signal();
      }
      sig := idle;
    }
  }
}
