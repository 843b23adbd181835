/** The gate in front of the SSH connection (share/tunnel/tunnel.go): BindSSH publishes a
    connection and opens the guarded wait group, callers of getSSH wait for it, and every
    cancelled bind context drains the group with DoneAll. Any number of binds, cancellations
    and waiters interleave; the calls on the wait group are the atomic steps of WaitGroups. */
module ConnectionGate {
  import opened Common
  import WG = WaitGroups

  /** A BindSSH call. Bind i uses connection i and goroutine i of the wait group. */
  datatype Binder =
    | NotBound
    | Entered      // its context watcher has been started
    | Releasing    // connection published, inside activatingConn.Done()
    | Up           // blocked in c.Wait()
    | Blocking     // connection lost, inside activatingConn.Add(1)
    | Returned
    | Panicked     // double bind

  /** The goroutine that waits for the context of bind i; goroutine binds + i of the group. */
  datatype Watcher = Unborn | Watching | Draining

  /** A getSSH call. `Passed` and `Answered` remember, for the statements only, how many
      connections had been cleared when the gate was passed and when activeConn was read. */
  datatype Waiter =
    | Asking
    | Waiting
    | Passed(gateAt: nat)
    | Answered(conn: Option<nat>, gate: Option<nat>, readAt: nat)

  datatype State = State(
    wg: WG.State,
    active: Option<nat>,
    binders: seq<Binder>,
    watchers: seq<Watcher>,
    waiters: seq<Waiter>,
    cleared: nat)

  datatype Action =
    | Bind(i: nat)        // BindSSH is called and starts its watcher
    | Publish(i: nat)     // under the lock: panic or set activeConn, then call Done
    | Released(i: nat)    // Done has returned
    | Lose(i: nat)        // c.Wait() returned: the first step of Add(1)
    | Clear(i: nat)       // under the lock: activeConn = nil, then return
    | Cancel(i: nat)      // the context of bind i is done: DoneAll is called
    | GroupStep(t: nat)   // goroutine t makes its next step inside the wait group
    | Ask(w: nat)         // getSSH reads activeConn
    | Pass(w: nat)        // the wait group of a waiter is empty
    | GiveUp(w: nat)      // context done or timeout
    | Read(w: nat)        // activeConn is read after the gate

  function Init(binds: nat, waits: nat): State {
    State(
      WG.State(1, 1, seq(2 * binds, _ => WG.Idle)), None,
      seq(binds, _ => NotBound), seq(binds, _ => Unborn), seq(waits, _ => Asking), 0)
  }

  function Step(s: State, a: Action): Option<State> {
    var n := |s.binders|;
    if |s.watchers| != n || |s.wg.pcs| != 2 * n then None
    else
      match a
      case Bind(i) =>
        if i < n && s.binders[i] == NotBound then
          Some(s.(binders := s.binders[i := Entered], watchers := s.watchers[i := Watching]))
        else None
      case Publish(i) =>
        if !(i < n && s.binders[i] == Entered) then None
        else if s.active != None then Some(s.(binders := s.binders[i := Panicked]))
        else Some(s.(active := Some(i), binders := s.binders[i := Releasing], wg := WG.Begin(s.wg, i, WG.CallDone)))
      case Released(i) =>
        if i < n && s.binders[i] == Releasing && s.wg.pcs[i] == WG.Idle then
          Some(s.(binders := s.binders[i := Up]))
        else None
      case Lose(i) =>
        if i < n && s.binders[i] == Up then
          Some(s.(binders := s.binders[i := Blocking], wg := WG.Begin(s.wg, i, WG.CallAdd(1))))
        else None
      case Clear(i) =>
        if i < n && s.binders[i] == Blocking && s.wg.pcs[i] == WG.Idle then
          Some(s.(active := None, binders := s.binders[i := Returned], cleared := s.cleared + 1))
        else None
      case Cancel(i) =>
        if i < n && s.watchers[i] == Watching then
          Some(s.(watchers := s.watchers[i := Draining], wg := WG.Begin(s.wg, n + i, WG.CallDoneAll)))
        else None
      case GroupStep(t) =>
        if t < 2 * n && s.wg.pcs[t] != WG.Idle then Some(s.(wg := WG.Advance(s.wg, t))) else None
      case Ask(w) =>
        if w < |s.waiters| && s.waiters[w] == Asking then
          Some(s.(waiters := s.waiters[w := if s.active.Some? then Answered(s.active, None, s.cleared) else Waiting]))
        else None
      case Pass(w) =>
        if w < |s.waiters| && s.waiters[w] == Waiting && s.wg.inner == 0 then
          Some(s.(waiters := s.waiters[w := Passed(s.cleared)]))
        else None
      case GiveUp(w) =>
        if w < |s.waiters| && (s.waiters[w] == Asking || s.waiters[w] == Waiting) then
          Some(s.(waiters := s.waiters[w := Answered(None, None, s.cleared)]))
        else None
      case Read(w) =>
        if w < |s.waiters| && s.waiters[w].Passed? then
          Some(s.(waiters := s.waiters[w := Answered(s.active, Some(s.waiters[w].gateAt), s.cleared)]))
        else None
  }

  // ---- what holds with or without cancellation ----

  predicate Owning(b: Binder) { b == Releasing || b == Up || b == Blocking }

  /** A bind stands in the wait group only inside its Done or its Add. */
  predicate BinderPc(b: Binder, pc: WG.Pc) {
    match b
    case Releasing => pc == WG.Idle || pc == WG.DoneEnter(false) || pc == WG.DoneSwapped(false) || (pc.DoneLoaded? && !pc.all)
    case Blocking => pc == WG.Idle || pc == WG.AddMid(1)
    case _ => pc == WG.Idle
  }

  predicate WatcherPc(w: Watcher, pc: WG.Pc) {
    if w == Draining then
      pc == WG.Idle || pc == WG.AllCheck || pc == WG.DoneEnter(true) || pc == WG.DoneSwapped(true) || (pc.DoneLoaded? && pc.all)
    else pc == WG.Idle
  }

  ghost predicate BindersFit(binders: seq<Binder>, pcs: seq<WG.Pc>) {
    |binders| <= |pcs| && forall i :: 0 <= i < |binders| ==> BinderPc(binders[i], pcs[i])
  }

  ghost predicate WatchersFit(watchers: seq<Watcher>, pcs: seq<WG.Pc>) {
    2 * |watchers| == |pcs| && forall t :: |watchers| <= t < |pcs| ==> WatcherPc(watchers[t - |watchers|], pcs[t])
  }

  /** The connection that is published belongs to the one bind that is past its publication. */
  ghost predicate Owned(binders: seq<Binder>, active: Option<nat>) {
    && (forall i :: 0 <= i < |binders| ==> (Owning(binders[i]) <==> active == Some(i)))
    && (active.Some? ==> active.value < |binders|)
  }

  ghost predicate Born(binders: seq<Binder>, watchers: seq<Watcher>) {
    |watchers| == |binders| && forall i :: 0 <= i < |binders| ==> binders[i] == NotBound ==> watchers[i] == Unborn
  }

  ghost predicate Shape(s: State) {
    && Born(s.binders, s.watchers) && BindersFit(s.binders, s.wg.pcs)
    && WatchersFit(s.watchers, s.wg.pcs) && Owned(s.binders, s.active)
  }

  /** n is 0 or 1, and 0 from the moment the owning bind has finished its Done. */
  ghost predicate Mirror(s: State)
    requires Shape(s)
  {
    && (s.wg.n == 0 || s.wg.n == 1)
    && (s.active.Some? ==>
        var i := s.active.value;
        var pc := s.wg.pcs[i];
        && (s.binders[i] == Up ==> s.wg.n == 0)
        && (s.binders[i] == Releasing && (pc == WG.Idle || pc == WG.DoneSwapped(false)) ==> s.wg.n == 0)
        && (s.binders[i] == Releasing && pc.DoneLoaded? ==> pc.seen <= 1 && (pc.seen <= 0 ==> s.wg.n == 0)))
  }

  ghost predicate Inv(s: State) { Shape(s) && WG.Balanced(s.wg) && Mirror(s) }

  // ---- what holds as long as no bind context has been cancelled ----

  ghost predicate Uncancelled(s: State) {
    forall i :: 0 <= i < |s.watchers| ==> s.watchers[i] != Draining
  }

  /** The gate is shut (n is 1) unless the owning bind has taken its 1 from n. */
  ghost predicate Faithful(s: State)
    requires Shape(s)
  {
    if s.active == None then s.wg.n == 1
    else
      var i := s.active.value;
      var pc := s.wg.pcs[i];
      && (s.binders[i] == Blocking ==> s.wg.n == 1)
      && (s.binders[i] == Releasing && pc == WG.DoneEnter(false) ==> s.wg.n == 1)
      && (s.binders[i] == Releasing && pc.DoneLoaded? ==> pc.seen == 1 && s.wg.n == 1)
  }

  ghost predicate WaitersFaithful(s: State) {
    forall w :: 0 <= w < |s.waiters| ==>
      match s.waiters[w]
      case Passed(k) => k < s.cleared || (k == s.cleared && s.active.Some?)
      case Answered(conn, gate, readAt) => conn == None && gate.Some? ==> gate.value < readAt
      case _ => true
  }

  ghost predicate Safe(s: State) {
    Inv(s) && (Uncancelled(s) ==> Faithful(s) && WaitersFaithful(s))
  }

  /** A goroutine that is inside the wait group is a draining watcher or the owning bind. */
  lemma WhoSteps(s: State, t: nat)
    requires Shape(s) && t < 2 * |s.binders| && s.wg.pcs[t] != WG.Idle
    ensures if t < |s.binders| then s.active == Some(t) && (s.binders[t] == Releasing || s.binders[t] == Blocking)
            else s.watchers[t - |s.binders|] == Draining
  {
    if t < |s.binders| {
      assert BinderPc(s.binders[t], s.wg.pcs[t]);
    } else {
      assert WatcherPc(s.watchers[t - |s.binders|], s.wg.pcs[t]);
    }
  }

  /** A step of bind i changes its own entries and the connection from or to its own. */
  lemma MoveBinder(s: State, s': State, i: nat, b: Binder, pc: WG.Pc)
    requires Shape(s) && i < |s.binders| && BinderPc(b, pc) && b != NotBound
    requires s'.binders == s.binders[i := b] && s'.wg.pcs == s.wg.pcs[i := pc] && s'.watchers == s.watchers
    requires s'.active == if Owning(b) then Some(i) else if Owning(s.binders[i]) then None else s.active
    requires Owning(b) ==> s.active == None || s.active == Some(i)
    ensures Shape(s')
  {}

  lemma MoveWatcher(s: State, s': State, t: nat, w: Watcher, pc: WG.Pc)
    requires Shape(s) && |s.binders| <= t < |s.wg.pcs| && WatcherPc(w, pc)
    requires s.binders[t - |s.binders|] != NotBound
    requires s'.watchers == s.watchers[t - |s.binders| := w] && s'.wg.pcs == s.wg.pcs[t := pc]
    requires s'.binders == s.binders && s'.active == s.active
    ensures Shape(s')
  {}

  lemma AdvanceMoves(wg: WG.State, t: nat)
    requires t < |wg.pcs|
    ensures WG.Advance(wg, t).pcs == wg.pcs[t := WG.Advance(wg, t).pcs[t]]
    ensures forall b :: BinderPc(b, wg.pcs[t]) ==> BinderPc(b, WG.Advance(wg, t).pcs[t])
    ensures forall w :: WatcherPc(w, wg.pcs[t]) ==> WatcherPc(w, WG.Advance(wg, t).pcs[t])
  {}

  lemma GroupKeepsShape(s: State, t: nat)
    requires Shape(s) && Step(s, GroupStep(t)).Some?
    ensures Shape(Step(s, GroupStep(t)).value)
  {
    var s' := Step(s, GroupStep(t)).value;
    WhoSteps(s, t);
    AdvanceMoves(s.wg, t);
    if t < |s.binders| {
      assert s.binders == s.binders[t := s.binders[t]];
      MoveBinder(s, s', t, s.binders[t], s'.wg.pcs[t]);
    } else {
      var i := t - |s.binders|;
      assert s.watchers == s.watchers[i := s.watchers[i]];
      MoveWatcher(s, s', t, s.watchers[i], s'.wg.pcs[t]);
    }
  }

  lemma CancelKeepsShape(s: State, i: nat)
    requires Shape(s) && Step(s, Cancel(i)).Some?
    ensures Shape(Step(s, Cancel(i)).value)
  {
    MoveWatcher(s, Step(s, Cancel(i)).value, |s.binders| + i, Draining, WG.AllCheck);
  }

  lemma BindKeepsShape(s: State, i: nat)
    requires Shape(s) && Step(s, Bind(i)).Some?
    ensures Shape(Step(s, Bind(i)).value)
  {
    assert BinderPc(s.binders[i], s.wg.pcs[i]);
  }

  lemma BinderKeepsShape(s: State, a: Action)
    requires Shape(s) && Step(s, a).Some? && (a.Publish? || a.Released? || a.Lose? || a.Clear?)
    ensures Shape(Step(s, a).value)
  {
    var s' := Step(s, a).value;
    var i := a.i;
    assert BinderPc(s.binders[i], s.wg.pcs[i]);
    assert s'.wg.pcs == s.wg.pcs[i := s'.wg.pcs[i]];
    MoveBinder(s, s', i, s'.binders[i], s'.wg.pcs[i]);
  }

  predicate OfWaiter(a: Action) { a.Ask? || a.Pass? || a.GiveUp? || a.Read? }

  lemma WaiterKeepsRest(s: State, a: Action)
    requires Step(s, a).Some? && OfWaiter(a)
    ensures Step(s, a).value == s.(waiters := Step(s, a).value.waiters)
  {}

  lemma KeepsShape(s: State, a: Action)
    requires Shape(s) && Step(s, a).Some?
    ensures Shape(Step(s, a).value)
  {
    match a
    case GroupStep(t) => GroupKeepsShape(s, t);
    case Cancel(i) => CancelKeepsShape(s, i);
    case Bind(i) => BindKeepsShape(s, i);
    case Publish(_) => BinderKeepsShape(s, a);
    case Released(_) => BinderKeepsShape(s, a);
    case Lose(_) => BinderKeepsShape(s, a);
    case Clear(_) => BinderKeepsShape(s, a);
    case _ => WaiterKeepsRest(s, a);
  }

  lemma KeepsBalance(s: State, a: Action)
    requires Shape(s) && WG.Balanced(s.wg) && Step(s, a).Some?
    ensures WG.Balanced(Step(s, a).value.wg)
  {
    if Step(s, a).value.wg != s.wg { MovesKeepBalance(s, a); }
  }

  lemma MovesKeepBalance(s: State, a: Action)
    requires Shape(s) && WG.Balanced(s.wg) && Step(s, a).Some? && Step(s, a).value.wg != s.wg
    ensures WG.Balanced(Step(s, a).value.wg)
  {
    if a.GroupStep? {
      WG.AdvanceBalanced(s.wg, a.t);
    } else {
      var t, c := WhatStarts(s, a);
      if t < |s.binders| { OutsideIsIdle(s, t); } else { WatchingIsIdle(s, t - |s.binders|); }
      WG.BeginBalanced(s.wg, t, c);
    }
  }

  /** Every other step that changes the wait group starts a call of a goroutine that is outside. */
  lemma WhatStarts(s: State, a: Action) returns (t: nat, c: WG.Call)
    requires Step(s, a).Some? && Step(s, a).value.wg != s.wg && !a.GroupStep?
    ensures t < |s.wg.pcs| == 2 * |s.binders| && |s.watchers| == |s.binders| && Step(s, a).value.wg == WG.Begin(s.wg, t, c)
    ensures if t < |s.binders| then s.binders[t] != Releasing && s.binders[t] != Blocking else s.watchers[t - |s.binders|] != Draining
  {
    if a.Publish? {
      t, c := a.i, WG.CallDone;
    } else if a.Lose? {
      t, c := a.i, WG.CallAdd(1);
    } else {
      t, c := |s.binders| + a.i, WG.CallDoneAll;
    }
  }

  lemma OutsideIsIdle(s: State, i: nat)
    requires Shape(s) && i < |s.binders| && s.binders[i] != Releasing && s.binders[i] != Blocking
    ensures i < |s.wg.pcs| && s.wg.pcs[i] == WG.Idle
  {
    assert BinderPc(s.binders[i], s.wg.pcs[i]);
  }

  lemma WatchingIsIdle(s: State, i: nat)
    requires Shape(s) && i < |s.watchers| && s.watchers[i] != Draining
    ensures |s.binders| + i < |s.wg.pcs| && s.wg.pcs[|s.binders| + i] == WG.Idle
  {
    assert WatcherPc(s.watchers[i], s.wg.pcs[|s.binders| + i]);
  }

  lemma GroupKeepsMirror(s: State, t: nat)
    requires Shape(s) && Mirror(s) && Step(s, GroupStep(t)).Some? && Shape(Step(s, GroupStep(t)).value)
    ensures Mirror(Step(s, GroupStep(t)).value)
  {
    WhoSteps(s, t);
  }

  lemma KeepsMirror(s: State, a: Action)
    requires Shape(s) && Mirror(s) && Step(s, a).Some? && Shape(Step(s, a).value)
    ensures Mirror(Step(s, a).value)
  {
    match a
    case GroupStep(t) => GroupKeepsMirror(s, t);
    case Publish(i) => assert BinderPc(s.binders[i], s.wg.pcs[i]);
    case _ =>
  }

  lemma KeepsFaithful(s: State, a: Action)
    requires Shape(s) && Mirror(s) && Faithful(s) && Step(s, a).Some? && Shape(Step(s, a).value)
    requires Uncancelled(Step(s, a).value)
    ensures Faithful(Step(s, a).value)
  {
    var s' := Step(s, a).value;
    match a
    case GroupStep(t) =>
      WhoSteps(s, t);
    case Cancel(i) =>
    case Publish(i) => assert BinderPc(s.binders[i], s.wg.pcs[i]);
    case _ =>
  }

  lemma KeepsWaiters(s: State, a: Action)
    requires Safe(s) && Step(s, a).Some? && Uncancelled(Step(s, a).value)
    ensures WaitersFaithful(Step(s, a).value)
  {
    var s' := Step(s, a).value;
    UncancelledBefore(s, a);
    match a
    case Pass(w) => OpenGateHasConnection(s);
    case _ =>
  }

  lemma UncancelledBefore(s: State, a: Action)
    requires Shape(s) && Step(s, a).Some? && Uncancelled(Step(s, a).value)
    ensures Uncancelled(s)
  {
    var s' := Step(s, a).value;
    forall i | 0 <= i < |s.watchers| ensures s.watchers[i] != Draining {
      assert s'.watchers[i] != Draining;
    }
  }

  /** As long as no bind context has been cancelled, a gate that lets a waiter through has a
      connection behind it. */
  lemma OpenGateHasConnection(s: State)
    requires Inv(s) && Faithful(s) && Uncancelled(s) && s.wg.inner == 0
    ensures s.active.Some?
  {
    if s.active == None {
      NobodyInside(s);
      SumZero(s.wg.pcs, WG.Added);
      SumZero(s.wg.pcs, WG.Taken);
    }
  }

  lemma NobodyInside(s: State)
    requires Shape(s) && s.active == None && Uncancelled(s)
    ensures forall t :: 0 <= t < |s.wg.pcs| ==> s.wg.pcs[t] == WG.Idle
  {
    forall t | 0 <= t < |s.wg.pcs| ensures s.wg.pcs[t] == WG.Idle {
      if s.wg.pcs[t] != WG.Idle { WhoSteps(s, t); }
    }
  }

  lemma KeepsSafe(s: State, a: Action)
    requires Safe(s) && Step(s, a).Some?
    ensures Safe(Step(s, a).value)
  {
    KeepsShape(s, a);
    KeepsBalance(s, a);
    KeepsMirror(s, a);
    if Uncancelled(Step(s, a).value) {
      UncancelledBefore(s, a);
      KeepsFaithful(s, a);
      KeepsWaiters(s, a);
    }
  }

  lemma InitSafe(binds: nat, waits: nat)
    ensures Safe(Init(binds, waits))
  {
    var s := Init(binds, waits);
    SumZero(s.wg.pcs, WG.Added);
    SumZero(s.wg.pcs, WG.Taken);
  }

  // ---- the theorems over whole runs ----

  lemma AlwaysSafe(binds: nat, waits: nat, schedule: seq<Action>)
    requires Run(Step, Init(binds, waits), schedule).Some?
    ensures Safe(Run(Step, Init(binds, waits), schedule).value)
  {
    InitSafe(binds, waits);
    forall x, a | Safe(x) && Step(x, a).Some? ensures Safe(Step(x, a).value) {
      KeepsSafe(x, a);
    }
    RunKeeps(Step, (x: State) => Safe(x), Init(binds, waits), schedule);
  }

  /** In every interleaving, cancelled or not, n stays 0 or 1, at most one bind owns the
      connection, and the inner counter is negative exactly while the owner is half way through
      its Add and a drain has already taken what it added. */
  lemma MirrorStaysSmall(binds: nat, waits: nat, schedule: seq<Action>)
    requires Run(Step, Init(binds, waits), schedule).Some?
    ensures var s := Run(Step, Init(binds, waits), schedule).value;
            && (s.wg.n == 0 || s.wg.n == 1)
            && (forall i, j :: 0 <= i < |s.binders| && 0 <= j < |s.binders| && Owning(s.binders[i]) && Owning(s.binders[j]) ==> i == j)
            && (s.wg.inner < 0 <==>
                && s.wg.n == 0 && s.active.Some? && s.active.value < |s.wg.pcs|
                && s.wg.pcs[s.active.value].AddMid?
                && forall t :: 0 <= t < |s.wg.pcs| ==> !s.wg.pcs[t].DoneSwapped?)
  {
    AlwaysSafe(binds, waits, schedule);
    var s := Run(Step, Init(binds, waits), schedule).value;
    SumZero(s.wg.pcs, WG.Taken);
    AddedByOwner(s);
  }

  /** Only the owning bind can be half way through an Add. */
  lemma AddedByOwner(s: State)
    requires Shape(s)
    ensures Sum(s.wg.pcs, WG.Added)
         == if s.active.Some? && s.wg.pcs[s.active.value].AddMid? then 1 else 0
  {
    forall t | 0 <= t < |s.wg.pcs| && s.active != Some(t) ensures WG.Added(s.wg.pcs[t]) == 0 {
      if s.wg.pcs[t] != WG.Idle {
        WhoSteps(s, t);
      }
    }
    if s.active.Some? {
      var i := s.active.value;
      assert BinderPc(s.binders[i], s.wg.pcs[i]);
      var rest := s.wg.pcs[i := WG.Idle];
      SumUpdate(s.wg.pcs, i, WG.Idle, WG.Added);
      SumZero(rest, WG.Added);
    } else {
      SumZero(s.wg.pcs, WG.Added);
    }
  }

  /** A getSSH call that was let through and read nothing although no connection was cleared
      between the gate and the read. */
  predicate NothingAfterGate(w: Waiter) {
    w.Answered? && w.conn == None && w.gate.Some? && w.gate.value >= w.readAt
  }

  /** Without a cancelled bind context: an empty wait group means a connection, and a getSSH call
      that waited at the gate and still returns nothing read after a connection was cleared. */
  lemma GateWithoutCancellation(binds: nat, waits: nat, schedule: seq<Action>)
    requires Run(Step, Init(binds, waits), schedule).Some?
    requires Uncancelled(Run(Step, Init(binds, waits), schedule).value)
    ensures var s := Run(Step, Init(binds, waits), schedule).value;
            && s.wg.inner >= 0
            && (s.wg.inner == 0 ==> s.active.Some?)
            && (forall w :: 0 <= w < |s.waiters| ==> !NothingAfterGate(s.waiters[w]))
  {
    AlwaysSafe(binds, waits, schedule);
    var s := Run(Step, Init(binds, waits), schedule).value;
    if s.wg.inner == 0 { OpenGateHasConnection(s); }
    MirrorStaysSmall(binds, waits, schedule);
  }

  // ---- what a cancelled bind context can do ----

  /** Without a connection the gate is open exactly when a drain has emptied n and finished. */
  lemma GateWithoutConnection(s: State)
    requires Inv(s) && s.active == None
    ensures s.wg.inner == 0 <==> s.wg.n == 0 && forall t :: 0 <= t < |s.wg.pcs| ==> !s.wg.pcs[t].DoneSwapped?
  {
    AddedByOwner(s);
    SumZero(s.wg.pcs, WG.Taken);
  }

  function Small(n: int, inner: int, b: WG.Pc, w: WG.Pc): WG.State { WG.State(n, inner, [b, w]) }

  /** The small tunnel of the examples: one bind, its watcher, their places in the group. */
  function Example(wg: WG.State, active: Option<nat>, b: Binder, w: Watcher, waiters: seq<Waiter>): State {
    State(wg, active, [b], [w], waiters, 0)
  }

  /** Updates of the one- and two-element lists of the examples. */
  lemma SmallUpdates()
    ensures forall x: Binder, y: Binder :: [x][0 := y] == [y]
    ensures forall x: Watcher, y: Watcher :: [x][0 := y] == [y]
    ensures forall x: Waiter, y: Waiter :: [x][0 := y] == [y]
    ensures forall x: WG.Pc, y: WG.Pc, z: WG.Pc :: [x, y][0 := z] == [z, y]
    ensures forall x: WG.Pc, y: WG.Pc, z: WG.Pc :: [x, y][1 := z] == [x, z]
  {}

  lemma SmallInit(waits: nat)
    requires waits <= 1
    ensures Init(1, waits) == Example(Small(1, 1, WG.Idle, WG.Idle), None, NotBound, Unborn, if waits == 1 then [Asking] else [])
  {
    assert seq(2 * 1, _ => WG.Idle) == [WG.Idle, WG.Idle];
  }

  lemma SmallSteps(n: int, inner: int, b: WG.Pc, w: WG.Pc, active: Option<nat>, binder: Binder, watcher: Watcher, waiters: seq<Waiter>)
    ensures var s := Example(Small(n, inner, b, w), active, binder, watcher, waiters);
      && (w == WG.AllCheck && n > 0 ==>
          Step(s, GroupStep(1)) == Some(s.(wg := Small(n, inner, b, WG.DoneEnter(true)))))
      && (w == WG.DoneEnter(true) ==>
          Step(s, GroupStep(1)) == Some(s.(wg := Small(n, inner, b, WG.DoneLoaded(n, true)))))
      && (w == WG.DoneLoaded(n, true) && n > 0 ==>
          Step(s, GroupStep(1)) == Some(s.(wg := Small(n - 1, inner, b, WG.DoneSwapped(true)))))
      && (w == WG.DoneSwapped(true) ==>
          Step(s, GroupStep(1)) == Some(s.(wg := Small(n, inner - 1, b, WG.AllCheck))))
  {
    SmallUpdates();
  }

  const DRAIN := [GroupStep(1), GroupStep(1)] + [GroupStep(1), GroupStep(1)]

  /** With one bind, its watcher at the head of DoneAll takes a 1 from both counters. */
  lemma DrainOnce(inner: int, b: WG.Pc, active: Option<nat>, binder: Binder, watcher: Watcher, waiters: seq<Waiter>)
    ensures Run(Step, Example(Small(1, inner, b, WG.AllCheck), active, binder, watcher, waiters), DRAIN)
         == Some(Example(Small(0, inner - 1, b, WG.AllCheck), active, binder, watcher, waiters))
  {
    var g := GroupStep(1);
    var s := Example(Small(1, inner, b, WG.AllCheck), active, binder, watcher, waiters);
    SmallSteps(1, inner, b, WG.AllCheck, active, binder, watcher, waiters);
    SmallSteps(1, inner, b, WG.DoneEnter(true), active, binder, watcher, waiters);
    SmallSteps(1, inner, b, WG.DoneLoaded(1, true), active, binder, watcher, waiters);
    SmallSteps(0, inner, b, WG.DoneSwapped(true), active, binder, watcher, waiters);
    RunAppend(Step, s, [g, g], [g, g]);
    RunTwo(Step, s, g, g);
    RunTwo(Step, s.(wg := Small(1, inner, b, WG.DoneLoaded(1, true))), g, g);
  }

  /** A context that is cancelled before its connection is published opens the gate: a waiter is
      let through and reads nothing. */
  lemma CancelledGateIsFree()
    ensures var end := Run(Step, Init(1, 1), [Bind(0), Cancel(0)] + (DRAIN + ([Ask(0), Pass(0)] + [Read(0)])));
            end.Some? && |end.value.waiters| == 1 && NothingAfterGate(end.value.waiters[0])
  {
    SmallUpdates();
    SmallInit(1);
    var s0 := Init(1, 1);
    var s1 := Example(Small(1, 1, WG.Idle, WG.Idle), None, Entered, Watching, [Asking]);
    var s2 := Example(Small(1, 1, WG.Idle, WG.AllCheck), None, Entered, Draining, [Asking]);
    assert Step(s0, Bind(0)) == Some(s1);
    assert Step(s1, Cancel(0)) == Some(s2);
    RunTwo(Step, s0, Bind(0), Cancel(0));
    RunAppend(Step, s0, [Bind(0), Cancel(0)], DRAIN + ([Ask(0), Pass(0)] + [Read(0)]));
    DrainOnce(1, WG.Idle, None, Entered, Draining, [Asking]);
    RunAppend(Step, s2, DRAIN, [Ask(0), Pass(0)] + [Read(0)]);
    FreeGateLetsThrough(Example(Small(0, 0, WG.Idle, WG.AllCheck), None, Entered, Draining, [Asking]));
  }

  lemma FreeGateLetsThrough(s: State)
    requires s == Example(Small(0, 0, WG.Idle, WG.AllCheck), None, Entered, Draining, [Asking])
    ensures Run(Step, s, [Ask(0), Pass(0)] + [Read(0)])
         == Some(s.(waiters := [Answered(None, Some(s.cleared), s.cleared)]))
  {
    SmallUpdates();
    RunAppend(Step, s, [Ask(0), Pass(0)], [Read(0)]);
    assert Step(s, Ask(0)) == Some(s.(waiters := [Waiting]));
    assert Step(s.(waiters := [Waiting]), Pass(0)) == Some(s.(waiters := [Passed(s.cleared)]));
    RunTwo(Step, s, Ask(0), Pass(0));
    RunOne(Step, s.(waiters := [Passed(s.cleared)]), Read(0));
  }

  /** A connection that is lost while its context is cancelled can drive the inner counter below
      zero: the drain takes the 1 that Add has put into n only. */
  lemma LostWhileCancelledUnderflows()
    ensures var end := Run(Step, Example(Small(0, 0, WG.Idle, WG.Idle), Some(0), Up, Watching, []), [Cancel(0), Lose(0)] + DRAIN);
            end.Some? && end.value.wg.inner == -1
  {
    SmallUpdates();
    var s := Example(Small(0, 0, WG.Idle, WG.Idle), Some(0), Up, Watching, []);
    var s1 := Example(Small(0, 0, WG.Idle, WG.AllCheck), Some(0), Up, Draining, []);
    var s2 := Example(Small(1, 0, WG.AddMid(1), WG.AllCheck), Some(0), Blocking, Draining, []);
    assert Step(s, Cancel(0)) == Some(s1);
    assert Step(s1, Lose(0)) == Some(s2);
    RunTwo(Step, s, Cancel(0), Lose(0));
    RunAppend(Step, s, [Cancel(0), Lose(0)], DRAIN);
    DrainOnce(0, WG.AddMid(1), Some(0), Blocking, Draining, []);
  }

  /** The state that the previous lemma starts from is that of every connected tunnel. */
  lemma ConnectedIsReachable()
    ensures var connect := [Bind(0), Publish(0)] + ([GroupStep(0), GroupStep(0)] + [GroupStep(0), Released(0)]);
            Run(Step, Init(1, 0), connect)
            == Some(Example(Small(0, 0, WG.Idle, WG.Idle), Some(0), Up, Watching, []))
  {
    SmallUpdates();
    SmallInit(0);
    var g := GroupStep(0);
    var s0 := Init(1, 0);
    var s1 := Example(Small(1, 1, WG.Idle, WG.Idle), None, Entered, Watching, []);
    var s2 := Example(Small(1, 1, WG.DoneEnter(false), WG.Idle), Some(0), Releasing, Watching, []);
    assert Step(s0, Bind(0)) == Some(s1);
    assert Step(s1, Publish(0)) == Some(s2);
    RunTwo(Step, s0, Bind(0), Publish(0));
    RunAppend(Step, s0, [Bind(0), Publish(0)], [g, g] + [g, Released(0)]);
    RunAppend(Step, s2, [g, g], [g, Released(0)]);
    ReleaseAlone();
  }

  /** So a tunnel that is connected can be brought to a negative counter from its very start. */
  lemma UnderflowFromTheStart()
    ensures var connect := [Bind(0), Publish(0)] + ([GroupStep(0), GroupStep(0)] + [GroupStep(0), Released(0)]);
            var end := Run(Step, Init(1, 0), connect + ([Cancel(0), Lose(0)] + DRAIN));
            end.Some? && end.value.wg.inner == -1
  {
    ConnectedIsReachable();
    LostWhileCancelledUnderflows();
    RunAppend(Step, Init(1, 0), [Bind(0), Publish(0)] + ([GroupStep(0), GroupStep(0)] + [GroupStep(0), Released(0)]), [Cancel(0), Lose(0)] + DRAIN);
  }

  lemma ReleaseAlone()
    ensures var g := GroupStep(0);
            var s2 := Example(Small(1, 1, WG.DoneEnter(false), WG.Idle), Some(0), Releasing, Watching, []);
            var s4 := Example(Small(0, 1, WG.DoneSwapped(false), WG.Idle), Some(0), Releasing, Watching, []);
            && Run(Step, s2, [g, g]) == Some(s4)
            && Run(Step, s4, [g, Released(0)]) == Some(Example(Small(0, 0, WG.Idle, WG.Idle), Some(0), Up, Watching, []))
  {
    SmallUpdates();
    var g := GroupStep(0);
    var s2 := Example(Small(1, 1, WG.DoneEnter(false), WG.Idle), Some(0), Releasing, Watching, []);
    var s3 := Example(Small(1, 1, WG.DoneLoaded(1, false), WG.Idle), Some(0), Releasing, Watching, []);
    var s4 := Example(Small(0, 1, WG.DoneSwapped(false), WG.Idle), Some(0), Releasing, Watching, []);
    var s5 := Example(Small(0, 0, WG.Idle, WG.Idle), Some(0), Releasing, Watching, []);
    var s6 := Example(Small(0, 0, WG.Idle, WG.Idle), Some(0), Up, Watching, []);
    assert Step(s2, g) == Some(s3);
    assert Step(s3, g) == Some(s4);
    assert Step(s4, g) == Some(s5);
    assert Step(s5, Released(0)) == Some(s6);
    RunTwo(Step, s2, g, g);
    RunTwo(Step, s4, g, Released(0));
  }
}
