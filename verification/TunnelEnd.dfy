/** When the tunnel of a server session (share/tunnel/tunnel.go, server/server_handler.go) ends the
    process, and when it can. */
module TunnelEnd {
  import opened Common
  import WG = WaitGroups
  import G = ConnectionGate
  import opened ServerTunnel

  // ---- which steps end the process ----

  /** A drain takes from the library's counter what the loss of the connection has not added. */
  predicate Underflows(s: State, a: Action)
    requires OneBind(s.gate)
  {
    && a == Gate(G.GroupStep(1)) && s.gate.wg.pcs[1].DoneSwapped?
    && s.gate.binders[0] == G.Blocking && s.gate.wg.pcs[0] == WG.AddMid(1) && s.gate.wg.n == 0
  }

  /** A released waiter goes on when the counter is in use again. */
  predicate Reuses(s: State, a: Action) {
    a.Resume? && a.w < |s.helpers| && s.helpers[a.w] == Woken && s.gate.wg.inner > 0
  }

  lemma PairSum(pcs: seq<WG.Pc>, w: WG.Pc -> nat)
    requires |pcs| == 2
    ensures Sum(pcs, w) == w(pcs[0]) + w(pcs[1])
  {
    assert pcs[..1] == [pcs[0]];
    assert [pcs[0]][..0] == [];
    assert Sum([pcs[0]], w) == Sum([pcs[0]][..0], w) + w(pcs[0]);
  }

  /** The two counters of a gate with one bind. */
  lemma PairBalance(g: G.State)
    requires G.Inv(g) && OneBind(g)
    ensures g.wg.inner == g.wg.n - WG.Added(g.wg.pcs[0]) - WG.Added(g.wg.pcs[1]) + WG.Taken(g.wg.pcs[0]) + WG.Taken(g.wg.pcs[1])
  {
    PairSum(g.wg.pcs, WG.Added);
    PairSum(g.wg.pcs, WG.Taken);
  }

  lemma OnlyDonesLower(g: G.State, a: G.Action)
    requires OneBind(g) && G.Step(g, a).Some? && G.Step(g, a).value.wg.inner < g.wg.inner
    ensures a.GroupStep? && a.t < 2 && g.wg.pcs[a.t].DoneSwapped?
  {}

  lemma NegativeStep(s: State, a: G.Action)
    requires Inv(s) && s.alive && GateStep(s, a).Some?
    ensures GateStep(s, a).value.gate.wg.inner < 0 <==> Underflows(s, Gate(a))
  {
    var g := G.Step(s.gate, a).value;
    PairBalance(s.gate);
    if g.wg.inner < 0 {
      G.KeepsSafe(s.gate, a);
      GateKeepsShape(s, a);
      NegativeMeans(g);
      OnlyDonesLower(s.gate, a);
    }
    if Underflows(s, Gate(a)) {
      assert G.WatcherPc(s.gate.watchers[0], s.gate.wg.pcs[1]);
    }
  }

  /** In every reachable state an enabled step ends the process if and only if it is one of the two. */
  lemma EndingStep(s: State, a: Action)
    requires Inv(s) && Step(s, a).Some?
    ensures !Step(s, a).value.alive <==> Underflows(s, a) || Reuses(s, a)
  {
    if a.Gate? { NegativeStep(s, a.a); }
  }

  // ---- the way of the bind ----

  function BinderRank(g: G.State): nat
    requires OneBind(g)
  {
    match g.binders[0]
    case NotBound => 9
    case Entered => 8
    case Releasing =>
      (match g.wg.pcs[0]
       case DoneEnter(_) => 7
       case DoneLoaded(_, _) => 6
       case DoneSwapped(_) => 5
       case _ => 4)
    case Up => 3
    case Blocking => if g.wg.pcs[0].AddMid? then 2 else 1
    case _ => 0
  }

  function BinderMove(g: G.State): G.Action
    requires OneBind(g)
  {
    match g.binders[0]
    case NotBound => G.Bind(0)
    case Entered => G.Publish(0)
    case Releasing => if g.wg.pcs[0] == WG.Idle then G.Released(0) else G.GroupStep(0)
    case Up => G.Lose(0)
    case _ => if g.wg.pcs[0] == WG.Idle then G.Clear(0) else G.GroupStep(0)
  }

  predicate Underway(g: G.State)
    requires OneBind(g)
  {
    g.binders[0] != G.Returned && g.binders[0] != G.Panicked
  }

  lemma BinderAdvances(g: G.State)
    requires G.Inv(g) && OneBind(g) && Underway(g)
    ensures var g' := G.Step(g, BinderMove(g));
      && g'.Some? && OneBind(g'.value) && BinderRank(g'.value) < BinderRank(g)
      && g'.value.wg.pcs[1] == g.wg.pcs[1]
      && (g'.value.watchers == g.watchers || (g.binders[0] == G.NotBound && g'.value.watchers[0] == G.Watching))
      && g'.value.binders[0] != G.Panicked && g'.value.binders[0] != G.NotBound
  {
    assert G.BinderPc(g.binders[0], g.wg.pcs[0]);
  }

  /** The bind, left alone, goes on without ending the process. */
  lemma BinderGoesOn(s: State)
    requires Inv(s) && s.alive && Underway(s.gate)
    ensures var a := BinderMove(s.gate);
      var s' := GateStep(s, a);
      && s'.Some? && s'.value.gate == G.Step(s.gate, a).value && s'.value.alive && Inv(s'.value) && s'.value.remotes == s.remotes
  {
    BinderAdvances(s.gate);
    GateKeepsInv(s, BinderMove(s.gate));
    NegativeStep(s, BinderMove(s.gate));
  }

  /** From every reachable state the bind can return and leave the process alive. */
  lemma {:induction false} BindCanReturn(s: State) returns (rest: seq<Action>)
    requires Inv(s) && s.alive
    ensures Run(Step, s, rest).Some?
    ensures var end := Run(Step, s, rest).value;
      Inv(end) && end.alive && end.gate.binders[0] == G.Returned && end.remotes == s.remotes
    ensures forall i :: 0 <= i < |rest| ==> rest[i].Gate?
    decreases BinderRank(s.gate)
  {
    rest := [];
    if Underway(s.gate) {
      BinderAdvances(s.gate);
      BinderGoesOn(s);
      var a := Gate(BinderMove(s.gate));
      var s1 := Step(s, a).value;
      var more := BindCanReturn(s1);
      rest := [a] + more;
      assert rest[1..] == more;
    }
  }

  // ---- when the counter can still become negative ----

  /** The loss of the connection is not yet added to the library's counter. */
  predicate LossAhead(g: G.State)
    requires OneBind(g)
  {
    Underway(g) && (g.binders[0] == G.Blocking ==> g.wg.pcs[0] == WG.AddMid(1))
  }

  /** The drain of the context has not run to its end. */
  predicate DrainAhead(g: G.State)
    requires OneBind(g)
  {
    !(g.watchers[0] == G.Draining && g.wg.pcs[1] == WG.Idle)
  }

  ghost predicate Exposed(s: State) {
    OneBind(s.gate) && s.remotes != Returned(false) && LossAhead(s.gate) && DrainAhead(s.gate)
  }

  function DrainRank(g: G.State): nat
    requires OneBind(g)
  {
    if g.watchers[0] != G.Draining then 8
    else
      match g.wg.pcs[1]
      case AllCheck => 4
      case DoneEnter(_) => 3
      case DoneLoaded(v, _) => if v == 1 then 2 else 5
      case DoneSwapped(_) => if g.wg.n == 0 then 1 else 6
      case _ => 0
  }

  function DrainMove(g: G.State): G.Action
    requires OneBind(g)
  {
    if g.watchers[0] != G.Draining then G.Cancel(0) else G.GroupStep(1)
  }

  /** While the loss is half reported the drain gets nearer to taking what it has added. */
  lemma DrainAdvances(s: State)
    requires Inv(s) && s.alive && s.remotes == Returned(true) && DrainAhead(s.gate)
    requires s.gate.binders[0] == G.Blocking && s.gate.wg.pcs[0] == WG.AddMid(1)
    ensures var g' := G.Step(s.gate, DrainMove(s.gate));
      && g'.Some? && OneBind(g'.value) && g'.value.binders == s.gate.binders && g'.value.wg.pcs[0] == s.gate.wg.pcs[0]
      && (g'.value.wg.inner < 0 || (DrainAhead(g'.value) && DrainRank(g'.value) < DrainRank(s.gate)))
  {
    PairBalance(s.gate);
    assert G.WatcherPc(s.gate.watchers[0], s.gate.wg.pcs[1]);
  }

  lemma {:induction false} ExposedCanUnderflow(s: State) returns (rest: seq<Action>)
    requires Inv(s) && s.alive && Exposed(s)
    ensures Run(Step, s, rest).Some? && Underflow(Run(Step, s, rest).value)
    decreases if s.remotes == Working then 1 else 0, BinderRank(s.gate), DrainRank(s.gate)
  {
    var a;
    if s.remotes == Working {
      a := RemotesReturn(true);
    } else if s.gate.binders[0] == G.Blocking {
      DrainAdvances(s);
      a := Gate(DrainMove(s.gate));
    } else {
      BinderAdvances(s.gate);
      BinderGoesOn(s);
      a := Gate(BinderMove(s.gate));
    }
    var s1 := Step(s, a).value;
    StepKeepsInv(s, a);
    rest := [a];
    if s1.alive {
      var more := ExposedCanUnderflow(s1);
      rest := [a] + more;
      assert rest[1..] == more;
    } else {
      RunOne(Step, s, a);
    }
  }

  lemma RunKeepsInv(s: State, rest: seq<Action>)
    requires Inv(s) && Run(Step, s, rest).Some?
    ensures Inv(Run(Step, s, rest).value)
  {
    forall x, a | Inv(x) && Step(x, a).Some? ensures Inv(Step(x, a).value) { StepKeepsInv(x, a); }
    RunKeeps(Step, (x: State) => Inv(x), s, rest);
  }

  lemma UnderflowIsDead(s: State, rest: seq<Action>)
    requires Inv(s) && Run(Step, s, rest).Some? && Underflow(Run(Step, s, rest).value)
    ensures !Run(Step, s, rest).value.alive
  {
    RunKeepsInv(s, rest);
  }

  lemma UnexposedStays(s: State, a: Action)
    requires Inv(s) && !Exposed(s) && s.gate.wg.inner >= 0 && Step(s, a).Some?
    ensures !Exposed(Step(s, a).value) && Step(s, a).value.gate.wg.inner >= 0
  {
    match a
    case Gate(b) =>
      NegativeStep(s, b);
      GateKeepsPassed(s.gate, b);
    case Resume(w) => if G.Step(s.gate, G.Pass(w)).Some? { GateKeepsPassed(s.gate, G.Pass(w)); }
    case _ =>
  }

  /** What lies behind the bind and the drain stays behind them. */
  lemma GateKeepsPassed(g: G.State, a: G.Action)
    requires G.Inv(g) && OneBind(g) && G.Step(g, a).Some?
    ensures var g' := G.Step(g, a).value;
      && OneBind(g') && (!LossAhead(g) ==> !LossAhead(g')) && (!DrainAhead(g) ==> !DrainAhead(g'))
  {
    assert G.BinderPc(g.binders[0], g.wg.pcs[0]);
    assert G.WatcherPc(g.watchers[0], g.wg.pcs[1]);
  }

  /** In every reachable state of a live process some continuation makes the counter negative if
      and only if BindRemotes has not returned in order, the loss of the connection is not yet
      added, and the drain of the context has not run to its end. */
  lemma CanUnderflow(waits: nat, schedule: seq<Action>)
    requires Run(Step, Init(waits), schedule).Some? && Run(Step, Init(waits), schedule).value.alive
    ensures var s := Run(Step, Init(waits), schedule).value;
      (exists rest :: Run(Step, s, rest).Some? && Underflow(Run(Step, s, rest).value)) <==> Exposed(s)
  {
    AlwaysInv(waits, schedule);
    var s := Run(Step, Init(waits), schedule).value;
    if Exposed(s) {
      var rest := ExposedCanUnderflow(s);
    } else {
      forall rest | Run(Step, s, rest).Some? ensures !Underflow(Run(Step, s, rest).value) { UnexposedRun(s, rest); }
    }
  }

  lemma UnexposedRun(s: State, rest: seq<Action>)
    requires Inv(s) && s.alive && !Exposed(s) && Run(Step, s, rest).Some?
    ensures Run(Step, s, rest).value.gate.wg.inner >= 0
  {
    var safe := (x: State) => Inv(x) && !Exposed(x) && x.gate.wg.inner >= 0;
    forall x, a | safe(x) && Step(x, a).Some? ensures safe(Step(x, a).value) {
      StepKeepsInv(x, a);
      UnexposedStays(x, a);
    }
    RunKeeps(Step, safe, s, rest);
  }

  /** BindRemotes returns once. */
  lemma {:induction false} ReturnedStays(s: State, schedule: seq<Action>)
    requires s.remotes != Working && Run(Step, s, schedule).Some?
    ensures forall i :: 0 <= i < |schedule| ==> !schedule[i].RemotesReturn?
    decreases |schedule|
  {
    if schedule != [] {
      ReturnedStays(Step(s, schedule[0]).value, schedule[1..]);
      assert forall i :: 1 <= i < |schedule| ==> schedule[i] == schedule[1..][i - 1];
    }
  }

  // ---- a waiter at the gate is enough ----

  /** The first waiter is blocked before the gate opens, or released and not resumed. */
  predicate FirstHeld(s: State)
    requires OneBind(s.gate)
  {
    && |s.helpers| > 0 && s.gate.watchers[0] == G.Watching
    && (s.helpers[0] == Woken ||
        (s.helpers[0] == Blocked && (s.gate.binders[0] == G.Entered || (s.gate.binders[0] == G.Releasing && s.gate.wg.pcs[0] != WG.Idle))))
  }

  lemma HeldGoesOn(s: State)
    requires Inv(s) && s.alive && FirstHeld(s) && LossAhead(s.gate) && s.gate.binders[0] != G.NotBound
    ensures var s' := GateStep(s, BinderMove(s.gate)); s'.Some? && OneBind(s'.value.gate) && FirstHeld(s'.value)
  {
    BinderAdvances(s.gate);
    BinderGoesOn(s);
    assert G.Uncancelled(s.gate);
    assert G.BinderPc(s.gate.binders[0], s.gate.wg.pcs[0]);
    assert G.WatcherPc(s.gate.watchers[0], s.gate.wg.pcs[1]);
    PairBalance(s.gate);
  }

  lemma {:induction false} HeldCanReuse(s: State) returns (rest: seq<Action>)
    requires Inv(s) && s.alive && FirstHeld(s) && s.gate.binders[0] != G.NotBound
    requires LossAhead(s.gate) || s.gate.binders[0] == G.Blocking
    ensures Run(Step, s, rest).Some? && !Run(Step, s, rest).value.alive
    ensures forall i :: 0 <= i < |rest| ==> !rest[i].RemotesReturn?
    decreases BinderRank(s.gate)
  {
    if LossAhead(s.gate) {
      BinderAdvances(s.gate);
      BinderGoesOn(s);
      HeldGoesOn(s);
      var a := Gate(BinderMove(s.gate));
      var more := HeldCanReuse(Step(s, a).value);
      rest := [a] + more;
      assert rest[1..] == more;
    } else {
      AddedAgain(s);
      rest := [Resume(0)];
      RunOne(Step, s, Resume(0));
    }
  }

  /** After the loss is added the counter is in use. */
  lemma AddedAgain(s: State)
    requires Inv(s) && s.alive && FirstHeld(s) && s.gate.binders[0] == G.Blocking && s.gate.wg.pcs[0] != WG.AddMid(1)
    ensures s.helpers[0] == Woken && s.gate.wg.inner > 0
  {
    assert G.Uncancelled(s.gate);
    assert G.BinderPc(s.gate.binders[0], s.gate.wg.pcs[0]);
    assert G.WatcherPc(s.gate.watchers[0], s.gate.wg.pcs[1]);
    PairBalance(s.gate);
  }

  lemma FirstBlocks(waits: nat)
    requires waits > 0
    ensures var run := Run(Step, Init(waits), [Gate(G.Bind(0)), Gate(G.Ask(0))] + [Block(0)]);
      run.Some? && Inv(run.value) && run.value.alive && FirstHeld(run.value) && run.value.gate.binders[0] == G.Entered
  {
    var s0 := Init(waits);
    var s1 := Step(s0, Gate(G.Bind(0))).value;
    assert s1.gate.waiters[0] == G.Asking && s1.gate.active == None && s1.helpers == s0.helpers;
    var s2 := Step(s1, Gate(G.Ask(0))).value;
    assert s2.helpers[0] == Outside && s2.gate.wg.inner == 1;
    RunTwo(Step, s0, Gate(G.Bind(0)), Gate(G.Ask(0)));
    RunAppend(Step, s0, [Gate(G.Bind(0)), Gate(G.Ask(0))], [Block(0)]);
    RunOne(Step, s2, Block(0));
    AlwaysInv(waits, [Gate(G.Bind(0)), Gate(G.Ask(0))] + [Block(0)]);
  }

  /** One getSSH call is enough to end the process, without any return of BindRemotes. */
  lemma WaiterCanReuse(waits: nat) returns (schedule: seq<Action>)
    requires waits > 0
    ensures Run(Step, Init(waits), schedule).Some? && !Run(Step, Init(waits), schedule).value.alive
    ensures forall i :: 0 <= i < |schedule| ==> !schedule[i].RemotesReturn?
  {
    var first := [Gate(G.Bind(0)), Gate(G.Ask(0))] + [Block(0)];
    FirstBlocks(waits);
    var rest := HeldCanReuse(Run(Step, Init(waits), first).value);
    RunAppend(Step, Init(waits), first, rest);
    schedule := first + rest;
  }

  // ---- what a run leaves alone ----

  lemma {:induction false} RemotesUntouched(s: State, schedule: seq<Action>)
    requires Run(Step, s, schedule).Some? && forall i :: 0 <= i < |schedule| ==> !schedule[i].RemotesReturn?
    ensures Run(Step, s, schedule).value.remotes == s.remotes
    decreases |schedule|
  {
    if schedule != [] {
      assert !schedule[0].RemotesReturn?;
      assert forall i :: 0 <= i < |schedule[1..]| ==> schedule[1..][i] == schedule[i + 1];
      RemotesUntouched(Step(s, schedule[0]).value, schedule[1..]);
    }
  }

  lemma ReturnedRemotes(s: State, schedule: seq<Action>)
    requires s.remotes != Working && Run(Step, s, schedule).Some?
    ensures Run(Step, s, schedule).value.remotes == s.remotes
  {
    RunKeeps(Step, (x: State) => x.remotes == s.remotes, s, schedule);
  }

  lemma HelpersStay(s: State, schedule: seq<Action>)
    requires Run(Step, s, schedule).Some?
    ensures |Run(Step, s, schedule).value.helpers| == |s.helpers|
  {
    RunKeeps(Step, (x: State) => |x.helpers| == |s.helpers|, s, schedule);
  }
}
