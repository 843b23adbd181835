/** The tunnel as an object that one goroutine uses at a time (share/tunnel/tunnel.go): every
    method takes a run of the transition system of ConnectionGate, which `state` follows. */
module GatedTunnels {
  import opened Common
  import WG = WaitGroups
  import opened ConnectionGate

  /** Nobody is inside the wait group. */
  ghost predicate Quiet(s: State) {
    && |s.watchers| == |s.binders| && |s.wg.pcs| == 2 * |s.binders|
    && (forall t :: 0 <= t < |s.wg.pcs| ==> s.wg.pcs[t] == WG.Idle)
    && (s.wg.n == s.wg.inner == 0 || s.wg.n == s.wg.inner == 1)
    && (s.active.Some? ==> s.wg.n == 0 && s.active.value < |s.binders| && s.binders[s.active.value] == Up)
  }

  function GroupSteps(t: nat, k: nat): seq<Action> { seq(k, _ => GroupStep(t)) }

  lemma RunCons(s: State, a: Action, rest: seq<Action>)
    ensures Run(Step, s, [a] + rest) == match Step(s, a) case None => None case Some(s1) => Run(Step, s1, rest)
  {
    assert ([a] + rest)[1..] == rest;
  }

  lemma GroupStepsCons(t: nat, k: nat)
    requires k > 0
    ensures GroupSteps(t, k) == [GroupStep(t)] + GroupSteps(t, k - 1)
  {}

  /** One step of goroutine t, at pc, and then the steps that follow. */
  lemma GroupRuns(s: State, t: nat, k: nat)
    requires k > 0 && |s.watchers| == |s.binders| && t < |s.wg.pcs| == 2 * |s.binders| && s.wg.pcs[t] != WG.Idle
    ensures Run(Step, s, GroupSteps(t, k)) == Run(Step, s.(wg := WG.Advance(s.wg, t)), GroupSteps(t, k - 1))
  {
    GroupStepsCons(t, k);
    RunCons(s, GroupStep(t), GroupSteps(t, k - 1));
  }

  function At(s: State, n: int, inner: int, t: nat, pc: WG.Pc): State
    requires t < |s.wg.pcs|
  {
    s.(wg := WG.State(n, inner, s.wg.pcs[t := pc]))
  }

  function DoneLength(n: int): nat { if n > 0 then 3 else 2 }

  /** The steps of a Done that is not disturbed, which end at Idle or at the head of DoneAll. */
  lemma DoneRuns(s: State, t: nat, n: int, inner: int, all: bool, k: nat)
    requires |s.watchers| == |s.binders| && t < |s.wg.pcs| == 2 * |s.binders| && n >= 0
    ensures var (n', inner') := WG.DoneEffect(n, inner);
      Run(Step, At(s, n, inner, t, WG.DoneEnter(all)), GroupSteps(t, DoneLength(n) + k))
      == Run(Step, At(s, n', inner', t, WG.Back(all)), GroupSteps(t, k))
  {
    var s0, s1 := At(s, n, inner, t, WG.DoneEnter(all)), At(s, n, inner, t, WG.DoneLoaded(n, all));
    GroupRuns(s0, t, DoneLength(n) + k);
    assert s0.(wg := WG.Advance(s0.wg, t)) == s1;
    GroupRuns(s1, t, DoneLength(n) + k - 1);
    if n > 0 {
      var s2 := At(s, n - 1, inner, t, WG.DoneSwapped(all));
      assert s1.(wg := WG.Advance(s1.wg, t)) == s2;
      GroupRuns(s2, t, 1 + k);
      assert s2.(wg := WG.Advance(s2.wg, t)) == At(s, n - 1, inner - 1, t, WG.Back(all));
    } else {
      assert s1.(wg := WG.Advance(s1.wg, t)) == At(s, n, inner, t, WG.Back(all));
    }
  }

  /** The steps of a bind that publishes its connection. */
  function ConnectSteps(i: nat, n: int): seq<Action> {
    [Bind(i)] + ([Publish(i)] + (GroupSteps(i, DoneLength(n)) + [Released(i)]))
  }

  function Connected(s: State, i: nat): State
    requires i < |s.binders| == |s.watchers|
  {
    s.(active := Some(i), binders := s.binders[i := Up], watchers := s.watchers[i := Watching], wg := WG.State(0, 0, s.wg.pcs))
  }

  lemma ConnectRuns(s: State, i: nat)
    requires Quiet(s) && i < |s.binders| && s.binders[i] == NotBound && s.active == None
    ensures Run(Step, s, ConnectSteps(i, s.wg.n)) == Some(Connected(s, i)) && Quiet(Connected(s, i))
  {
    var n := s.wg.n;
    var s1 := s.(binders := s.binders[i := Entered], watchers := s.watchers[i := Watching]);
    RunCons(s, Bind(i), [Publish(i)] + (GroupSteps(i, DoneLength(n)) + [Released(i)]));
    assert Step(s, Bind(i)) == Some(s1);
    var s2 := s1.(active := Some(i), binders := s.binders[i := Releasing]);
    RunCons(s1, Publish(i), GroupSteps(i, DoneLength(n)) + [Released(i)]);
    assert s1.binders[i := Releasing] == s.binders[i := Releasing];
    assert Step(s1, Publish(i)) == Some(At(s2, n, n, i, WG.DoneEnter(false)));
    ReleaseRuns(s2, i, n);
    assert s2.binders[i := Up] == s.binders[i := Up];
  }

  lemma ReleaseRuns(s: State, i: nat, n: int)
    requires |s.watchers| == |s.binders| && |s.wg.pcs| == 2 * |s.binders| && i < |s.binders| && (n == 0 || n == 1)
    requires s.wg.pcs[i] == WG.Idle && s.binders[i] == Releasing
    ensures Run(Step, At(s, n, n, i, WG.DoneEnter(false)), GroupSteps(i, DoneLength(n)) + [Released(i)])
         == Some(s.(binders := s.binders[i := Up], wg := WG.State(0, 0, s.wg.pcs)))
  {
    DoneRuns(s, i, n, n, false, 0);
    var end := s.(wg := WG.State(0, 0, s.wg.pcs));
    assert s.wg.pcs[i := WG.Idle] == s.wg.pcs;
    assert At(s, 0, 0, i, WG.Idle) == end;
    RunAppend(Step, At(s, n, n, i, WG.DoneEnter(false)), GroupSteps(i, DoneLength(n)), [Released(i)]);
    RunOne(Step, end, Released(i));
  }

  /** A bind while there is a connection. */
  lemma DoubleBindRuns(s: State, i: nat)
    requires Quiet(s) && i < |s.binders| && s.binders[i] == NotBound && s.active.Some?
    ensures var end := s.(binders := s.binders[i := Panicked], watchers := s.watchers[i := Watching]);
      Run(Step, s, [Bind(i), Publish(i)]) == Some(end) && Quiet(end)
  {
    RunTwo(Step, s, Bind(i), Publish(i));
    assert s.binders[i := Entered][i := Panicked] == s.binders[i := Panicked];
  }

  function Disconnected(s: State, i: nat): State
    requires i < |s.binders|
  {
    s.(active := None, binders := s.binders[i := Returned], cleared := s.cleared + 1, wg := WG.State(1, 1, s.wg.pcs))
  }

  lemma DisconnectRuns(s: State, i: nat)
    requires Quiet(s) && s.active == Some(i)
    ensures Run(Step, s, [Lose(i), GroupStep(i)] + [Clear(i)]) == Some(Disconnected(s, i)) && Quiet(Disconnected(s, i))
  {
    var s1 := s.(binders := s.binders[i := Blocking], wg := WG.State(1, 0, s.wg.pcs[i := WG.AddMid(1)]));
    var s2 := s.(binders := s.binders[i := Blocking], wg := WG.State(1, 1, s.wg.pcs));
    assert Step(s, Lose(i)) == Some(s1);
    assert s1.wg.pcs[i := WG.Idle] == s.wg.pcs;
    assert Step(s1, GroupStep(i)) == Some(s2);
    RunTwo(Step, s, Lose(i), GroupStep(i));
    RunAppend(Step, s, [Lose(i), GroupStep(i)], [Clear(i)]);
    RunOne(Step, s2, Clear(i));
    assert s2.binders[i := Returned] == s.binders[i := Returned];
  }

  /** The steps of DoneAll with n at the start. */
  function DrainLength(n: int): nat { if n > 0 then 5 else 1 }

  function Drained(s: State, i: nat): State
    requires i < |s.watchers|
  {
    s.(watchers := s.watchers[i := Draining], wg := WG.State(0, 0, s.wg.pcs))
  }

  lemma DrainRuns(s: State, i: nat)
    requires Quiet(s) && i < |s.binders| && s.watchers[i] == Watching
    ensures Run(Step, s, [Cancel(i)] + GroupSteps(|s.binders| + i, DrainLength(s.wg.n))) == Some(Drained(s, i)) && Quiet(Drained(s, i))
  {
    var t, n := |s.binders| + i, s.wg.n;
    var s1 := s.(watchers := s.watchers[i := Draining]);
    RunCons(s, Cancel(i), GroupSteps(t, DrainLength(n)));
    assert Step(s, Cancel(i)) == Some(At(s1, n, n, t, WG.AllCheck));
    AllRuns(s1, t, n);
    assert s.wg.pcs[t := WG.Idle] == s.wg.pcs;
  }

  /** The steps of a DoneAll that nobody else interrupts. */
  lemma AllRuns(s: State, t: nat, n: nat)
    requires |s.watchers| == |s.binders| && t < |s.wg.pcs| == 2 * |s.binders| && n <= 1
    ensures Run(Step, At(s, n, n, t, WG.AllCheck), GroupSteps(t, DrainLength(n))) == Some(At(s, 0, 0, t, WG.Idle))
  {
    var first := At(s, n, n, t, WG.AllCheck);
    GroupRuns(first, t, DrainLength(n));
    if n > 0 {
      assert first.(wg := WG.Advance(first.wg, t)) == At(s, n, n, t, WG.DoneEnter(true));
      DoneRuns(s, t, n, n, true, 1);
      LoopEnds(s, t);
    } else {
      assert first.(wg := WG.Advance(first.wg, t)) == At(s, n, n, t, WG.Idle);
    }
  }

  lemma LoopEnds(s: State, t: nat)
    requires |s.watchers| == |s.binders| && t < |s.wg.pcs| == 2 * |s.binders|
    ensures Run(Step, At(s, 0, 0, t, WG.AllCheck), GroupSteps(t, 1)) == Some(At(s, 0, 0, t, WG.Idle))
  {
    GroupRuns(At(s, 0, 0, t, WG.AllCheck), t, 1);
    assert At(s, 0, 0, t, WG.AllCheck).(wg := WG.Advance(At(s, 0, 0, t, WG.AllCheck).wg, t)) == At(s, 0, 0, t, WG.Idle);
  }

  /** What a caller of getSSH does by itself: it is given the connection, it gives up at the shut
      gate, or it passes the open gate and reads. */
  function AskSteps(s: State, w: nat): seq<Action> {
    if s.active.Some? then [Ask(w)]
    else if s.wg.inner > 0 then [Ask(w), GiveUp(w)]
    else [Ask(w), Pass(w)] + [Read(w)]
  }

  lemma AskRuns(s: State, w: nat)
    requires Quiet(s) && w < |s.waiters| && s.waiters[w] == Asking
    ensures var gate := if s.active == None && s.wg.inner == 0 then Some(s.cleared) else None;
      var end := s.(waiters := s.waiters[w := Answered(s.active, gate, s.cleared)]);
      Run(Step, s, AskSteps(s, w)) == Some(end) && Quiet(end)
  {
    if s.active.Some? {
      RunOne(Step, s, Ask(w));
    } else {
      var s1 := s.(waiters := s.waiters[w := Waiting]);
      assert Step(s, Ask(w)) == Some(s1);
      if s.wg.inner > 0 {
        RunTwo(Step, s, Ask(w), GiveUp(w));
        assert s1.waiters[w := Answered(None, None, s.cleared)] == s.waiters[w := Answered(None, None, s.cleared)];
      } else {
        OpenAskRuns(s, s1, w);
      }
    }
  }

  lemma OpenAskRuns(s: State, s1: State, w: nat)
    requires Quiet(s) && w < |s.waiters| && s.active == None && s.wg.inner == 0
    requires Step(s, Ask(w)) == Some(s1) && s1 == s.(waiters := s.waiters[w := Waiting])
    ensures Run(Step, s, [Ask(w), Pass(w)] + [Read(w)]) == Some(s.(waiters := s.waiters[w := Answered(None, Some(s.cleared), s.cleared)]))
  {
    var s2 := s.(waiters := s.waiters[w := Passed(s.cleared)]);
    assert s1.waiters[w := Passed(s.cleared)] == s2.waiters;
    assert Step(s1, Pass(w)) == Some(s2);
    RunTwo(Step, s, Ask(w), Pass(w));
    RunAppend(Step, s, [Ask(w), Pass(w)], [Read(w)]);
    RunOne(Step, s2, Read(w));
    assert s2.waiters[w := Answered(None, Some(s.cleared), s.cleared)] == s.waiters[w := Answered(None, Some(s.cleared), s.cleared)];
  }

  class Tunnel {
    var activeConn: Option<nat>
    const activatingConn: WG.WaitGroup
    ghost var state: State

    /** The object is where the transition system is, with nobody inside the wait group. */
    ghost predicate Valid()
      reads this, activatingConn
    {
      && Quiet(state) && state.active == activeConn
      && state.wg.n == activatingConn.n && state.wg.inner == activatingConn.inner
    }

    constructor (ghost binds: nat, ghost waits: nat)
      ensures Valid() && state == Init(binds, waits) && fresh(activatingConn)
    {
      activeConn := None;
      activatingConn := new WG.WaitGroup();
      state := Init(binds, waits);
      new;
      activatingConn.Add(1);
    }

    /** BindSSH of connection i up to its wait for the connection to end; a second bind panics. */
    method Connect(i: nat) returns (doubleBind: bool)
      requires Valid() && i < |state.binders| && state.binders[i] == NotBound
      modifies this, activatingConn
      ensures Valid() && doubleBind == old(activeConn).Some?
      ensures Run(Step, old(state), if doubleBind then [Bind(i), Publish(i)] else ConnectSteps(i, old(state).wg.n)) == Some(state)
      ensures activeConn == if doubleBind then old(activeConn) else Some(i)
    {
      doubleBind := activeConn != None;
      if doubleBind {
        DoubleBindRuns(state, i);
        state := Run(Step, state, [Bind(i), Publish(i)]).value;
      } else {
        ConnectRuns(state, i);
        state := Connected(state, i);
        activeConn := Some(i);
        activatingConn.Done();
      }
    }

    /** BindSSH after its connection has ended. */
    method Disconnect()
      requires Valid() && activeConn.Some?
      modifies this, activatingConn
      ensures Valid() && activeConn == None && activatingConn.n == 1
      ensures var i := old(activeConn).value; Run(Step, old(state), [Lose(i), GroupStep(i)] + [Clear(i)]) == Some(state)
    {
      DisconnectRuns(state, activeConn.value);
      state := Disconnected(state, activeConn.value);
      activatingConn.Add(1);
      activeConn := None;
    }

    /** The watcher of a bind context that is cancelled. */
    method Drain(ghost i: nat)
      requires Valid() && i < |state.binders| && state.watchers[i] == Watching
      modifies this, activatingConn
      ensures Valid() && activatingConn.n == 0 && activeConn == old(activeConn)
      ensures Run(Step, old(state), [Cancel(i)] + GroupSteps(|old(state).binders| + i, DrainLength(old(state).wg.n))) == Some(state)
    {
      DrainRuns(state, i);
      state := Drained(state, i);
      activatingConn.DoneAll();
    }

    /** getSSH for a caller that gives up at a shut gate: it is given nothing exactly when there is
        no connection, whether the gate is shut or a drain has opened it. */
    method GetSSH(ghost w: nat) returns (c: Option<nat>, passed: bool)
      requires Valid() && w < |state.waiters| && state.waiters[w] == Asking
      modifies this
      ensures Valid() && c == activeConn == old(activeConn)
      ensures passed <==> activeConn == None && activatingConn.n == 0
      ensures Run(Step, old(state), AskSteps(old(state), w)) == Some(state)
      ensures w < |state.waiters| && state.waiters[w] == Answered(c, if passed then Some(state.cleared) else None, state.cleared)
    {
      AskRuns(state, w);
      state := Run(Step, state, AskSteps(state, w)).value;
      c, passed := activeConn, false;
      if c == None && activatingConn.inner == 0 {
        passed := true;
        c := activeConn;
      }
    }
  }
}
