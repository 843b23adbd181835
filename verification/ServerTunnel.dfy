/** The tunnel of one server session (server/server_handler.go, share/tunnel/tunnel.go): its one
    bind runs beside BindRemotes under a common context, and the library's wait group ends the
    process when its counter becomes negative and when it is used again before a waiter that it
    has released went on. */
module ServerTunnel {
  import opened Common
  import WG = WaitGroups
  import G = ConnectionGate

  /** The goroutine of BindRemotes; without reversed remotes it returns at once. */
  datatype Remotes = Working | Returned(failed: bool)

  /** The goroutine that a getSSH call without a connection starts: about to wait, inside the
      library's Wait, released from it, or past it. It outlives a call that gives up. */
  datatype Helper = NotStarted | Outside | Blocked | Woken | Passed

  datatype State = State(gate: G.State, remotes: Remotes, helpers: seq<Helper>, alive: bool)

  datatype Action =
    | Gate(a: G.Action)
    | Block(w: nat)                // Wait finds the counter above zero
    | Resume(w: nat)               // Wait returns, or panics
    | RemotesReturn(failed: bool)  // a listen or the Run of a proxy has failed, or none has

  function Init(waits: nat): State { State(G.Init(1, waits), Working, seq(waits, _ => NotStarted), true) }

  /** The group's context: one of its two goroutines has returned an error. BindSSH returns the
      error that its connection ended with. */
  predicate ContextDone(s: State) {
    s.remotes == Returned(true) || s.gate.binders == [G.Returned]
  }

  function Release(helpers: seq<Helper>): seq<Helper> {
    seq(|helpers|, w requires 0 <= w < |helpers| => if helpers[w] == Blocked then Woken else helpers[w])
  }

  function GateStep(s: State, a: G.Action): Option<State> {
    if a.Pass? || (a.Cancel? && !ContextDone(s)) then None
    else
      match G.Step(s.gate, a)
      case None => None
      case Some(g) =>
        if g.wg.inner < 0 then Some(s.(gate := g, alive := false))
        else if a.Ask? && a.w < |s.helpers| && g.waiters[a.w] == G.Waiting then
          Some(s.(gate := g, helpers := s.helpers[a.w := Outside]))
        else if g.wg.inner == 0 && s.gate.wg.inner > 0 then Some(s.(gate := g, helpers := Release(s.helpers)))
        else Some(s.(gate := g))
  }

  /** The getSSH call, if it has not given up, is let through. */
  function LetThrough(g: G.State, w: nat): G.State {
    match G.Step(g, G.Pass(w)) case None => g case Some(g') => g'
  }

  function Step(s: State, a: Action): Option<State> {
    if !s.alive then None
    else
      match a
      case Gate(b) => GateStep(s, b)
      case Block(w) =>
        if w < |s.helpers| && s.helpers[w] == Outside && s.gate.wg.inner > 0 then Some(s.(helpers := s.helpers[w := Blocked]))
        else None
      case Resume(w) =>
        if !(w < |s.helpers| && (s.helpers[w] == Outside || s.helpers[w] == Woken)) then None
        else if s.gate.wg.inner == 0 then Some(s.(helpers := s.helpers[w := Passed], gate := LetThrough(s.gate, w)))
        else if s.helpers[w] == Woken then Some(s.(alive := false))
        else None
      case RemotesReturn(failed) => if s.remotes == Working then Some(s.(remotes := Returned(failed))) else None
  }

  // ---- the invariant ----

  predicate OneBind(g: G.State) { |g.binders| == |g.watchers| == 1 && |g.wg.pcs| == 2 }

  /** Why the process has ended: the counter is negative because the loss of the connection is half
      reported while a drain has taken what it added, which BindRemotes has caused; or a released
      waiter has found the counter in use. */
  ghost predicate Underflow(s: State) {
    && OneBind(s.gate) && s.gate.wg.inner < 0
    && s.gate.binders[0] == G.Blocking && s.gate.wg.pcs[0] == WG.AddMid(1) && s.remotes == Returned(true)
  }

  ghost predicate Reuse(s: State) {
    s.gate.wg.inner > 0 && exists w :: 0 <= w < |s.helpers| && s.helpers[w] == Woken
  }

  ghost predicate Inv(s: State) {
    && G.Safe(s.gate) && OneBind(s.gate) && s.gate.binders[0] != G.Panicked
    && (s.gate.watchers[0] == G.Draining ==> ContextDone(s))
    && (s.gate.watchers[0] == G.Unborn ==> s.gate.binders[0] == G.NotBound)
    && (s.alive ==> s.gate.wg.inner >= 0)
    && (!s.alive ==> Underflow(s) || Reuse(s))
  }

  lemma GateKeepsShape(s: State, a: G.Action)
    requires OneBind(s.gate) && G.Step(s.gate, a).Some?
    ensures OneBind(G.Step(s.gate, a).value)
  {}

  /** There is no second bind to panic. */
  lemma NoDoubleBind(g: G.State, a: G.Action)
    requires G.Inv(g) && OneBind(g) && G.Step(g, a).Some? && g.binders[0] != G.Panicked
    ensures OneBind(G.Step(g, a).value) && G.Step(g, a).value.binders[0] != G.Panicked
  {}

  /** The counter of the gate is negative only as Underflow says, apart from its cause. */
  lemma NegativeMeans(g: G.State)
    requires G.Safe(g) && OneBind(g) && g.wg.inner < 0
    ensures g.wg.n == 0 && g.binders[0] == G.Blocking && g.wg.pcs[0] == WG.AddMid(1) && g.watchers[0] == G.Draining
  {
    G.AddedByOwner(g);
    SumZero(g.wg.pcs, WG.Taken);
    if g.active.Some? { assert G.BinderPc(g.binders[0], g.wg.pcs[0]); }
    if g.watchers[0] != G.Draining {
      assert G.Uncancelled(g);
    }
  }

  lemma GateKeepsInv(s: State, a: G.Action)
    requires Inv(s) && s.alive && GateStep(s, a).Some?
    ensures Inv(GateStep(s, a).value)
  {
    var g := G.Step(s.gate, a).value;
    G.KeepsSafe(s.gate, a);
    GateKeepsShape(s, a);
    GateKeepsWatcher(s, a);
    NoDoubleBind(s.gate, a);
    if g.wg.inner < 0 { NegativeMeans(g); }
  }

  lemma GateKeepsWatcher(s: State, a: G.Action)
    requires OneBind(s.gate) && GateStep(s, a).Some?
    requires s.gate.watchers[0] == G.Draining ==> ContextDone(s)
    requires s.gate.watchers[0] == G.Unborn ==> s.gate.binders[0] == G.NotBound
    ensures var s' := GateStep(s, a).value;
      && OneBind(s'.gate) && s'.gate == G.Step(s.gate, a).value && s'.remotes == s.remotes
      && (s'.gate.watchers[0] == G.Draining ==> ContextDone(s'))
      && (s'.gate.watchers[0] == G.Unborn ==> s'.gate.binders[0] == G.NotBound)
  {}

  lemma StepKeepsInv(s: State, a: Action)
    requires Inv(s) && Step(s, a).Some?
    ensures Inv(Step(s, a).value)
  {
    match a
    case Gate(b) => GateKeepsInv(s, b);
    case Block(w) =>
    case Resume(w) =>
      if s.gate.wg.inner == 0 && G.Step(s.gate, G.Pass(w)).Some? {
        G.KeepsSafe(s.gate, G.Pass(w));
        GateKeepsShape(s, G.Pass(w));
      }
    case RemotesReturn(_) =>
  }

  lemma InitInv(waits: nat)
    ensures Inv(Init(waits))
  {
    G.InitSafe(1, waits);
  }

  lemma AlwaysInv(waits: nat, schedule: seq<Action>)
    requires Run(Step, Init(waits), schedule).Some?
    ensures Inv(Run(Step, Init(waits), schedule).value)
  {
    InitInv(waits);
    forall x, a | Inv(x) && Step(x, a).Some? ensures Inv(Step(x, a).value) { StepKeepsInv(x, a); }
    RunKeeps(Step, (x: State) => Inv(x), Init(waits), schedule);
  }
}
