/** Which steps leave the gate of a tunnel (share/tunnel/tunnel.go) open without a connection. */
module GateHistory {
  import opened Common
  import opened ConnectionGate

  /** A cancelled bind context takes from n. */
  predicate DrainTakes(s: State, a: Action) {
    a.GroupStep? && a.t >= |s.binders| && Step(s, a).Some? && Step(s, a).value.wg.n < s.wg.n
  }

  function Remember(s: State, a: Action, drained: bool): bool {
    if a.Lose? then false else drained || DrainTakes(s, a)
  }

  /** Whether a drain has taken from n since the last connection was lost, or since the start. */
  function DrainedSince(s: State, schedule: seq<Action>, drained: bool): bool
    decreases |schedule|
  {
    if schedule == [] then drained
    else
      match Step(s, schedule[0])
      case None => drained
      case Some(s1) => DrainedSince(s1, schedule[1..], Remember(s, schedule[0], drained))
  }

  /** No connection, or one that is lost and about to be cleared. */
  predicate Lost(s: State) {
    s.active == None || (s.active.value < |s.binders| && s.binders[s.active.value] == Blocking)
  }

  predicate Explained(s: State, drained: bool) {
    Lost(s) ==> (s.wg.n == 0 <==> drained)
  }

  /** A step inside the wait group takes from n while there is no connection only for a drain. */
  lemma GroupKeepsExplained(s: State, t: nat, drained: bool)
    requires Inv(s) && Explained(s, drained) && Step(s, GroupStep(t)).Some?
    ensures Step(s, GroupStep(t)).value.wg.n >= 0
    ensures Explained(Step(s, GroupStep(t)).value, Remember(s, GroupStep(t), drained))
  {
    WhoSteps(s, t);
    if t < |s.binders| { assert BinderPc(s.binders[t], s.wg.pcs[t]); }
  }

  lemma LoseKeepsExplained(s: State, i: nat)
    requires Inv(s) && Step(s, Lose(i)).Some?
    ensures Explained(Step(s, Lose(i)).value, false)
  {}

  lemma OtherKeepsExplained(s: State, a: Action, drained: bool)
    requires Explained(s, drained) && Step(s, a).Some? && !a.GroupStep? && !a.Lose? && !a.Publish?
    requires Inv(s)
    ensures Explained(Step(s, a).value, drained)
  {}

  lemma PublishKeepsExplained(s: State, i: nat, drained: bool)
    requires Explained(s, drained) && Step(s, Publish(i)).Some? && Inv(s)
    ensures Explained(Step(s, Publish(i)).value, drained)
  {}

  lemma KeepsExplained(s: State, a: Action, drained: bool)
    requires Inv(s) && Explained(s, drained) && Step(s, a).Some?
    ensures Explained(Step(s, a).value, Remember(s, a, drained))
  {
    match a
    case GroupStep(t) => GroupKeepsExplained(s, t, drained);
    case Lose(i) => LoseKeepsExplained(s, i);
    case Publish(i) => PublishKeepsExplained(s, i, drained);
    case _ => OtherKeepsExplained(s, a, drained);
  }

  lemma {:induction false} RunExplained(s: State, schedule: seq<Action>, drained: bool)
    requires Safe(s) && Explained(s, drained) && Run(Step, s, schedule).Some?
    ensures Safe(Run(Step, s, schedule).value)
    ensures Explained(Run(Step, s, schedule).value, DrainedSince(s, schedule, drained))
    decreases |schedule|
  {
    if schedule != [] {
      KeepsSafe(s, schedule[0]);
      KeepsExplained(s, schedule[0], drained);
      RunExplained(Step(s, schedule[0]).value, schedule[1..], Remember(s, schedule[0], drained));
    }
  }

  /** In every run, while there is no connection: n is zero if and only if the drain of a cancelled
      context has taken from it since the last connection was lost, or since the start; and the
      gate lets waiters through to nothing if and only if in addition no such drain is half done. */
  lemma GateIsFree(binds: nat, waits: nat, schedule: seq<Action>)
    requires Run(Step, Init(binds, waits), schedule).Some? && Run(Step, Init(binds, waits), schedule).value.active == None
    ensures var s := Run(Step, Init(binds, waits), schedule).value;
      var drained := DrainedSince(Init(binds, waits), schedule, false);
      && (s.wg.n == 0 <==> drained)
      && (s.wg.inner == 0 <==> drained && forall t :: 0 <= t < |s.wg.pcs| ==> !s.wg.pcs[t].DoneSwapped?)
  {
    InitSafe(binds, waits);
    RunExplained(Init(binds, waits), schedule, false);
    GateWithoutConnection(Run(Step, Init(binds, waits), schedule).value);
  }
}
