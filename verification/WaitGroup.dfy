/** The guarded wait group (share/tunnel/wg.go): an atomic counter n that mirrors the counter
    of an inner wait group. Add takes two atomic steps, Done three, DoneAll loops over Done. */
module WaitGroups {
  import opened Common

  /** Where a goroutine stands inside a call; `all` marks a Done made by DoneAll. */
  datatype Pc =
    | Idle
    | AddMid(delta: nat)
    | DoneEnter(all: bool)
    | DoneLoaded(seen: int, all: bool)
    | DoneSwapped(all: bool)
    | AllCheck

  datatype State = State(n: int, inner: int, pcs: seq<Pc>)

  datatype Call = CallAdd(delta: nat) | CallDone | CallDoneAll

  /** Goroutine t starts a call; for Add this includes its first atomic step. */
  function Begin(s: State, t: nat, c: Call): State
    requires t < |s.pcs|
  {
    match c
    case CallAdd(k) => s.(n := s.n + k, pcs := s.pcs[t := AddMid(k)])
    case CallDone => s.(pcs := s.pcs[t := DoneEnter(false)])
    case CallDoneAll => s.(pcs := s.pcs[t := AllCheck])
  }

  function Back(all: bool): Pc { if all then AllCheck else Idle }

  /** The next atomic step of goroutine t. */
  function Advance(s: State, t: nat): State
    requires t < |s.pcs|
  {
    match s.pcs[t]
    case Idle => s
    case AddMid(k) => s.(inner := s.inner + k, pcs := s.pcs[t := Idle])
    case DoneEnter(all) => s.(pcs := s.pcs[t := DoneLoaded(s.n, all)])
    case DoneLoaded(v, all) =>
      if v > 0 && s.n == v then s.(n := v - 1, pcs := s.pcs[t := DoneSwapped(all)])
      else s.(pcs := s.pcs[t := Back(all)])
    case DoneSwapped(all) => s.(inner := s.inner - 1, pcs := s.pcs[t := Back(all)])
    case AllCheck => s.(pcs := s.pcs[t := if s.n > 0 then DoneEnter(true) else Idle])
  }

  datatype Action = Start(t: nat, call: Call) | Proceed(t: nat)

  function Step(s: State, a: Action): Option<State> {
    if a.t >= |s.pcs| then None
    else
      match a
      case Start(t, c) => if s.pcs[t] == Idle then Some(Begin(s, t, c)) else None
      case Proceed(t) => if s.pcs[t] != Idle then Some(Advance(s, t)) else None
  }

  function Init(goroutines: nat): State { State(0, 0, seq(goroutines, _ => Idle)) }

  // ---- the conservation law of the two counters ----

  /** What an Add that is half done has added to n only. */
  function Added(pc: Pc): nat { if pc.AddMid? then pc.delta else 0 }

  /** One for a Done that has taken from n only. */
  function Taken(pc: Pc): nat { if pc.DoneSwapped? then 1 else 0 }

  ghost predicate Balanced(s: State) {
    s.n >= 0 && s.inner == s.n - Sum(s.pcs, Added) + Sum(s.pcs, Taken)
  }

  lemma MovePc(s: State, t: nat, pc: Pc)
    requires t < |s.pcs|
    ensures Sum(s.pcs[t := pc], Added) == Sum(s.pcs, Added) - Added(s.pcs[t]) + Added(pc)
    ensures Sum(s.pcs[t := pc], Taken) == Sum(s.pcs, Taken) - Taken(s.pcs[t]) + Taken(pc)
  {
    SumUpdate(s.pcs, t, pc, Added);
    SumUpdate(s.pcs, t, pc, Taken);
  }

  lemma BeginBalanced(s: State, t: nat, c: Call)
    requires t < |s.pcs| && s.pcs[t] == Idle && Balanced(s)
    ensures Balanced(Begin(s, t, c))
  {
    MovePc(s, t, Begin(s, t, c).pcs[t]);
  }

  lemma AdvanceBalanced(s: State, t: nat)
    requires t < |s.pcs| && Balanced(s)
    ensures Balanced(Advance(s, t))
  {
    MovePc(s, t, Advance(s, t).pcs[t]);
  }

  /** In every interleaving of any number of goroutines n is not negative and the inner counter
      differs from it by the Adds and Dones that are half done. */
  lemma AlwaysBalanced(goroutines: nat, schedule: seq<Action>)
    requires Run(Step, Init(goroutines), schedule).Some?
    ensures Balanced(Run(Step, Init(goroutines), schedule).value)
  {
    var s := Init(goroutines);
    SumZero(s.pcs, Added);
    SumZero(s.pcs, Taken);
    forall x, a | Balanced(x) && Step(x, a).Some? ensures Balanced(Step(x, a).value) {
      match a
      case Start(t, c) => BeginBalanced(x, t, c);
      case Proceed(t) => AdvanceBalanced(x, t);
    }
    RunKeeps(Step, (x: State) => Balanced(x), s, schedule);
  }

  /** With no Add half done the inner counter is not negative, whatever Dones are under way. */
  lemma InnerNotNegative(s: State)
    requires Balanced(s) && forall i :: 0 <= i < |s.pcs| ==> !s.pcs[i].AddMid?
    ensures s.inner >= s.n >= 0
  {
    SumZero(s.pcs, Added);
  }

  /** Exactly when a Done makes the inner counter negative, which panics: the Adds half done
      have added more to n than n and the other Dones half done still hold. */
  lemma InnerUnderflow(s: State, t: nat)
    requires t < |s.pcs| && Balanced(s) && s.pcs[t].DoneSwapped?
    ensures Advance(s, t).inner < 0 <==> Sum(s.pcs, Added) >= s.n + Sum(s.pcs, Taken)
  {}

  /** It can happen: a Done takes what an Add has put into n but not yet into the inner counter. */
  lemma UnderflowIsReachable()
    ensures var schedule := [Start(0, CallAdd(1)), Start(1, CallDone), Proceed(1), Proceed(1), Proceed(1)];
            Run(Step, Init(2), schedule) == Some(State(0, -1, [AddMid(1), Idle]))
  {
    var a := [Start(0, CallAdd(1)), Start(1, CallDone), Proceed(1), Proceed(1), Proceed(1)];
    var s1 := Begin(Init(2), 0, CallAdd(1));
    var s2 := Begin(s1, 1, CallDone);
    var s3 := Advance(s2, 1);
    var s4 := Advance(s3, 1);
    assert s4 == State(0, 0, [AddMid(1), DoneSwapped(false)]);
    assert Advance(s4, 1) == State(0, -1, [AddMid(1), Idle]);
    assert a[1..][1..] == a[2..] && a[2..][1..] == a[3..] && a[3..][1..] == a[4..];
    assert Run(Step, s4, a[4..]) == Step(s4, a[4]);
    assert Run(Step, s3, a[3..]) == Run(Step, s4, a[4..]);
    assert Run(Step, s2, a[2..]) == Run(Step, s3, a[3..]);
    assert Run(Step, s1, a[1..]) == Run(Step, s2, a[2..]);
  }

  // ---- one goroutine running alone ----

  function Rank(s: State, t: nat): nat
    requires t < |s.pcs|
  {
    match s.pcs[t]
    case Idle => 0
    case AddMid(_) => 1
    case DoneEnter(_) => if s.n > 0 then 2 else 5
    case DoneLoaded(v, _) => if v == s.n > 0 then 1 else 4
    case DoneSwapped(_) => 4
    case AllCheck => 3
  }

  /** The state when goroutine t has finished its call without being interrupted. */
  function Alone(s: State, t: nat): State
    requires t < |s.pcs| && s.n >= 0
    decreases s.n, Rank(s, t)
  {
    if s.pcs[t] == Idle then s else Alone(Advance(s, t), t)
  }

  function DoneEffect(n: int, inner: int): (int, int) {
    if n > 0 then (n - 1, inner - 1) else (n, inner)
  }

  function DoneAllEffect(n: int, inner: int): (int, int) {
    if n > 0 then (0, inner - n) else (n, inner)
  }

  lemma AloneAdd(s: State, t: nat, k: nat)
    requires t < |s.pcs| && s.n >= 0 && s.pcs[t] == Idle
    ensures Alone(Begin(s, t, CallAdd(k)), t) == State(s.n + k, s.inner + k, s.pcs)
  {
    assert Begin(s, t, CallAdd(k)).pcs[t := Idle] == s.pcs;
  }

  lemma AloneDone(s: State, t: nat)
    requires t < |s.pcs| && s.n >= 0 && s.pcs[t] == Idle
    ensures var (n, inner) := DoneEffect(s.n, s.inner);
            Alone(Begin(s, t, CallDone), t) == State(n, inner, s.pcs)
  {
    var s1 := Begin(s, t, CallDone);
    var s2 := Advance(s1, t);
    var s3 := Advance(s2, t);
    assert s.pcs[t := Idle] == s.pcs;
    assert Alone(s1, t) == Alone(s2, t) == Alone(s3, t);
    if s.n > 0 {
      assert Alone(s3, t) == Alone(Advance(s3, t), t);
      assert Advance(s3, t).pcs == s.pcs;
    } else {
      assert s3.pcs == s.pcs;
    }
  }

  /** A DoneAll that runs alone from its loop head ends, with n zero. */
  lemma {:induction false} AloneFromLoopHead(s: State, t: nat)
    requires t < |s.pcs| && s.n >= 0 && s.pcs[t] == AllCheck
    ensures Alone(s, t) == State(0, s.inner - s.n, s.pcs[t := Idle])
    decreases s.n
  {
    if s.n > 0 {
      var s1 := Advance(s, t);
      var s2 := Advance(s1, t);
      var s3 := Advance(s2, t);
      var s4 := Advance(s3, t);
      assert Alone(s, t) == Alone(s1, t) == Alone(s2, t) == Alone(s3, t) == Alone(s4, t);
      assert s4 == State(s.n - 1, s.inner - 1, s.pcs);
      AloneFromLoopHead(s4, t);
    }
  }

  lemma AloneDoneAll(s: State, t: nat)
    requires t < |s.pcs| && s.n >= 0 && s.pcs[t] == Idle
    ensures var (n, inner) := DoneAllEffect(s.n, s.inner);
            Alone(Begin(s, t, CallDoneAll), t) == State(n, inner, s.pcs)
  {
    AloneFromLoopHead(Begin(s, t, CallDoneAll), t);
    assert Begin(s, t, CallDoneAll).pcs[t := Idle] == s.pcs;
  }

  /** After any schedule that leaves nothing half done, a lone DoneAll empties both counters. */
  lemma DoneAllEmpties(s: State, t: nat)
    requires t < |s.pcs| && Balanced(s) && s.pcs[t] == Idle
    requires forall i :: 0 <= i < |s.pcs| ==> !s.pcs[i].AddMid? && !s.pcs[i].DoneSwapped?
    ensures var r := Alone(Begin(s, t, CallDoneAll), t); r.n == 0 && r.inner == 0
  {
    AloneDoneAll(s, t);
    SumZero(s.pcs, Added);
    SumZero(s.pcs, Taken);
  }

  /** The wait group as an object, called by one goroutine at a time. */
  class WaitGroup {
    var n: int
    var inner: int

    constructor ()
      ensures n == 0 && inner == 0
    {
      n, inner := 0, 0;
    }

    method Add(delta: int)
      modifies this
      ensures n == old(n) + delta && inner == old(inner) + delta
    {
      n := n + delta;
      inner := inner + delta;
    }

    method Done()
      modifies this
      ensures (n, inner) == old(DoneEffect(n, inner))
    {
      var seen := n;
      if seen > 0 && n == seen {
        n := seen - 1;
        inner := inner - 1;
      }
    }

    method DoneAll()
      modifies this
      ensures (n, inner) == old(DoneAllEffect(n, inner))
    {
      while n > 0
        invariant DoneAllEffect(n, inner) == old(DoneAllEffect(n, inner))
        decreases n
      {
        Done();
      }
    }
  }
}
