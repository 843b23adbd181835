/** How server handlers move on while the process lives: which can still move, how many moves they
    have left, and what a handler that panics leaves behind. ServerEnd adds the process. */
module SessionProgress {
  import opened Common
  import opened Monitor
  import opened SessionLifecycle

  // ---- every handler that is not over has a move ----

  lemma NextMove(hd: Handler) returns (m: Move)
    requires StagesFit(hd) && !Over(hd)
    ensures Advance(hd, m).Some? && !m.Crash? && !m.ListenFails? && (m.Finish? ==> hd.phase.Unbound?)
    ensures m.Accept? ==> m.reversed == []
  {
    if hd.phase.Building? {
      m := NextBuild(hd, 0);
    } else if hd.phase.Running? {
      if i: nat :| i < |hd.proxies| && hd.proxies[i].stage.Built? { m := End(i); } else { m := Unbind; }
    } else {
      m := if hd.phase.Starting? then Begin else if hd.phase.Pending? then Accept([]) else Finish;
    }
  }

  /** BindRemotes goes on at the first remote whose proxy is not built. */
  lemma {:induction false} NextBuild(hd: Handler, i: nat) returns (m: Move)
    requires hd.phase.Building? && StagesFit(hd) && i < |hd.proxies|
    requires forall j :: 0 <= j < i ==> hd.proxies[j].stage.Built?
    ensures m.ListenOk? || m.Create?
    ensures Advance(hd, m).Some?
    decreases |hd.proxies| - i
  {
    if hd.proxies[i].stage.Built? {
      m := NextBuild(hd, i + 1);
    } else if hd.proxies[i].stage.Listening? {
      m := ListenOk(i);
    } else {
      m := Create(i);
    }
  }

  // ---- and the moves it has left are bounded ----

  function StageWork(p: ProxyAt): nat {
    match p.stage
    case Absent => 3
    case Listening => 2
    case Built => 1
    case _ => 0
  }

  function PhaseWork(phase: Phase): nat {
    match phase
    case Starting => 4
    case Pending => 3
    case Building => 2
    case Running => 2
    case Unbound => 1
    case _ => 0
  }

  /** An upper bound of the moves a handler has left once its remotes are known. */
  function Work(h: Handler): nat { PhaseWork(h.phase) + Sum(h.proxies, StageWork) }

  lemma MoveTakesWork(h: Handler, m: Move)
    requires Advance(h, m).Some? && !m.Accept?
    ensures Work(Advance(h, m).value) < Work(h)
  {
    match m {
      case Create(i) => SumUpdate(h.proxies, i, h.proxies[i].(stage := Listening), StageWork);
      case ListenFails(i, message) => SumUpdate(h.proxies, i, h.proxies[i].(stage := Refused(message)), StageWork);
      case ListenOk(i) => SumUpdate(h.proxies, i, h.proxies[i].(stage := Built), StageWork);
      case End(i) => SumUpdate(h.proxies, i, h.proxies[i].(stage := Ended), StageWork);
      case _ =>
    }
  }

  lemma NextMoveTakesWork(hd: Handler, m: Move)
    requires StagesFit(hd) && Advance(hd, m).Some? && (m.Accept? ==> m.reversed == [])
    ensures Work(Advance(hd, m).value) < Work(hd)
  {
    if m.Accept? {
      assert Advance(hd, m).value.proxies == [] && Work(hd) == 3 && Work(Advance(hd, m).value) == 1;
    } else {
      MoveTakesWork(hd, m);
    }
  }

  function Turns(h: nat): Action -> nat { (a: Action) => if a.Act? && a.h == h then 1 else 0 }

  /** A handler whose remotes are known, or that is over, makes at most Work more moves. */
  lemma {:induction false} MovesAreBounded(x: System, rest: seq<Action>, h: nat)
    requires h < |x.handlers| && !x.handlers[h].phase.Starting? && !x.handlers[h].phase.Pending?
    requires Run(Step, x, rest).Some?
    ensures var y := Run(Step, x, rest).value;
      h < |y.handlers| && Sum(rest, Turns(h)) + Work(y.handlers[h]) <= Work(x.handlers[h])
    decreases |rest|
  {
    if rest != [] {
      var x1 := Step(x, rest[0]).value;
      if rest[0].Act? && rest[0].h == h { MoveTakesWork(x.handlers[h], rest[0].move); }
      MovesAreBounded(x1, rest[1..], h);
      SumFirst(rest, Turns(h));
    }
  }

  lemma {:induction false} SumFirst<T>(xs: seq<T>, w: T -> nat)
    requires xs != []
    ensures Sum(xs, w) == w(xs[0]) + Sum(xs[1..], w)
  {
    if |xs| > 1 {
      var ys := xs[..|xs| - 1];
      SumFirst(ys, w);
      assert ys[1..] == xs[1..][..|xs| - 2];
    }
  }

  // ---- runs of one handler ----

  function MoveAll(h: Handler, ms: seq<Move>): Option<Handler>
    decreases |ms|
  {
    if ms == [] then Some(h)
    else
      match Advance(h, ms[0])
      case None => None
      case Some(h') => MoveAll(h', ms[1..])
  }

  function Acts(h: nat, ms: seq<Move>): seq<Action> { seq(|ms|, i requires 0 <= i < |ms| => Act(h, ms[i], 1)) }

  /** Moves that one handler can make are a run of the server. */
  lemma {:induction false} MovesAreARun(x: System, h: nat, ms: seq<Move>)
    requires h < |x.handlers| && MoveAll(x.handlers[h], ms).Some?
    ensures var r := Run(Step, x, Acts(h, ms));
      r.Some? && r.value.handlers == x.handlers[h := MoveAll(x.handlers[h], ms).value]
    decreases |ms|
  {
    if ms != [] {
      var x1 := Step(x, Act(h, ms[0], 1)).value;
      assert Acts(h, ms)[1..] == Acts(h, ms[1..]);
      MovesAreARun(x1, h, ms[1..]);
    }
  }

  /** In every reachable state a handler has a next move if and only if it is not over. */
  lemma HandlerCanMove(schedule: seq<Action>, h: nat)
    requires Run(Step, Start, schedule).Some? && h < |Run(Step, Start, schedule).value.handlers|
    ensures var hd := Run(Step, Start, schedule).value.handlers[h];
      (exists m :: Advance(hd, m).Some?) <==> !Over(hd)
  {
    var hd := Run(Step, Start, schedule).value.handlers[h];
    AlwaysFits(schedule);
    if !Over(hd) { var m := NextMove(hd); }
  }

  // ---- a handler that panics ----

  /** Its session stays pending in every later snapshot, without an endpoint. */
  lemma CrashedStaysPending(schedule: seq<Action>, rest: seq<Action>, h: nat)
    requires Run(Step, Start, schedule).Some?
    requires var x := Run(Step, Start, schedule).value;
      h < |x.handlers| && x.handlers[h].phase.Crashed? && Run(Step, x, rest).Some?
    ensures var y := Run(Step, Run(Step, Start, schedule).value, rest).value;
      SessionOf(y.store, Id(h)).Some? && SessionOf(y.store, Id(h)).value.status == SessionPending && EndpointsOf(y.store, Id(h)) == map[]
  {
    var x := Run(Step, Start, schedule).value;
    AlwaysFits(schedule);
    EndIsQuiet(x, rest, h);
    var y := Run(Step, x, rest).value;
    assert HandlerFits(y.handlers[h], Id(h), y.store);
  }

  /** It happens: the first client of a server can leave its session pending. */
  lemma CrashIsReachable(remoteAddr: string)
    ensures var run := Run(Step, Start, [Enter(remoteAddr)] + Acts(0, [Begin, Crash]));
      run.Some? && run.value.handlers == [Handler(Crashed, remoteAddr, [])]
  {
    var first := Step(Start, Enter(remoteAddr)).value;
    RunOne(Step, Start, Enter(remoteAddr));
    RunAppend(Step, Start, [Enter(remoteAddr)], Acts(0, [Begin, Crash]));
    var h := Handler(Starting, remoteAddr, []);
    assert first.handlers == [h];
    assert [Begin, Crash][1..] == [Crash] && [Crash][1..] == [];
    assert MoveAll(h.(phase := Pending), [Crash]) == MoveAll(h.(phase := Crashed), []);
    MovesAreARun(first, 0, [Begin, Crash]);
  }
}
