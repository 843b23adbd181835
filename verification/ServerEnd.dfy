/** How the sessions of a server come to their end, and how one of them can end the whole process
    (server/server_handler.go, share/tunnel/tunnel.go). */
module ServerEnd {
  import opened Common
  import Monitor
  import SL = SessionLifecycle
  import SP = SessionProgress
  import T = ServerTunnel
  import TE = TunnelEnd
  import G = ConnectionGate
  import opened ServerWorld

  // ---- runs of one tunnel inside the server ----

  function Lift(h: nat, schedule: seq<T.Action>): seq<Action> {
    seq(|schedule|, i requires 0 <= i < |schedule| => Tunnel(h, schedule[i]))
  }

  predicate NoReturns(schedule: seq<T.Action>) { forall i :: 0 <= i < |schedule| ==> !schedule[i].RemotesReturn? }

  lemma {:induction false} TunnelLifts(w: World, h: nat, schedule: seq<T.Action>)
    requires w.alive && |w.tunnels| == |w.server.handlers| && h < |w.tunnels| && w.tunnels[h].Some? && w.tunnels[h].value.alive
    requires Run(T.Step, w.tunnels[h].value, schedule).Some? && NoReturns(schedule)
    ensures var t := Run(T.Step, w.tunnels[h].value, schedule).value;
      Run(Step, w, Lift(h, schedule)) == Some(w.(tunnels := w.tunnels[h := Some(t)], alive := t.alive))
    decreases |schedule|
  {
    if schedule == [] {
      assert w.tunnels[h := w.tunnels[h]] == w.tunnels;
    } else {
      assert !schedule[0].RemotesReturn?;
      assert Lift(h, schedule)[1..] == Lift(h, schedule[1..]);
      var w1 := Step(w, Tunnel(h, schedule[0])).value;
      var t1 := w1.tunnels[h].value;
      if t1.alive {
        assert forall i :: 0 <= i < |schedule[1..]| ==> schedule[1..][i] == schedule[i + 1];
        TunnelLifts(w1, h, schedule[1..]);
        assert w1.tunnels[h := Some(Run(T.Step, t1, schedule[1..]).value)] == w.tunnels[h := Some(Run(T.Step, t1, schedule[1..]).value)];
      } else {
        assert schedule[1..] == [];
      }
    }
  }

  // ---- every handler can complete while the process lives ----

  function Plain(h: nat, m: SL.Move): Action { Act(h, m, 1, 0, false) }

  /** Handler h and its tunnel, without the rest of the server. */
  ghost predicate Ready(w: World, h: nat) {
    && w.alive && |w.tunnels| == |w.server.handlers| && h < |w.tunnels|
    && TunnelFits(w.server.handlers[h], w.tunnels[h]) && (w.tunnels[h].Some? ==> w.tunnels[h].value.alive)
  }

  /** A move that needs nothing of its tunnel but that it lives. */
  lemma MoveFollows(w: World, h: nat, m: SL.Move)
    requires Ready(w, h) && SL.Advance(w.server.handlers[h], m).Some? && !m.Finish? && !m.ListenFails?
    ensures var w' := Step(w, Plain(h, m));
      w'.Some? && w'.value.alive && w'.value.server.handlers == w.server.handlers[h := SL.Advance(w.server.handlers[h], m).value]
  {
    if m.Unbind? { assert w.tunnels[h].value.remotes == T.Working; }
  }

  lemma LastMove(w: World, h: nat)
    requires w.alive && |w.tunnels| == |w.server.handlers| && h < |w.tunnels| && w.server.handlers[h].phase == SL.Unbound
    requires w.tunnels[h].Some? && w.tunnels[h].value.gate.binders == [G.Returned]
    ensures var end := Run(Step, w, [Plain(h, SL.Finish)]);
      end.Some? && h < |end.value.server.handlers| && SL.Completed(end.value.server.handlers[h])
  {
    RunOne(Step, w, Plain(h, SL.Finish));
  }

  /** Once its connection has returned, a handler finishes. */
  lemma FinishFollows(w: World, h: nat) returns (rest: seq<Action>)
    requires Ready(w, h) && w.server.handlers[h].phase == SL.Unbound
    ensures var end := Run(Step, w, rest);
      end.Some? && h < |end.value.server.handlers| && SL.Completed(end.value.server.handlers[h])
  {
    var t := w.tunnels[h].value;
    var way := TE.BindCanReturn(t);
    TunnelLifts(w, h, way);
    var w1 := Run(Step, w, Lift(h, way)).value;
    OneReturned(Run(T.Step, t, way).value);
    LastMove(w1, h);
    rest := Lift(h, way) + [Plain(h, SL.Finish)];
    RunAppend(Step, w, Lift(h, way), [Plain(h, SL.Finish)]);
  }

  lemma OneReturned(t: T.State)
    requires T.Inv(t) && t.gate.binders[0] == G.Returned
    ensures t.gate.binders == [G.Returned]
  {}

  /** One move nearer to the end. */
  lemma GoesOn(w: World, h: nat) returns (a: Action, w1: World)
    requires Inv(w) && w.alive && h < |w.tunnels| && !SL.Over(w.server.handlers[h]) && w.server.handlers[h].phase != SL.Unbound
    ensures Step(w, a) == Some(w1) && Inv(w1) && w1.alive && h < |w1.tunnels|
    ensures !w1.server.handlers[h].phase.Crashed? && SP.Work(w1.server.handlers[h]) < SP.Work(w.server.handlers[h])
  {
    MoveReady(w, h);
    var m := ChooseMove(w.server.handlers[h]);
    a := Plain(h, m);
    MoveFollows(w, h, m);
    StepKeepsInv(w, a);
    w1 := Step(w, a).value;
  }

  lemma ChooseMove(hd: SL.Handler) returns (m: SL.Move)
    requires SL.StagesFit(hd) && !SL.Over(hd) && hd.phase != SL.Unbound
    ensures SL.Advance(hd, m).Some? && !m.Finish? && !m.ListenFails?
    ensures !SL.Advance(hd, m).value.phase.Crashed? && SP.Work(SL.Advance(hd, m).value) < SP.Work(hd)
  {
    m := SP.NextMove(hd);
    SP.NextMoveTakesWork(hd, m);
  }

  lemma MoveReady(w: World, h: nat)
    requires Inv(w) && w.alive && h < |w.tunnels|
    ensures Ready(w, h) && SL.StagesFit(w.server.handlers[h])
  {
    assert SL.HandlerFits(w.server.handlers[h], SL.Id(h), w.server.store);
  }

  lemma {:induction false} WayToTheEnd(w: World, h: nat) returns (rest: seq<Action>)
    requires Inv(w) && w.alive && h < |w.tunnels| && !w.server.handlers[h].phase.Crashed?
    ensures var end := Run(Step, w, rest);
      end.Some? && h < |end.value.server.handlers| && SL.Completed(end.value.server.handlers[h])
    decreases SP.Work(w.server.handlers[h])
  {
    if SL.Completed(w.server.handlers[h]) {
      rest := [];
    } else if w.server.handlers[h].phase == SL.Unbound {
      MoveReady(w, h);
      rest := FinishFollows(w, h);
    } else {
      var a, w1 := GoesOn(w, h);
      var more := WayToTheEnd(w1, h);
      rest := [a] + more;
      assert rest[1..] == more;
    }
  }

  lemma DeadStays(w: World, rest: seq<Action>)
    requires !w.alive && Run(Step, w, rest).Some?
    ensures Run(Step, w, rest).value == w
  {}

  lemma CrashedStays(w: World, rest: seq<Action>, h: nat)
    requires Inv(w) && h < |w.server.handlers| && w.server.handlers[h].phase.Crashed? && Run(Step, w, rest).Some?
    ensures var end := Run(Step, w, rest).value; h < |end.server.handlers| && end.server.handlers[h].phase.Crashed?
  {
    RunsProject(w, rest);
    SL.EndIsQuiet(w.server, Moves(rest), h);
  }

  /** In every reachable state some continuation completes a handler if and only if it has completed,
      or the process lives and the handler has not panicked. */
  lemma HandlerCanComplete(schedule: seq<Action>, h: nat)
    requires Run(Step, Start, schedule).Some? && h < |Run(Step, Start, schedule).value.server.handlers|
    ensures var w := Run(Step, Start, schedule).value;
      (exists rest :: Run(Step, w, rest).Some? && h < |Run(Step, w, rest).value.server.handlers|
                      && SL.Completed(Run(Step, w, rest).value.server.handlers[h]))
      <==> SL.Completed(w.server.handlers[h]) || (w.alive && !w.server.handlers[h].phase.Crashed?)
  {
    var w := Run(Step, Start, schedule).value;
    AlwaysInv(schedule);
    if SL.Completed(w.server.handlers[h]) {
      assert Run(Step, w, []) == Some(w);
    } else if !w.alive {
      forall rest | Run(Step, w, rest).Some? ensures Run(Step, w, rest).value == w { DeadStays(w, rest); }
    } else if w.server.handlers[h].phase.Crashed? {
      forall rest | Run(Step, w, rest).Some? && h < |Run(Step, w, rest).value.server.handlers|
        ensures Run(Step, w, rest).value.server.handlers[h].phase.Crashed?
      {
        CrashedStays(w, rest, h);
      }
    } else {
      var rest := WayToTheEnd(w, h);
    }
  }

  // ---- what has ended a process ----

  /** A process that has ended was ended by a session with reversed remotes: BindRemotes had failed
      while the loss of the connection was half reported, or a released waiter went on too late. */
  lemma EndedBySession(schedule: seq<Action>) returns (h: nat)
    requires Run(Step, Start, schedule).Some? && !Run(Step, Start, schedule).value.alive
    ensures var w := Run(Step, Start, schedule).value;
      && h < |w.server.handlers| == |w.tunnels| && w.server.handlers[h].proxies != [] && w.tunnels[h].Some?
      && (T.Underflow(w.tunnels[h].value) || T.Reuse(w.tunnels[h].value))
  {
    AlwaysInv(schedule);
    var w := Run(Step, Start, schedule).value;
    h :| 0 <= h < |w.tunnels| && w.tunnels[h].Some? && !w.tunnels[h].value.alive;
    assert TunnelFits(w.server.handlers[h], w.tunnels[h]);
  }

  // ---- which sessions can end it ----

  /** BindRemotes can fail as long as it has not returned. */
  lemma {:induction false} RemotesCanFail(w: World, h: nat) returns (rest: seq<Action>)
    requires Inv(w) && w.alive && h < |w.tunnels| && w.tunnels[h].Some? && w.tunnels[h].value.remotes == T.Working
    ensures var end := Run(Step, w, rest);
      && end.Some? && Inv(end.value) && end.value.alive && |end.value.tunnels| == |w.tunnels| && end.value.tunnels[h].Some?
      && end.value.tunnels[h].value == w.tunnels[h].value.(remotes := T.Returned(true))
      && |end.value.server.handlers| == |w.server.handlers| && end.value.server.handlers[h].phase == SL.Unbound
    decreases SP.Work(w.server.handlers[h])
  {
    var hd := w.server.handlers[h];
    assert SL.HandlerFits(hd, SL.Id(h), w.server.store);
    assert TunnelFits(hd, w.tunnels[h]);
    var a := FailingMove(hd, h);
    assert Ready(w, h);
    FailingFollows(w, h, a);
    StepKeepsInv(w, a);
    var w1 := Step(w, a).value;
    rest := [a];
    if w1.tunnels[h].value.remotes == T.Working {
      SP.MoveTakesWork(hd, a.move);
      var more := RemotesCanFail(w1, h);
      rest := [a] + more;
      assert rest[1..] == more;
    } else {
      RunOne(Step, w, a);
    }
  }

  /** Towards a failing BindRemotes: a listen that fails, or a Run that has returned an error. */
  lemma FailingMove(hd: SL.Handler, h: nat) returns (a: Action)
    requires SL.StagesFit(hd) && (hd.phase == SL.Building || hd.phase == SL.Running)
    ensures a.Act? && a.h == h && a.now > 0 && SL.Advance(hd, a.move).Some?
    ensures match a.move
            case Create(_) => true
            case End(_) => true
            case ListenFails(_, _) => true
            case Unbind => a.failed
            case _ => false
  {
    var m := SP.NextMove(hd);
    if m.ListenOk? { m := SL.ListenFails(m.i, ""); }
    a := Act(h, m, 1, 0, true);
  }

  lemma FailingFollows(w: World, h: nat, a: Action)
    requires Ready(w, h) && w.tunnels[h].Some? && w.tunnels[h].value.remotes == T.Working
    requires a.Act? && a.h == h && a.now > 0 && SL.Advance(w.server.handlers[h], a.move).Some?
    requires a.move.Create? || a.move.End? || a.move.ListenFails? || (a.move.Unbind? && a.failed)
    ensures var w' := Step(w, a);
      && w'.Some? && w'.value.alive && |w'.value.tunnels| == |w.tunnels| && w'.value.tunnels[h].Some?
      && w'.value.server.handlers == w.server.handlers[h := SL.Advance(w.server.handlers[h], a.move).value]
      && (if a.move.Create? || a.move.End? then w'.value.tunnels == w.tunnels
          else w'.value.tunnels[h].value == w.tunnels[h].value.(remotes := T.Returned(true)) && w'.value.server.handlers[h].phase == SL.Unbound)
  {
    var t := w.tunnels[h];
    if a.move.Create? || a.move.End? {
      assert Follow(t, a) == Some(t) && w.tunnels[h := t] == w.tunnels;
    } else {
      assert Follow(t, a) == Some(Some(t.value.(remotes := T.Returned(true))));
    }
  }

  /** A drain that is under way can end the process. */
  lemma DrainEnds(w: World, h: nat) returns (rest: seq<Action>)
    requires Ready(w, h) && w.tunnels[h].Some? && w.tunnels[h].value.remotes == T.Returned(true) && TE.Exposed(w.tunnels[h].value)
    ensures var end := Run(Step, w, rest);
      && end.Some? && !end.value.alive && end.value.server == w.server
      && |end.value.tunnels| == |w.tunnels| && end.value.tunnels[h].Some? && T.Underflow(end.value.tunnels[h].value)
  {
    var t := w.tunnels[h].value;
    var way := TE.ExposedCanUnderflow(t);
    TE.ReturnedStays(t, way);
    TunnelLifts(w, h, way);
    rest := Lift(h, way);
    TE.UnderflowIsDead(t, way);
  }

  lemma ExposedEnds(w: World, h: nat) returns (rest: seq<Action>)
    requires Inv(w) && w.alive && h < |w.tunnels| && w.tunnels[h].Some? && TE.Exposed(w.tunnels[h].value)
    ensures var end := Run(Step, w, rest);
      && end.Some? && !end.value.alive && h < |end.value.tunnels| && end.value.tunnels[h].Some? && T.Underflow(end.value.tunnels[h].value)
      && |end.value.server.handlers| == |w.server.handlers| && (w.tunnels[h].value.remotes == T.Working ==> end.value.server.handlers[h].phase == SL.Unbound)
  {
    var first, w1 := [], w;
    if w.tunnels[h].value.remotes == T.Working {
      first := RemotesCanFail(w, h);
      w1 := Run(Step, w, first).value;
    }
    assert Ready(w1, h);
    var more := DrainEnds(w1, h);
    rest := first + more;
    RunAppend(Step, w, first, more);
  }

  /** The part of a schedule that one tunnel takes. */
  lemma {:induction false} TunnelRuns(w: World, rest: seq<Action>, h: nat) returns (schedule: seq<T.Action>)
    requires h < |w.tunnels| && w.tunnels[h].Some? && Run(Step, w, rest).Some? && Inv(w)
    ensures var end := Run(Step, w, rest).value;
      h < |end.tunnels| && end.tunnels[h].Some? && Run(T.Step, w.tunnels[h].value, schedule) == end.tunnels[h]
    decreases |rest|
  {
    schedule := [];
    if rest != [] {
      var mine := TunnelStepFrom(w, rest[0], h);
      var more := TunnelRuns(Step(w, rest[0]).value, rest[1..], h);
      schedule := mine + more;
      RunAppend(T.Step, w.tunnels[h].value, mine, more);
    }
  }

  lemma TunnelStepFrom(w: World, a: Action, h: nat) returns (mine: seq<T.Action>)
    requires h < |w.tunnels| && w.tunnels[h].Some? && Step(w, a).Some? && Inv(w)
    ensures Inv(Step(w, a).value) && h < |Step(w, a).value.tunnels| && Step(w, a).value.tunnels[h].Some?
    ensures Run(T.Step, w.tunnels[h].value, mine) == Step(w, a).value.tunnels[h]
  {
    StepKeepsInv(w, a);
    TunnelServes(w, h);
    mine := TunnelStep(w, a, h);
  }

  lemma TunnelServes(w: World, h: nat)
    requires Inv(w) && h < |w.tunnels| && w.tunnels[h].Some?
    ensures |w.tunnels| == |w.server.handlers| && Serving(w.server.handlers[h].phase)
  {
    assert TunnelFits(w.server.handlers[h], w.tunnels[h]);
  }

  lemma TunnelStep(w: World, a: Action, h: nat) returns (mine: seq<T.Action>)
    requires h < |w.tunnels| == |w.server.handlers| && w.tunnels[h].Some? && Step(w, a).Some?
    requires Serving(w.server.handlers[h].phase)
    ensures h < |Step(w, a).value.tunnels| && Step(w, a).value.tunnels[h].Some?
    ensures Run(T.Step, w.tunnels[h].value, mine) == Step(w, a).value.tunnels[h]
  {
    mine := [];
    if a.Tunnel? && a.h == h {
      mine := [a.a];
      RunOne(T.Step, w.tunnels[h].value, a.a);
    } else if a.Act? && a.h == h && (a.move.ListenFails? || a.move.Unbind?) {
      mine := [T.RemotesReturn(a.move.ListenFails? || a.failed)];
      RunOne(T.Step, w.tunnels[h].value, mine[0]);
    }
  }

  /** In every reachable state of a live process, an accepted session can still make the counter of
      its tunnel negative, and so end the process, if and only if BindRemotes has not returned in
      order, the loss of its connection is not yet added, and the drain has not run to its end. */
  lemma SessionCanUnderflow(schedule: seq<Action>, h: nat)
    requires Run(Step, Start, schedule).Some? && Run(Step, Start, schedule).value.alive
    requires var w := Run(Step, Start, schedule).value; h < |w.tunnels| && w.tunnels[h].Some?
    ensures var w := Run(Step, Start, schedule).value;
      (exists rest :: Run(Step, w, rest).Some? && h < |Run(Step, w, rest).value.tunnels| && Run(Step, w, rest).value.tunnels[h].Some?
                      && T.Underflow(Run(Step, w, rest).value.tunnels[h].value))
      <==> TE.Exposed(w.tunnels[h].value)
  {
    AlwaysInv(schedule);
    var w := Run(Step, Start, schedule).value;
    assert TunnelFits(w.server.handlers[h], w.tunnels[h]);
    if TE.Exposed(w.tunnels[h].value) {
      var rest := ExposedEnds(w, h);
    } else {
      forall rest | Run(Step, w, rest).Some? && h < |Run(Step, w, rest).value.tunnels| && Run(Step, w, rest).value.tunnels[h].Some?
        ensures !T.Underflow(Run(Step, w, rest).value.tunnels[h].value)
      {
        var part := TunnelRuns(w, rest, h);
        TE.UnexposedRun(w.tunnels[h].value, part);
      }
    }
  }

  /** It happens for every list of reversed remotes: the first session of a server is accepted,
      BindRemotes fails, and the process ends with the session shown as connected. */
  lemma FirstSessionEndsProcess(remoteAddr: string, reversed: seq<string>) returns (schedule: seq<Action>)
    requires reversed != []
    ensures var end := Run(Step, Start, schedule);
      && end.Some? && !end.value.alive && |end.value.server.handlers| == 1
      && SL.SessionOf(end.value.server.store, SL.Id(0)).Some?
      && SL.SessionOf(end.value.server.store, SL.Id(0)).value.status == Monitor.SessionConnected
  {
    var first := [Enter(remoteAddr)] + ([Plain(0, SL.Begin)] + [Plain(0, SL.Accept(reversed))]);
    FirstIsAccepted(remoteAddr, reversed);
    var w := Run(Step, Start, first).value;
    AlwaysInv(first);
    var rest := ExposedEnds(w, 0);
    schedule := first + rest;
    RunAppend(Step, Start, first, rest);
    AlwaysInv(schedule);
    var end := Run(Step, Start, schedule).value;
    assert SL.HandlerFits(end.server.handlers[0], SL.Id(0), end.server.store);
  }

  lemma FirstIsAccepted(remoteAddr: string, reversed: seq<string>)
    requires reversed != []
    ensures var run := Run(Step, Start, [Enter(remoteAddr)] + ([Plain(0, SL.Begin)] + [Plain(0, SL.Accept(reversed))]));
      && run.Some? && run.value.alive && |run.value.server.handlers| == |run.value.tunnels| == 1
      && run.value.tunnels[0] == Some(T.Init(0))
  {
    var accept := Plain(0, SL.Accept(reversed));
    var w1 := Step(Start, Enter(remoteAddr)).value;
    var w2 := Step(w1, Plain(0, SL.Begin)).value;
    RunAppend(Step, Start, [Enter(remoteAddr)], [Plain(0, SL.Begin)] + [accept]);
    RunOne(Step, Start, Enter(remoteAddr));
    RunAppend(Step, w1, [Plain(0, SL.Begin)], [accept]);
    RunOne(Step, w1, Plain(0, SL.Begin));
    RunOne(Step, w2, accept);
  }
}
