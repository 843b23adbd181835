/** The whole server: handlers (SessionLifecycle), the tunnel of each that was accepted
    (ServerTunnel), and the process they share (server/server_handler.go). */
module ServerWorld {
  import opened Common
  import SL = SessionLifecycle
  import T = ServerTunnel
  import G = ConnectionGate
  import opened TunnelRaces

  datatype World = World(server: SL.System, tunnels: seq<Option<T.State>>, alive: bool)

  /** `waits` is the number of getSSH calls that will come on an accepted tunnel, `failed` whether
      the Run of a proxy has returned an error when all have returned. */
  datatype Action =
    | Enter(remoteAddr: string)
    | Act(h: nat, move: SL.Move, now: nat, waits: nat, failed: bool)
    | Tunnel(h: nat, a: T.Action)

  const Start := World(SL.Start, [], true)

  /** What a move of the handler does to its tunnel; Finish waits for both goroutines. */
  function Follow(t: Option<T.State>, a: Action): Option<Option<T.State>>
    requires a.Act?
  {
    match a.move
    case Accept(ds) => Some(Some(Accepted(ds, a.waits)))
    case ListenFails(_, _) => Return(t, true)
    case Unbind => Return(t, a.failed)
    case Finish => if t.Some? && t.value.gate.binders == [G.Returned] then Some(t) else None
    case _ => Some(t)
  }

  function Return(t: Option<T.State>, failed: bool): Option<Option<T.State>> {
    if t.Some? && T.Step(t.value, T.RemotesReturn(failed)).Some? then Some(T.Step(t.value, T.RemotesReturn(failed))) else None
  }

  function Step(w: World, a: Action): Option<World> {
    if !w.alive || |w.tunnels| != |w.server.handlers| then None
    else
      match a
      case Enter(addr) => Some(World(SL.Step(w.server, SL.Enter(addr)).value, w.tunnels + [None], true))
      case Act(h, m, now, _, _) =>
        var x := SL.Step(w.server, SL.Act(h, m, now));
        if x.Some? && Follow(w.tunnels[h], a).Some? then Some(World(x.value, w.tunnels[h := Follow(w.tunnels[h], a).value], true))
        else None
      case Tunnel(h, b) =>
        if h < |w.tunnels| && w.tunnels[h].Some? && !b.RemotesReturn? && T.Step(w.tunnels[h].value, b).Some? then
          var t := T.Step(w.tunnels[h].value, b).value;
          Some(w.(tunnels := w.tunnels[h := Some(t)], alive := t.alive))
        else None
  }

  // ---- the server in it behaves as before ----

  /** The moves of the handlers in a schedule. */
  function Moves(schedule: seq<Action>): seq<SL.Action> {
    if schedule == [] then []
    else
      (match schedule[0]
       case Enter(addr) => [SL.Enter(addr)]
       case Act(h, m, now, _, _) => [SL.Act(h, m, now)]
       case Tunnel(_, _) => []) + Moves(schedule[1..])
  }

  lemma {:induction false} RunsProject(w: World, schedule: seq<Action>)
    requires Run(Step, w, schedule).Some?
    ensures Run(SL.Step, w.server, Moves(schedule)) == Some(Run(Step, w, schedule).value.server)
    decreases |schedule|
  {
    if schedule != [] {
      var w1 := Step(w, schedule[0]).value;
      RunsProject(w1, schedule[1..]);
      var rest := Moves(schedule[1..]);
      match schedule[0]
      case Enter(addr) => assert ([SL.Enter(addr)] + rest)[1..] == rest;
      case Act(h, m, now, _, _) => assert ([SL.Act(h, m, now)] + rest)[1..] == rest;
      case Tunnel(_, _) => assert [] + rest == rest;
    }
  }

  // ---- the invariant ----

  predicate Serving(phase: SL.Phase) {
    phase == SL.Building || phase == SL.Running || phase == SL.Unbound || phase == SL.Disconnected
  }

  ghost predicate TunnelFits(hd: SL.Handler, t: Option<T.State>) {
    && (t.Some? <==> Serving(hd.phase))
    && (t.Some? ==>
        && T.Inv(t.value)
        && (t.value.remotes == T.Working <==> hd.phase == SL.Building || hd.phase == SL.Running)
        && (hd.proxies == [] ==> t.value.remotes == T.Returned(false) && t.value.helpers == []))
  }

  ghost predicate Inv(w: World) {
    && SL.Inv(w.server) && |w.tunnels| == |w.server.handlers|
    && (forall h :: 0 <= h < |w.tunnels| ==> TunnelFits(w.server.handlers[h], w.tunnels[h]))
    && (w.alive <==> forall h :: 0 <= h < |w.tunnels| && w.tunnels[h].Some? ==> w.tunnels[h].value.alive)
  }

  lemma AcceptedFits(hd: SL.Handler, ds: seq<string>, waits: nat)
    requires SL.Advance(hd, SL.Accept(ds)).Some?
    ensures TunnelFits(SL.Advance(hd, SL.Accept(ds)).value, Some(Accepted(ds, waits))) && Accepted(ds, waits).alive
  {
    AcceptedInv(ds, waits);
  }

  lemma FollowFits(hd: SL.Handler, t: Option<T.State>, a: Action)
    requires a.Act? && SL.StagesFit(hd) && TunnelFits(hd, t) && (t.Some? ==> t.value.alive)
    requires SL.Advance(hd, a.move).Some? && Follow(t, a).Some?
    ensures TunnelFits(SL.Advance(hd, a.move).value, Follow(t, a).value)
    ensures Follow(t, a).value.Some? ==> Follow(t, a).value.value.alive
  {
    match a.move
    case Accept(ds) => AcceptedFits(hd, ds, a.waits);
    case ListenFails(_, _) => T.StepKeepsInv(t.value, T.RemotesReturn(true));
    case Unbind => T.StepKeepsInv(t.value, T.RemotesReturn(a.failed));
    case _ =>
  }

  lemma TunnelKeepsRemotes(t: T.State, b: T.Action)
    requires T.Step(t, b).Some? && !b.RemotesReturn?
    ensures T.Step(t, b).value.remotes == t.remotes && |T.Step(t, b).value.helpers| == |t.helpers|
  {}

  lemma EnterKeepsInv(w: World, addr: string)
    requires Inv(w) && Step(w, Enter(addr)).Some?
    ensures Inv(Step(w, Enter(addr)).value)
  {
    SL.StepKeepsInv(w.server, SL.Enter(addr));
    assert w.alive;
  }

  /** Handlers and tunnels at h that fit each other, in the place of those that did. */
  lemma FitsAt(w: World, w': World, h: nat, hd: SL.Handler, t: Option<T.State>)
    requires Inv(w) && w.alive && h < |w.tunnels| && SL.Inv(w'.server) && w'.server.handlers == w.server.handlers[h := hd]
    requires w'.tunnels == w.tunnels[h := t] && TunnelFits(hd, t) && (w'.alive <==> (t.Some? ==> t.value.alive))
    ensures Inv(w')
  {
    forall k | 0 <= k < |w'.tunnels| ensures TunnelFits(w'.server.handlers[k], w'.tunnels[k]) {
      assert TunnelFits(w.server.handlers[k], w.tunnels[k]);
    }
    assert w'.tunnels[h] == t;
  }

  lemma ActKeepsInv(w: World, a: Action)
    requires Inv(w) && a.Act? && Step(w, a).Some?
    ensures Inv(Step(w, a).value)
  {
    var hd := w.server.handlers[a.h];
    SL.StepKeepsInv(w.server, SL.Act(a.h, a.move, a.now));
    assert SL.HandlerFits(hd, SL.Id(a.h), w.server.store) && TunnelFits(hd, w.tunnels[a.h]);
    FollowFits(hd, w.tunnels[a.h], a);
    FitsAt(w, Step(w, a).value, a.h, SL.Advance(hd, a.move).value, Follow(w.tunnels[a.h], a).value);
  }

  lemma TunnelKeepsInv(w: World, h: nat, b: T.Action)
    requires Inv(w) && Step(w, Tunnel(h, b)).Some?
    ensures Inv(Step(w, Tunnel(h, b)).value)
  {
    var hd, t := w.server.handlers[h], w.tunnels[h].value;
    assert TunnelFits(hd, w.tunnels[h]);
    T.StepKeepsInv(t, b);
    TunnelKeepsRemotes(t, b);
    assert w.server.handlers[h := hd] == w.server.handlers;
    FitsAt(w, Step(w, Tunnel(h, b)).value, h, hd, T.Step(t, b));
  }

  lemma StepKeepsInv(w: World, a: Action)
    requires Inv(w) && Step(w, a).Some?
    ensures Inv(Step(w, a).value)
  {
    match a
    case Enter(addr) => EnterKeepsInv(w, addr);
    case Act(_, _, _, _, _) => ActKeepsInv(w, a);
    case Tunnel(h, b) => TunnelKeepsInv(w, h, b);
  }

  lemma AlwaysInv(schedule: seq<Action>)
    requires Run(Step, Start, schedule).Some?
    ensures Inv(Run(Step, Start, schedule).value)
  {
    forall x, a | Inv(x) && Step(x, a).Some? ensures Inv(Step(x, a).value) { StepKeepsInv(x, a); }
    RunKeeps(Step, (x: World) => Inv(x), Start, schedule);
  }
}
