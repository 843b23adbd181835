/** Whole handler runs against the shared monitor: handleWebsocket (server/server_handler.go),
    BindRemotes (share/tunnel/tunnel.go) and the endpoint events of its proxies
    (share/tunnel/tunnel_in_proxy.go), for any number of handlers in any interleaving. */
module SessionLifecycle {
  import opened Common
  import opened Text
  import opened Monitor

  // ---- what one session sees of the store ----

  function SessionOf(s: State, id: string): Option<Session> {
    if id in s.sessions then Some(s.sessions[id]) else None
  }

  function Of(es: map<string, Endpoint>, id: string): map<string, Endpoint> {
    map k | k in es && es[k].sessionId == id :: es[k]
  }

  function EndpointsOf(s: State, id: string): map<string, Endpoint> { Of(s.endpoints, id) }

  ghost predicate SameView(s: State, t: State, id: string) {
    SessionOf(s, id) == SessionOf(t, id) && EndpointsOf(s, id) == EndpointsOf(t, id)
  }

  /** Session ids are printed numbers; what matters of them here is that they hold no bar. */
  predicate Plain(id: string) { '|' !in id }

  lemma ItoaIsPlain(n: nat)
    ensures Plain(Itoa(n))
  {
    assert !IsDigit('|');
  }

  lemma KeyInjective(a: string, d: string, b: string, e: string)
    requires Plain(a) && Plain(b) && Key(a, d) == Key(b, e)
    ensures a == b && d == e
  {
    var k := Key(a, d);
    assert k[|a|] == '|' && k[|b|] == '|';
    assert forall i :: 0 <= i < |a| ==> k[i] == a[i] && a[i] in a;
    assert forall i :: 0 <= i < |b| ==> k[i] == b[i] && b[i] in b;
    assert |a| == |b|;
    assert a == k[..|a|] && b == k[..|a|] && d == k[|a| + 1..] && e == k[|a| + 1..];
  }

  ghost predicate Tidy(s: State) {
    && Keyed(s)
    && (forall k :: k in s.sessions ==> Plain(k))
    && (forall k :: k in s.endpoints ==> Plain(s.endpoints[k].sessionId))
  }

  lemma PutOwn(es: map<string, Endpoint>, k: string, e: Endpoint, id: string)
    requires e.sessionId == id && (k in es ==> es[k].sessionId == id)
    ensures Of(es[k := e], id) == Of(es, id)[k := e]
    ensures forall other :: other != id ==> Of(es[k := e], other) == Of(es, other)
  {}

  function Closed(es: map<string, Endpoint>, id: string, now: nat): map<string, Endpoint> {
    map k | k in es :: CloseIfOf(es[k], id, now)
  }

  lemma CloseOwn(es: map<string, Endpoint>, id: string, now: nat)
    ensures Of(Closed(es, id, now), id) == Closed(Of(es, id), id, now)
    ensures forall other :: other != id ==> Of(Closed(es, id, now), other) == Of(es, other)
  {}

  /** An endpoint event of one session changes that one entry and nothing that another sees. */
  lemma UpdateIsOwn(s: State, id: string, descriptor: string, status: EndpointStatus, error: string, now: nat)
    requires Tidy(s) && Plain(id)
    ensures var t := UpdateEndpoint(s, id, descriptor, status, error, now);
      && Tidy(t)
      && SessionOf(t, id) == SessionOf(s, id)
      && EndpointsOf(t, id) == EndpointsOf(s, id)[Key(id, descriptor) := Endpoint(id, descriptor, status, error, now)]
      && forall other :: other != id ==> SameView(s, t, other)
  {
    var key := Key(id, descriptor);
    if key in s.endpoints {
      KeyInjective(id, descriptor, s.endpoints[key].sessionId, s.endpoints[key].descriptor);
    }
    var t := UpdateEndpoint(s, id, descriptor, status, error, now);
    var e := Endpoint(id, descriptor, status, error, now);
    assert t.endpoints == s.endpoints[key := e];
    PutOwn(s.endpoints, key, e, id);
  }

  /** A disconnect settles every endpoint of its session and touches no other. */
  lemma DisconnectIsOwn(s: State, id: string, now: nat)
    requires Tidy(s) && Plain(id)
    ensures var t := MarkDisconnected(s, id, now);
      && Tidy(t)
      && SessionOf(t, id) == Some(Stored(s, id).(status := SessionDisconnected, updatedAt := now))
      && EndpointsOf(t, id) == Closed(EndpointsOf(s, id), id, now)
      && forall other :: other != id ==> SameView(s, t, other)
  {
    var t := MarkDisconnected(s, id, now);
    assert t.endpoints == Closed(s.endpoints, id, now);
    CloseOwn(s.endpoints, id, now);
  }

  // ---- handlers ----

  /** Where one reversed remote stands in BindRemotes: not reached, its proxy inside NewProxy,
      built, refused by listen, or returned from Run. */
  datatype Stage = Absent | Listening | Built | Refused(message: string) | Ended

  datatype ProxyAt = ProxyAt(descriptor: string, stage: Stage)

  /** Crashed: the handler has panicked before its client was validated; the HTTP server recovers
      and goes on. Unbound: the bind goroutines are done and the disconnect is next. */
  datatype Phase =
    | Starting | Pending | Failed(message: string) | Crashed | Building | Running | Unbound | Disconnected

  datatype Handler = Handler(phase: Phase, remoteAddr: string, proxies: seq<ProxyAt>)

  datatype Move =
    | Begin
    | Reject(message: string)            // upgrade, handshake, configuration or a remote refused
    | Crash                              // no user for the connection, no request on it, or a null remote
    | Accept(reversed: seq<string>)      // the descriptors of the reversed remotes
    | Create(i: nat)                     // NewProxy reports pending
    | ListenFails(i: nat, message: string)
    | ListenOk(i: nat)
    | End(i: nat)                        // Run of a proxy returns
    | Unbind
    | Finish

  function WithStage(h: Handler, i: nat, stage: Stage): Handler
    requires i < |h.proxies|
  {
    h.(proxies := h.proxies[i := h.proxies[i].(stage := stage)])
  }

  /** The next phase of a handler, None when it cannot make the move. */
  function Advance(h: Handler, m: Move): Option<Handler> {
    match m
    case Begin => if h.phase.Starting? then Some(h.(phase := Pending)) else None
    case Reject(message) => if h.phase.Pending? then Some(h.(phase := Failed(message))) else None
    case Crash => if h.phase.Pending? then Some(h.(phase := Crashed)) else None
    case Accept(ds) =>
      if h.phase.Pending? then
        Some(h.(phase := if ds == [] then Unbound else Building, proxies := seq(|ds|, i requires 0 <= i < |ds| => ProxyAt(ds[i], Absent))))
      else None
    case Create(i) =>
      if h.phase.Building? && i < |h.proxies| && h.proxies[i].stage.Absent? && (forall j :: 0 <= j < i ==> h.proxies[j].stage.Built?)
      then Some(WithStage(h, i, Listening)) else None
    case ListenFails(i, message) =>
      if h.phase.Building? && i < |h.proxies| && h.proxies[i].stage.Listening?
      then Some(WithStage(h, i, Refused(message)).(phase := Unbound)) else None
    case ListenOk(i) =>
      if h.phase.Building? && i < |h.proxies| && h.proxies[i].stage.Listening?
      then Some(WithStage(h, i, Built).(phase := if i == |h.proxies| - 1 then Running else Building)) else None
    case End(i) =>
      if h.phase.Running? && i < |h.proxies| && h.proxies[i].stage.Built? then Some(WithStage(h, i, Ended)) else None
    case Unbind =>
      if h.phase.Running? && (forall j :: 0 <= j < |h.proxies| ==> h.proxies[j].stage.Ended?) then Some(h.(phase := Unbound)) else None
    case Finish => if h.phase.Unbound? then Some(h.(phase := Disconnected)) else None
  }

  /** What the move does to the monitor. */
  function Effect(s: State, h: Handler, id: string, m: Move, now: nat): State
    requires Advance(h, m).Some?
  {
    match m
    case Begin => MarkPending(s, id, h.remoteAddr, now)
    case Reject(message) => MarkFailed(s, id, message, now)
    case Crash => s
    case Accept(_) => MarkConnected(s, id, now)
    case Create(i) => UpdateEndpoint(s, id, h.proxies[i].descriptor, EndpointPending, "", now)
    case ListenFails(i, message) => UpdateEndpoint(s, id, h.proxies[i].descriptor, EndpointFailed, message, now)
    case ListenOk(i) => UpdateEndpoint(s, id, h.proxies[i].descriptor, EndpointActive, "", now)
    case End(i) => UpdateEndpoint(s, id, h.proxies[i].descriptor, EndpointClosed, "", now)
    case Unbind => s
    case Finish => MarkDisconnected(s, id, now)
  }

  // ---- what the monitor shows of a handler ----

  ghost predicate SessionFits(h: Handler, id: string, x: Option<Session>) {
    if h.phase.Starting? then x.None?
    else
      && x.Some? && x.value.id == id && x.value.remoteAddr == h.remoteAddr && x.value.startedAt > 0
      && x.value.error == (if h.phase.Failed? then h.phase.message else "")
      && (x.value.connectedAt > 0 <==> !h.phase.Pending? && !h.phase.Failed? && !h.phase.Crashed?)
      && x.value.status == (match h.phase
                            case Pending => SessionPending
                            case Crashed => SessionPending
                            case Failed(_) => SessionFailed
                            case Disconnected => SessionDisconnected
                            case _ => SessionConnected)
  }

  /** The status that the last event of a proxy, or the disconnect after it, leaves behind. */
  function Expected(phase: Phase, stage: Stage): EndpointStatus
    requires !stage.Absent?
  {
    match stage
    case Listening => if phase.Disconnected? then EndpointClosed else EndpointPending
    case Built => if phase.Disconnected? then EndpointClosed else EndpointActive
    case Refused(_) => EndpointFailed
    case Ended => EndpointClosed
  }

  function LastError(stage: Stage): string { if stage.Refused? then stage.message else "" }

  ghost predicate Shows(e: Endpoint, phase: Phase, id: string, p: ProxyAt) {
    !p.stage.Absent? && e.sessionId == id && e.descriptor == p.descriptor && e.status == Expected(phase, p.stage)
    && e.lastError == LastError(p.stage)
  }

  /** Proxies of one descriptor share a record, which shows one of them. */
  ghost predicate Shown(e: Endpoint, k: string, phase: Phase, id: string, ps: seq<ProxyAt>) {
    exists i :: 0 <= i < |ps| && k == Key(id, ps[i].descriptor) && Shows(e, phase, id, ps[i])
  }

  ghost predicate EndpointsFit(phase: Phase, ps: seq<ProxyAt>, id: string, es: map<string, Endpoint>) {
    && (forall k :: k in es ==> Shown(es[k], k, phase, id, ps))
    && (forall i :: 0 <= i < |ps| && !ps[i].stage.Absent? ==> Key(id, ps[i].descriptor) in es)
  }

  ghost predicate StagesFit(h: Handler) {
    && (h.phase.Starting? || h.phase.Pending? || h.phase.Failed? || h.phase.Crashed? ==> h.proxies == [])
    && (h.phase.Running? ==> forall i :: 0 <= i < |h.proxies| ==> h.proxies[i].stage in {Built, Ended})
    && (h.phase.Building? ==> forall i, j :: 0 <= i < j < |h.proxies| && !h.proxies[j].stage.Absent? ==> h.proxies[i].stage.Built?)
    && (h.phase.Building? ==> forall i :: 0 <= i < |h.proxies| ==> h.proxies[i].stage in {Absent, Listening, Built})
    && (h.phase.Building? ==> h.proxies != [] && !h.proxies[|h.proxies| - 1].stage.Built?)
  }

  ghost predicate HandlerFits(h: Handler, id: string, s: State) {
    StagesFit(h) && SessionFits(h, id, SessionOf(s, id)) && EndpointsFit(h.phase, h.proxies, id, EndpointsOf(s, id))
  }

  lemma StagesKept(h: Handler, m: Move)
    requires Advance(h, m).Some? && StagesFit(h)
    ensures StagesFit(Advance(h, m).value)
  {}

  lemma StageShown(
    was: Phase, ps: seq<ProxyAt>, i: nat, phase: Phase, stage: Stage, id: string, es: map<string, Endpoint>, now: nat)
    requires i < |ps| && EndpointsFit(was, ps, id, es) && Plain(id)
    requires !stage.Absent? && !phase.Disconnected? && !was.Disconnected?
    ensures EndpointsFit(phase, ps[i := ps[i].(stage := stage)], id,
              es[Key(id, ps[i].descriptor) := Endpoint(id, ps[i].descriptor, Expected(phase, stage), LastError(stage), now)])
  {
    var qs := ps[i := ps[i].(stage := stage)];
    var es' := es[Key(id, ps[i].descriptor) := Endpoint(id, ps[i].descriptor, Expected(phase, stage), LastError(stage), now)];
    forall k | k in es' ensures Shown(es'[k], k, phase, id, qs) {
      if k == Key(id, ps[i].descriptor) {
        assert Shows(es'[k], phase, id, qs[i]);
      } else {
        StillShown(es[k], k, was, phase, ps, i, stage, id);
      }
    }
  }

  /** A record under another key still shows the proxy that it showed. */
  lemma StillShown(e: Endpoint, k: string, was: Phase, phase: Phase, ps: seq<ProxyAt>, i: nat, stage: Stage, id: string)
    requires i < |ps| && Shown(e, k, was, id, ps) && k != Key(id, ps[i].descriptor)
    requires !phase.Disconnected? && !was.Disconnected?
    ensures Shown(e, k, phase, id, ps[i := ps[i].(stage := stage)])
  {
    var qs := ps[i := ps[i].(stage := stage)];
    var j :| 0 <= j < |ps| && k == Key(id, ps[j].descriptor) && Shows(e, was, id, ps[j]);
    assert qs[j] == ps[j];
  }

  lemma DisconnectShown(ps: seq<ProxyAt>, id: string, es: map<string, Endpoint>, now: nat)
    requires EndpointsFit(Unbound, ps, id, es)
    ensures EndpointsFit(Disconnected, ps, id, Closed(es, id, now))
  {
    var es' := Closed(es, id, now);
    forall k | k in es' ensures Shown(es'[k], k, Disconnected, id, ps) {
      assert Shown(es[k], k, Unbound, id, ps);
      ClosingShown(es[k], k, ps, id, now);
    }
  }

  lemma ClosingShows(e: Endpoint, id: string, p: ProxyAt, now: nat)
    requires Shows(e, Unbound, id, p)
    ensures Shows(CloseIfOf(e, id, now), Disconnected, id, p)
  {}

  lemma ClosingShown(e: Endpoint, k: string, ps: seq<ProxyAt>, id: string, now: nat)
    requires Shown(e, k, Unbound, id, ps)
    ensures Shown(CloseIfOf(e, id, now), k, Disconnected, id, ps)
  {
    var j :| 0 <= j < |ps| && k == Key(id, ps[j].descriptor) && Shows(e, Unbound, id, ps[j]);
    ClosingShows(e, id, ps[j], now);
  }

  /** What one move keeps: the handler's own view still fits it, every other view is the same. */
  ghost predicate MoveKeeps(h: Handler, m: Move, id: string, s: State, now: nat)
    requires Advance(h, m).Some?
  {
    var t := Effect(s, h, id, m, now);
    Tidy(t) && HandlerFits(Advance(h, m).value, id, t) && forall other :: other != id ==> SameView(s, t, other)
  }

  lemma SessionEventFits(h: Handler, m: Move, id: string, s: State, now: nat)
    requires m.Begin? || m.Reject? || m.Crash? || m.Accept?
    requires Advance(h, m).Some? && Tidy(s) && Plain(id) && HandlerFits(h, id, s) && now > 0
    ensures MoveKeeps(h, m, id, s, now)
  {
    StagesKept(h, m);
    var t := Effect(s, h, id, m, now);
    assert t.endpoints == s.endpoints;
    assert EndpointsOf(s, id) == map[];
    assert forall other :: other != id ==> SameView(s, t, other);
  }

  /** A proxy's event: its stage and its status in the monitor move together. */
  lemma ProxyEventFits(h: Handler, m: Move, i: nat, stage: Stage, id: string, s: State, now: nat)
    requires Advance(h, m).Some? && Tidy(s) && Plain(id) && HandlerFits(h, id, s)
    requires i < |h.proxies| && !stage.Absent? && h.phase in {Building, Running} && Advance(h, m).value.phase in {Building, Running, Unbound}
    requires Advance(h, m).value == WithStage(h, i, stage).(phase := Advance(h, m).value.phase)
    requires Effect(s, h, id, m, now) == UpdateEndpoint(s, id, h.proxies[i].descriptor, Expected(Advance(h, m).value.phase, stage), LastError(stage), now)
    ensures MoveKeeps(h, m, id, s, now)
  {
    StagesKept(h, m);
    var phase := Advance(h, m).value.phase;
    UpdateIsOwn(s, id, h.proxies[i].descriptor, Expected(phase, stage), LastError(stage), now);
    StageShown(h.phase, h.proxies, i, phase, stage, id, EndpointsOf(s, id), now);
  }

  lemma FinishFits(h: Handler, id: string, s: State, now: nat)
    requires Advance(h, Finish).Some? && Tidy(s) && Plain(id) && HandlerFits(h, id, s) && now > 0
    ensures MoveKeeps(h, Finish, id, s, now)
  {
    DisconnectIsOwn(s, id, now);
    DisconnectShown(h.proxies, id, EndpointsOf(s, id), now);
  }

  lemma UnbindFits(h: Handler, id: string, s: State, now: nat)
    requires Advance(h, Unbind).Some? && Tidy(s) && HandlerFits(h, id, s)
    ensures MoveKeeps(h, Unbind, id, s, now)
  {
    var es, ps := EndpointsOf(s, id), h.proxies;
    forall k | k in es ensures Shown(es[k], k, Unbound, id, ps) {
      var j :| 0 <= j < |ps| && k == Key(id, ps[j].descriptor) && Shows(es[k], h.phase, id, ps[j]);
      assert Shows(es[k], Unbound, id, ps[j]);
    }
  }

  lemma ProxyMoveFits(h: Handler, m: Move, id: string, s: State, now: nat)
    requires m.Create? || m.ListenFails? || m.ListenOk? || m.End?
    requires Advance(h, m).Some? && Tidy(s) && Plain(id) && HandlerFits(h, id, s) && now > 0
    ensures MoveKeeps(h, m, id, s, now)
  {
    match m {
      case Create(i) => ProxyEventFits(h, m, i, Listening, id, s, now);
      case ListenFails(i, message) => ProxyEventFits(h, m, i, Refused(message), id, s, now);
      case ListenOk(i) => ProxyEventFits(h, m, i, Built, id, s, now);
      case End(i) => ProxyEventFits(h, m, i, Ended, id, s, now);
    }
  }

  lemma MoveFits(h: Handler, m: Move, id: string, s: State, now: nat)
    requires Advance(h, m).Some? && Tidy(s) && Plain(id) && HandlerFits(h, id, s) && now > 0
    ensures MoveKeeps(h, m, id, s, now)
  {
    match m {
      case Begin => SessionEventFits(h, m, id, s, now);
      case Reject(_) => SessionEventFits(h, m, id, s, now);
      case Crash => SessionEventFits(h, m, id, s, now);
      case Accept(_) => SessionEventFits(h, m, id, s, now);
      case Unbind => UnbindFits(h, id, s, now);
      case Finish => FinishFits(h, id, s, now);
      case _ => ProxyMoveFits(h, m, id, s, now);
    }
  }

  // ---- the server: handlers in any number and order ----

  datatype System = System(handlers: seq<Handler>, store: State)

  /** Enter takes the next number of the session counter; Act is one move of one handler. */
  datatype Action = Enter(remoteAddr: string) | Act(h: nat, move: Move, now: nat)

  const Start := System([], State(map[], map[]))

  function Id(h: nat): string { Itoa(h + 1) }

  lemma IdInjective(g: nat, h: nat)
    requires Id(g) == Id(h)
    ensures g == h
  {}

  function Step(x: System, a: Action): Option<System> {
    match a
    case Enter(addr) => Some(x.(handlers := x.handlers + [Handler(Starting, addr, [])]))
    case Act(h, m, now) =>
      if h < |x.handlers| && now > 0 && Advance(x.handlers[h], m).Some? then
        Some(System(
          x.handlers[h := Advance(x.handlers[h], m).value],
          Effect(x.store, x.handlers[h], Id(h), m, now)))
      else None
  }

  ghost predicate Unused(id: string, n: nat) { forall h: nat :: h < n ==> id != Id(h) }

  ghost predicate Inv(x: System) {
    && Tidy(x.store)
    && (forall h :: 0 <= h < |x.handlers| ==> HandlerFits(x.handlers[h], Id(h), x.store))
    && (forall id :: Unused(id, |x.handlers|) ==> SessionOf(x.store, id).None? && EndpointsOf(x.store, id) == map[])
  }

  /** A move of one handler is invisible in the records of every other session. */
  lemma MoveIsOwn(x: System, h: nat, m: Move, now: nat)
    requires Inv(x) && Step(x, Act(h, m, now)).Some?
    ensures forall id :: id != Id(h) ==> SameView(x.store, Step(x, Act(h, m, now)).value.store, id)
    ensures Tidy(Step(x, Act(h, m, now)).value.store)
    ensures HandlerFits(Step(x, Act(h, m, now)).value.handlers[h], Id(h), Step(x, Act(h, m, now)).value.store)
  {
    ItoaIsPlain(h + 1);
    MoveFits(x.handlers[h], m, Id(h), x.store, now);
  }

  lemma StepKeepsInv(x: System, a: Action)
    requires Inv(x) && Step(x, a).Some?
    ensures Inv(Step(x, a).value)
  {
    var y := Step(x, a).value;
    var n := |x.handlers|;
    match a {
      case Enter(addr) =>
        assert Unused(Id(n), n) by {
          assert forall h: nat :: h < n ==> Id(n) != Id(h);
        }
        forall id | Unused(id, n + 1) ensures Unused(id, n) {}
      case Act(h, m, now) =>
        MoveIsOwn(x, h, m, now);
        forall g | 0 <= g < n ensures HandlerFits(y.handlers[g], Id(g), y.store) {
          if g != h {
            assert Id(g) != Id(h);
            assert SameView(x.store, y.store, Id(g));
          }
        }
        forall id | Unused(id, n) ensures SessionOf(y.store, id).None? && EndpointsOf(y.store, id) == map[] {
          assert SameView(x.store, y.store, id);
        }
    }
  }

  /** In every run the monitor shows exactly where each handler and each of its proxies stands. */
  lemma AlwaysFits(schedule: seq<Action>)
    requires Run(Step, Start, schedule).Some?
    ensures Inv(Run(Step, Start, schedule).value)
  {
    forall x, a | Inv(x) && Step(x, a).Some? ensures Inv(Step(x, a).value) { StepKeepsInv(x, a); }
    RunKeeps(Step, (x: System) => Inv(x), Start, schedule);
  }

  // ---- what a snapshot says of a run ----

  lemma OwnerOf(x: System, k: string) returns (h: nat, i: nat)
    requires Inv(x) && k in x.store.endpoints
    ensures h < |x.handlers| && x.store.endpoints[k].sessionId == Id(h) && i < |x.handlers[h].proxies|
    ensures Shows(x.store.endpoints[k], x.handlers[h].phase, Id(h), x.handlers[h].proxies[i])
  {
    var id := x.store.endpoints[k].sessionId;
    assert k in EndpointsOf(x.store, id);
    assert !Unused(id, |x.handlers|);
    h :| h < |x.handlers| && id == Id(h);
    assert HandlerFits(x.handlers[h], Id(h), x.store);
    assert Shown(x.store.endpoints[k], k, x.handlers[h].phase, id, x.handlers[h].proxies);
    i :| 0 <= i < |x.handlers[h].proxies| && Shows(x.store.endpoints[k], x.handlers[h].phase, id, x.handlers[h].proxies[i]);
  }

  lemma OwnerIsConnected(x: System, k: string) returns (owner: Session)
    requires Inv(x) && k in x.store.endpoints && Unsettled(x.store.endpoints[k])
    ensures var id := x.store.endpoints[k].sessionId;
      id in x.store.sessions && owner == x.store.sessions[id] && owner.id == id && owner.status == SessionConnected
  {
    var h, i := OwnerOf(x, k);
    assert SessionFits(x.handlers[h], Id(h), SessionOf(x.store, Id(h)));
    owner := x.store.sessions[Id(h)];
  }

  /** Every endpoint shown as pending or active belongs to a session shown as connected. */
  lemma LiveEndpointIsConnected(schedule: seq<Action>, n: Snapshot, e: Endpoint) returns (owner: Session)
    requires Run(Step, Start, schedule).Some? && IsSnapshot(n, Run(Step, Start, schedule).value.store)
    requires e in n.endpoints && Unsettled(e)
    ensures owner in n.sessions && owner.id == e.sessionId && owner.status == SessionConnected
  {
    var x := Run(Step, Start, schedule).value;
    AlwaysFits(schedule);
    var k :| k in x.store.endpoints && x.store.endpoints[k] == e;
    owner := OwnerIsConnected(x, k);
    assert owner in x.store.sessions.Values;
  }

  predicate Completed(h: Handler) { h.phase.Failed? || h.phase.Disconnected? }

  predicate Over(h: Handler) { Completed(h) || h.phase.Crashed? }

  lemma StepAfterEndIsQuiet(x: System, a: Action, h: nat)
    requires Inv(x) && h < |x.handlers| && Over(x.handlers[h]) && Step(x, a).Some?
    ensures var y := Step(x, a).value;
      h < |y.handlers| && y.handlers[h] == x.handlers[h] && SameView(x.store, y.store, Id(h))
  {
    match a {
      case Enter(_) =>
      case Act(g, m, now) =>
        MoveIsOwn(x, g, m, now);
        assert g != h && Id(g) != Id(h);
    }
  }

  /** Once a handler is over, no later step of the server changes what the monitor holds of it. */
  lemma EndIsQuiet(x: System, rest: seq<Action>, h: nat)
    requires Inv(x) && h < |x.handlers| && Over(x.handlers[h]) && Run(Step, x, rest).Some?
    ensures var y := Run(Step, x, rest).value;
      Inv(y) && h < |y.handlers| && y.handlers[h] == x.handlers[h] && SameView(x.store, y.store, Id(h))
  {
    var quiet := (z: System) => Inv(z) && h < |z.handlers| && z.handlers[h] == x.handlers[h] && SameView(x.store, z.store, Id(h));
    forall z, a | quiet(z) && Step(z, a).Some? ensures quiet(Step(z, a).value) {
      StepKeepsInv(z, a);
      StepAfterEndIsQuiet(z, a, h);
    }
    RunKeeps(Step, quiet, x, rest);
  }

  lemma CompletedIsSettled(x: System, n: Snapshot, e: Endpoint, h: nat)
    requires Inv(x) && h < |x.handlers| && Completed(x.handlers[h])
    requires IsSnapshot(n, x.store) && e in n.endpoints && e.sessionId == Id(h)
    ensures e.status == EndpointFailed || e.status == EndpointClosed
  {
    var k :| k in x.store.endpoints && x.store.endpoints[k] == e;
    var g, i := OwnerOf(x, k);
    IdInjective(g, h);
    assert HandlerFits(x.handlers[h], Id(h), x.store);
    ShownWhenCompleted(x.handlers[h], i, e, Id(h));
  }

  lemma ShownWhenCompleted(h: Handler, i: nat, e: Endpoint, id: string)
    requires StagesFit(h) && Completed(h) && i < |h.proxies| && Shows(e, h.phase, id, h.proxies[i])
    ensures e.status == EndpointFailed || e.status == EndpointClosed
  {}

  /** Once a handler has completed, no later step of the server changes what the monitor holds
      of its session, and each of its endpoints is failed or closed, also those of proxies that
      were built but never run because a later one could not listen. */
  lemma CompletedStaysSettled(schedule: seq<Action>, rest: seq<Action>, h: nat)
    requires Run(Step, Start, schedule).Some?
    requires var x := Run(Step, Start, schedule).value; h < |x.handlers| && Completed(x.handlers[h]) && Run(Step, x, rest).Some?
    ensures var x := Run(Step, Start, schedule).value;
      var y := Run(Step, x, rest).value;
      && SameView(x.store, y.store, Id(h))
      && (SessionOf(y.store, Id(h)).Some? && SessionOf(y.store, Id(h)).value.status in {SessionFailed, SessionDisconnected})
      && (forall n, e :: IsSnapshot(n, y.store) && e in n.endpoints && e.sessionId == Id(h)
            ==> e.status == EndpointFailed || e.status == EndpointClosed)
  {
    var x := Run(Step, Start, schedule).value;
    var y := Run(Step, x, rest).value;
    AlwaysFits(schedule);
    EndIsQuiet(x, rest, h);
    assert SessionFits(y.handlers[h], Id(h), SessionOf(y.store, Id(h)));
    forall n, e | IsSnapshot(n, y.store) && e in n.endpoints && e.sessionId == Id(h)
      ensures e.status == EndpointFailed || e.status == EndpointClosed
    {
      CompletedIsSettled(y, n, e, h);
    }
  }

  // ---- the history of a session ----

  /** What may lie between an earlier and a later look at one session's record. */
  predicate Follows(a: Option<Session>, b: Option<Session>) {
    a.None? || (
      && b.Some? && b.value.id == a.value.id && b.value.remoteAddr == a.value.remoteAddr && b.value.startedAt == a.value.startedAt
      && (a.value.connectedAt != 0 ==> b.value.connectedAt == a.value.connectedAt)
      && (match a.value.status
          case SessionPending => true
          case SessionConnected => b == a || b.value.status == SessionDisconnected
          case _ => b == a))
  }

  lemma MoveFollows(h: Handler, m: Move, id: string, s: State, now: nat)
    requires Advance(h, m).Some? && SessionFits(h, id, SessionOf(s, id)) && now > 0
    ensures Follows(SessionOf(s, id), SessionOf(Effect(s, h, id, m, now), id))
  {
    var t := Effect(s, h, id, m, now);
    if m.Create? || m.ListenFails? || m.ListenOk? || m.End? {
      assert t.sessions == s.sessions;
    }
  }

  lemma StepFollows(x: System, a: Action, id: string)
    requires Inv(x) && Step(x, a).Some?
    ensures Follows(SessionOf(x.store, id), SessionOf(Step(x, a).value.store, id))
  {
    match a {
      case Enter(_) =>
      case Act(h, m, now) =>
        if id == Id(h) {
          MoveFollows(x.handlers[h], m, id, x.store, now);
        } else {
          MoveIsOwn(x, h, m, now);
          assert SameView(x.store, Step(x, a).value.store, id);
        }
    }
  }

  /** A session's record only ever goes from pending to failed, or to connected and from there
      to disconnected; its address and the times of its start and connection are set once. */
  lemma SessionMovesForward(schedule: seq<Action>, rest: seq<Action>, id: string)
    requires Run(Step, Start, schedule).Some? && Run(Step, Run(Step, Start, schedule).value, rest).Some?
    ensures var x := Run(Step, Start, schedule).value;
      Follows(SessionOf(x.store, id), SessionOf(Run(Step, x, rest).value.store, id))
  {
    var x := Run(Step, Start, schedule).value;
    AlwaysFits(schedule);
    var later := (y: System) => Inv(y) && Follows(SessionOf(x.store, id), SessionOf(y.store, id));
    forall y, a | later(y) && Step(y, a).Some? ensures later(Step(y, a).value) {
      StepKeepsInv(y, a);
      StepFollows(y, a, id);
    }
    RunKeeps(Step, later, x, rest);
  }
}
