/** One server handler as the sequential program it is: handleWebsocket
    (server/server_handler.go) with the BindRemotes of its tunnel (share/tunnel/tunnel.go). What
    the network, the client and the listeners do is given beforehand, and so is the order in which
    the tunnel's bind and its waiters take their steps beside BindRemotes. */
module ServerHandler {
  import opened Common
  import opened Text
  import opened Monitor
  import opened SessionLifecycle
  import T = ServerTunnel
  import opened TunnelRaces

  /** What validation looks at in a requested remote: its printed form, the address that users
      are checked against, its direction, and whether its local side can be listened on. */
  datatype Ask = Ask(descriptor: string, userAddr: string, reverse: bool, canListen: bool)

  /** Whose session it is: nobody's when no users are configured, that of a user with some access
      rights, or that of a user which authentication has not left for the handler. */
  datatype Login = Anyone | UserOf(mayUse: string -> bool) | Missing

  /** What comes first on an established connection: nothing before the timeout, its end, which
      closes the channel of requests, or a request. The configuration is None when it does not
      decode, and a remote of it is None when the client sends null. */
  datatype First = Silence | HangUp | Request(name: string, config: Option<seq<Option<Ask>>>)

  datatype Client =
    | UpgradeFails(message: string)
    | HandshakeFails(message: string)
    | Connects(user: Login, first: First)

  datatype Outcome = Passes | Fails(message: string) | Panics

  function Errorf(message: string): string { "server: " + message }

  function Refusal(user: Login, reverse: bool, r: Ask): Option<string> {
    if user.UserOf? && !user.mayUse(r.userAddr) then Some(Errorf("access to '" + r.userAddr + "' denied"))
    else if r.reverse && !reverse then Some(Errorf("Reverse port forwaring not enabled on server"))
    else if r.reverse && !r.canListen then Some(Errorf("Server cannot listen on " + r.descriptor))
    else None
  }

  predicate Admissible(user: Login, reverse: bool, r: Option<Ask>) {
    r.Some? && Refusal(user, reverse, r.value).None?
  }

  /** The first remote that is not admissible decides. */
  ghost predicate IsVerdict(user: Login, reverse: bool, remotes: seq<Option<Ask>>, verdict: Outcome) {
    match verdict
    case Passes => forall i :: 0 <= i < |remotes| ==> Admissible(user, reverse, remotes[i])
    case Fails(message) =>
      exists i :: 0 <= i < |remotes| && remotes[i].Some? && Refusal(user, reverse, remotes[i].value) == Some(message)
        && forall j :: 0 <= j < i ==> Admissible(user, reverse, remotes[j])
    case Panics =>
      exists i :: 0 <= i < |remotes| && remotes[i].None?
        && forall j :: 0 <= j < i ==> Admissible(user, reverse, remotes[j])
  }

  method CheckRemotes(user: Login, reverse: bool, remotes: seq<Option<Ask>>) returns (verdict: Outcome)
    ensures IsVerdict(user, reverse, remotes, verdict)
  {
    for i := 0 to |remotes|
      invariant forall j :: 0 <= j < i ==> Admissible(user, reverse, remotes[j])
    {
      if remotes[i] == None {
        return Panics;
      }
      var r := remotes[i].value;
      if user.UserOf? {
        if !user.mayUse(r.userAddr) {
          return Fails(Errorf("access to '" + r.userAddr + "' denied"));
        }
      }
      if r.reverse && !reverse {
        return Fails(Errorf("Reverse port forwaring not enabled on server"));
      }
      if r.reverse && !r.canListen {
        return Fails(Errorf("Server cannot listen on " + r.descriptor));
      }
    }
    return Passes;
  }

  // ---- when the handler panics ----

  /** How the checks from the upgrade to the last remote end. */
  ghost predicate IsOutcome(client: Client, reverse: bool, outcome: Outcome) {
    match client
    case UpgradeFails(message) => outcome == Fails(message)
    case HandshakeFails(message) => outcome == Fails(message)
    case Connects(user, first) =>
      if user == Missing then outcome == Panics
      else
        match first
        case Silence => outcome == Fails("Timeout waiting for configuration")
        case HangUp => outcome == Panics
        case Request(name, config) =>
          if name != "config" then outcome == Fails(Errorf("expecting config request"))
          else if config.None? then outcome == Fails(Errorf("invalid config"))
          else IsVerdict(user, reverse, config.value, outcome)
  }

  /** Every null among the remotes comes after one that is refused. */
  ghost predicate NullsUnread(user: Login, reverse: bool, remotes: seq<Option<Ask>>) {
    forall i :: 0 <= i < |remotes| && remotes[i].None? ==>
      exists j :: 0 <= j < i && remotes[j].Some? && Refusal(user, reverse, remotes[j].value).Some?
  }

  /** The connection lives until a request or the timeout, its user is there if users are
      configured, and no null is read among the remotes. */
  ghost predicate Answerable(client: Client, reverse: bool) {
    client.Connects? ==>
      && client.user != Missing && client.first != HangUp
      && (client.first.Request? && client.first.name == "config" && client.first.config.Some? ==>
            NullsUnread(client.user, reverse, client.first.config.value))
  }

  /** The first remote that is not admissible decides what is read of the nulls. */
  lemma FirstDecides(user: Login, reverse: bool, remotes: seq<Option<Ask>>, i: nat)
    requires i < |remotes| && !Admissible(user, reverse, remotes[i])
    requires forall j :: 0 <= j < i ==> Admissible(user, reverse, remotes[j])
    ensures remotes[i].None? <==> !NullsUnread(user, reverse, remotes)
  {
    if remotes[i].None? {
      assert forall j :: 0 <= j < i ==> Admissible(user, reverse, remotes[j]);
    } else {
      forall k | 0 <= k < |remotes| && remotes[k].None?
        ensures exists j :: 0 <= j < k && remotes[j].Some? && Refusal(user, reverse, remotes[j].value).Some?
      {
        assert !Admissible(user, reverse, remotes[k]);
        assert i < k && remotes[i].Some?;
      }
    }
  }

  lemma VerdictOfNulls(user: Login, reverse: bool, remotes: seq<Option<Ask>>, verdict: Outcome)
    requires IsVerdict(user, reverse, remotes, verdict)
    ensures verdict.Panics? <==> !NullsUnread(user, reverse, remotes)
  {
    match verdict {
      case Passes => assert forall i :: 0 <= i < |remotes| ==> Admissible(user, reverse, remotes[i]);
      case Panics =>
        var i :| 0 <= i < |remotes| && remotes[i].None? && forall j :: 0 <= j < i ==> Admissible(user, reverse, remotes[j]);
        FirstDecides(user, reverse, remotes, i);
      case Fails(message) =>
        var i :| 0 <= i < |remotes| && remotes[i].Some? && Refusal(user, reverse, remotes[i].value) == Some(message)
              && forall j :: 0 <= j < i ==> Admissible(user, reverse, remotes[j]);
        FirstDecides(user, reverse, remotes, i);
    }
  }

  /** For every client: the handler panics if and only if the client is not answerable. */
  lemma PanicsUnlessAnswerable(client: Client, reverse: bool, outcome: Outcome)
    requires IsOutcome(client, reverse, outcome)
    ensures outcome.Panics? <==> !Answerable(client, reverse)
  {
    if client.Connects? && client.user != Missing && client.first.Request? && client.first.name == "config" && client.first.config.Some? {
      VerdictOfNulls(client.user, reverse, client.first.config.value, outcome);
    }
  }

  /** Three clients that make the handler panic: one that hangs up after the handshake, one that
      asks for null, and one whose user is missing. */
  lemma ClientsThatPanic(reverse: bool, outcome: Outcome)
    ensures IsOutcome(Connects(Anyone, HangUp), reverse, outcome) ==> outcome == Panics
    ensures IsOutcome(Connects(Anyone, Request("config", Some([None]))), reverse, outcome) ==> outcome == Panics
    ensures IsOutcome(Connects(Missing, Silence), reverse, outcome) ==> outcome == Panics
  {
    if IsOutcome(Connects(Anyone, Request("config", Some([None]))), reverse, outcome) {
      var remotes: seq<Option<Ask>> := [None];
      assert remotes[0].None?;
      VerdictOfNulls(Anyone, reverse, remotes, outcome);
    }
  }

  // ---- BindRemotes ----

  /** Proxies of which the first n are at one stage and the others are not reached. */
  function Staged(ds: seq<string>, n: nat, stage: Stage): (ps: seq<ProxyAt>)
    ensures |ps| == |ds|
  {
    seq(|ds|, i requires 0 <= i < |ds| => ProxyAt(ds[i], if i < n then stage else Absent))
  }

  /** The error of a group of goroutines: none, or one of theirs. */
  predicate GroupError(runs: seq<Option<string>>, err: Option<string>) {
    if forall i :: 0 <= i < |runs| ==> runs[i].None? then err.None? else err.Some? && err in runs
  }

  /** Where the proxies stand when BindRemotes returns: all have run and ended, each with its error
      or none, or those before the first that cannot listen are built and those after it are not
      reached. */
  ghost predicate BindEnds(
    ds: seq<string>, listen: seq<Option<string>>, runs: seq<Option<string>>, ps: seq<ProxyAt>, err: Option<string>)
    requires |listen| == |ds|
  {
    if forall i :: 0 <= i < |ds| ==> listen[i].None? then ps == Staged(ds, |ds|, Ended) && GroupError(runs, err)
    else
      exists k :: 0 <= k < |ds| && listen[k] == err && err.Some? && (forall i :: 0 <= i < k ==> listen[i].None?)
        && ps == Staged(ds, k, Built)[k := ProxyAt(ds[k], Refused(err.value))]
  }

  /** The endpoints of the session show the proxies, and no other session is touched. */
  ghost predicate BindFits(before: State, s: State, id: string, ps: seq<ProxyAt>) {
    && Tidy(s)
    && SessionOf(s, id) == SessionOf(before, id)
    && EndpointsFit(Unbound, ps, id, EndpointsOf(s, id))
    && (forall other :: other != id ==> SameView(before, s, other))
  }

  lemma EventFits(before: State, s: State, id: string, ps: seq<ProxyAt>, i: nat, stage: Stage, now: nat)
    requires BindFits(before, s, id, ps) && Plain(id) && i < |ps| && !stage.Absent?
    ensures BindFits(before, UpdateEndpoint(s, id, ps[i].descriptor, Expected(Unbound, stage), LastError(stage), now), id,
              ps[i := ProxyAt(ps[i].descriptor, stage)])
  {
    UpdateIsOwn(s, id, ps[i].descriptor, Expected(Unbound, stage), LastError(stage), now);
    StageShown(Unbound, ps, i, Unbound, stage, id, EndpointsOf(s, id), now);
    var t := UpdateEndpoint(s, id, ps[i].descriptor, Expected(Unbound, stage), LastError(stage), now);
    forall other | other != id ensures SameView(before, t, other) { assert SameView(before, s, other) && SameView(s, t, other); }
  }

  /** Proxies that have returned from Run, save those left. */
  function ReturnedBut(ps: seq<ProxyAt>, left: set<int>): (qs: seq<ProxyAt>)
    ensures |qs| == |ps|
  {
    seq(|ps|, i requires 0 <= i < |ps| => if i in left then ps[i] else ProxyAt(ps[i].descriptor, Ended))
  }

  lemma ReturnOne(ps: seq<ProxyAt>, left: set<int>, i: nat)
    requires i in left && i < |ps|
    ensures ReturnedBut(ps, left - {i}) == ReturnedBut(ps, left)[i := ProxyAt(ps[i].descriptor, Ended)]
    ensures ReturnedBut(ps, left)[i] == ps[i]
  {}

  /** The error so far of a group of which those left have not returned. */
  ghost predicate ErrorOf(runs: seq<Option<string>>, left: set<int>, err: Option<string>) {
    if err.Some? then err in runs else forall i :: 0 <= i < |runs| && i !in left ==> runs[i].None?
  }

  lemma ErrorOne(runs: seq<Option<string>>, left: set<int>, err: Option<string>, i: nat)
    requires ErrorOf(runs, left, err) && i < |runs|
    ensures ErrorOf(runs, left - {i}, if err.None? then runs[i] else err)
  {}

  lemma ErrorAll(runs: seq<Option<string>>, err: Option<string>)
    requires ErrorOf(runs, {}, err)
    ensures GroupError(runs, err)
  {}

  class Tunnel {
    const monitor: MonitorState
    const sessionId: string
    const inbound: bool
    var proxyCount: nat

    constructor (monitor: MonitorState, sessionId: string, inbound: bool)
      ensures this.monitor == monitor && this.sessionId == sessionId && this.inbound == inbound && proxyCount == 0
    {
      this.monitor, this.sessionId, this.inbound := monitor, sessionId, inbound;
      proxyCount := 0;
    }

    /** One event of a proxy, as it moves to the stage that the event reports. */
    method Emit(ghost before: State, ps: seq<ProxyAt>, i: nat, stage: Stage, now: nat) returns (qs: seq<ProxyAt>)
      requires Plain(sessionId) && BindFits(before, monitor.Current(), sessionId, ps)
      requires i < |ps| && !stage.Absent?
      modifies monitor`endpoints
      ensures qs == ps[i := ProxyAt(ps[i].descriptor, stage)]
      ensures BindFits(before, monitor.Current(), sessionId, qs)
    {
      EventFits(before, monitor.Current(), sessionId, ps, i, stage, now);
      monitor.UpdateEndpointStatus(sessionId, ps[i].descriptor, Expected(Unbound, stage), LastError(stage), now);
      qs := ps[i := ProxyAt(ps[i].descriptor, stage)];
    }

    /** Reports pending, listens, and reports failed or active. */
    method NewProxy(ghost before: State, ps: seq<ProxyAt>, i: nat, listen: Option<string>, now: nat) returns (qs: seq<ProxyAt>)
      requires Plain(sessionId) && BindFits(before, monitor.Current(), sessionId, ps)
      requires i < |ps|
      modifies monitor`endpoints
      ensures qs == ps[i := ProxyAt(ps[i].descriptor, if listen.None? then Built else Refused(listen.value))]
      ensures BindFits(before, monitor.Current(), sessionId, qs)
    {
      qs := Emit(before, ps, i, Listening, now);
      if listen.Some? {
        qs := Emit(before, qs, i, Refused(listen.value), now);
      } else {
        qs := Emit(before, qs, i, Built, now);
      }
    }

    /** Builds the proxies in order, then runs them all. */
    method BindRemotes(ds: seq<string>, listen: seq<Option<string>>, runs: seq<Option<string>>, now: nat)
      returns (err: Option<string>, ps: seq<ProxyAt>)
      requires |listen| == |runs| == |ds| && Plain(sessionId)
      requires Tidy(monitor.Current()) && EndpointsOf(monitor.Current(), sessionId) == map[]
      modifies this, monitor`endpoints
      ensures ds == [] ==> err == Some("no remotes")
      ensures ds != [] && !inbound ==> err == Some("inbound connections blocked")
      ensures if ds != [] && inbound then BindEnds(ds, listen, runs, ps, err) else ps == Staged(ds, 0, Absent)
      ensures ds != [] && inbound && (forall i :: 0 <= i < |ds| ==> listen[i].None?) ==> proxyCount == old(proxyCount) + |ds|
      ensures BindFits(old(monitor.Current()), monitor.Current(), sessionId, ps)
    {
      ghost var before := monitor.Current();
      ps := Staged(ds, 0, Absent);
      if ds == [] {
        return Some("no remotes"), ps;
      }
      if !inbound {
        return Some("inbound connections blocked"), ps;
      }
      for i := 0 to |ds|
        invariant proxyCount == old(proxyCount) + i
        invariant forall j :: 0 <= j < i ==> listen[j].None?
        invariant ps == Staged(ds, i, Built)
        invariant BindFits(before, monitor.Current(), sessionId, ps)
      {
        ps := NewProxy(before, ps, i, listen[i], now);
        if listen[i].Some? {
          return listen[i], ps;
        }
        proxyCount := proxyCount + 1;
      }
      err, ps := RunAll(before, ps, runs, now);
      assert ps == Staged(ds, |ds|, Ended);
    }

    /** The proxies return in any order, and each reports closed when it does; the first error is
        that of the group. */
    method RunAll(ghost before: State, ps: seq<ProxyAt>, runs: seq<Option<string>>, now: nat)
      returns (err: Option<string>, qs: seq<ProxyAt>)
      requires Plain(sessionId) && BindFits(before, monitor.Current(), sessionId, ps)
      requires |runs| == |ps| && forall i :: 0 <= i < |ps| ==> ps[i].stage.Built?
      modifies monitor`endpoints
      ensures qs == ReturnedBut(ps, {}) && GroupError(runs, err)
      ensures BindFits(before, monitor.Current(), sessionId, qs)
    {
      err, qs := None, ps;
      var left := set i | 0 <= i < |ps| && ps[i].stage.Built?;
      assert ps == ReturnedBut(ps, left);
      while left != {}
        invariant forall i :: i in left ==> 0 <= i < |ps|
        invariant qs == ReturnedBut(ps, left)
        invariant ErrorOf(runs, left, err)
        invariant BindFits(before, monitor.Current(), sessionId, qs)
        decreases left
      {
        var i :| i in left;
        ReturnOne(ps, left, i);
        ErrorOne(runs, left, err, i);
        left := left - {i};
        qs := Emit(before, qs, i, Ended, now);
        if err.None? {
          err := runs[i];
        }
      }
      ErrorAll(runs, err);
    }
  }

  // ---- handleWebsocket ----

  /** The descriptors of the reversed remotes. */
  function Reversed(remotes: seq<Option<Ask>>): seq<string> {
    if remotes == [] then []
    else (if remotes[0].Some? && remotes[0].value.reverse then [remotes[0].value.descriptor] else []) + Reversed(remotes[1..])
  }

  /** The reversed remotes that a client asks for. */
  function Asked(client: Client): seq<string> {
    if client.Connects? && client.first.Request? && client.first.config.Some? then Reversed(client.first.config.value) else []
  }

  /** Without the right to reverse nothing is left to bind once the remotes have passed. */
  lemma {:induction false} NothingReversed(user: Login, remotes: seq<Option<Ask>>)
    requires forall i :: 0 <= i < |remotes| ==> Admissible(user, false, remotes[i])
    ensures Reversed(remotes) == []
  {
    if remotes != [] {
      assert Admissible(user, false, remotes[0]);
      forall i | 0 <= i < |remotes| - 1 ensures Admissible(user, false, remotes[1..][i]) {
        assert remotes[1..][i] == remotes[i + 1];
      }
      NothingReversed(user, remotes[1..]);
    }
  }

  lemma NoEndpoints(id: string, es: map<string, Endpoint>)
    requires EndpointsFit(Unbound, [], id, es)
    ensures es == map[]
  {
    assert forall k :: k in es ==> Shown(es[k], k, Unbound, id, []);
  }

  /** Nothing is stored yet for the sessions to come. */
  ghost predicate Clean(s: State, n: nat) {
    forall id :: Unused(id, n) ==> SessionOf(s, id).None? && EndpointsOf(s, id) == map[]
  }

  /** The store shows the handler, and to every other session what it showed before. */
  ghost predicate Kept(before: State, s: State, id: string, h: Handler) {
    Tidy(s) && HandlerFits(h, id, s) && forall other :: other != id ==> SameView(before, s, other)
  }

  lemma MoveKept(before: State, s: State, id: string, h: Handler, m: Move, now: nat)
    requires Kept(before, s, id, h) && Plain(id) && Advance(h, m).Some? && now > 0
    ensures Kept(before, Effect(s, h, id, m, now), id, Advance(h, m).value)
  {
    MoveFits(h, m, id, s, now);
    var t := Effect(s, h, id, m, now);
    forall other | other != id ensures SameView(before, t, other) { assert SameView(before, s, other) && SameView(s, t, other); }
  }

  lemma BeginKept(before: State, n: nat, remoteAddr: string, now: nat)
    requires Tidy(before) && Clean(before, n) && now > 0
    ensures Plain(Id(n)) && Kept(before, MarkPending(before, Id(n), remoteAddr, now), Id(n), Handler(Pending, remoteAddr, []))
  {
    ItoaIsPlain(n + 1);
    assert Unused(Id(n), n);
    MoveKept(before, before, Id(n), Handler(Starting, remoteAddr, []), Begin, now);
  }

  lemma BindKept(before: State, s: State, t: State, id: string, remoteAddr: string, ps: seq<ProxyAt>)
    requires Kept(before, s, id, Handler(Unbound, remoteAddr, [])) && BindFits(s, t, id, ps)
    ensures Kept(before, t, id, Handler(Unbound, remoteAddr, ps))
  {
    forall other | other != id ensures SameView(before, t, other) { assert SameView(before, s, other) && SameView(s, t, other); }
  }

  lemma StaysClean(before: State, s: State, n: nat)
    requires Clean(before, n) && forall other :: other != Id(n) ==> SameView(before, s, other)
    ensures Clean(s, n + 1)
  {
    forall id | Unused(id, n + 1) ensures SessionOf(s, id).None? && EndpointsOf(s, id) == map[] {
      assert Unused(id, n) && SameView(before, s, id);
    }
  }

  function LastPhase(outcome: Outcome, died: bool): Phase {
    match outcome
    case Passes => if died then Unbound else Disconnected
    case Fails(message) => Failed(message)
    case Panics => Crashed
  }

  lemma LastStatus(before: State, s: State, id: string, h: Handler)
    requires Kept(before, s, id, h) && !h.phase.Starting?
    ensures SessionOf(s, id).Some?
    ensures SessionOf(s, id).value.status in {SessionFailed, SessionDisconnected} <==> h.phase.Failed? || h.phase.Disconnected?
  {}

  class Server {
    const monitor: MonitorState
    const reverse: bool
    var sessCount: nat

    ghost predicate Valid()
      reads this, monitor
    {
      Tidy(monitor.Current()) && Clean(monitor.Current(), sessCount)
    }

    constructor (reverse: bool)
      ensures Valid() && this.reverse == reverse && sessCount == 0
    {
      this.reverse := reverse;
      sessCount := 0;
      monitor := new MonitorState();
    }

    /** The checks from the upgrade to the last remote. */
    method Negotiate(client: Client) returns (outcome: Outcome)
      ensures IsOutcome(client, reverse, outcome)
      ensures outcome.Passes? ==> client.Connects? && client.first.Request? && client.first.config.Some?
      ensures outcome.Passes? && !reverse ==> Asked(client) == []
    {
      match client {
        case UpgradeFails(message) => return Fails(message);
        case HandshakeFails(message) => return Fails(message);
        case Connects(user, first) =>
          if user == Missing {
            return Panics;
          }
          match first {
            case Silence => return Fails("Timeout waiting for configuration");
            case HangUp => return Panics;
            case Request(name, config) =>
              if name != "config" {
                return Fails(Errorf("expecting config request"));
              }
              if config.None? {
                return Fails(Errorf("invalid config"));
              }
              outcome := CheckRemotes(user, reverse, config.value);
              if outcome.Passes? && !reverse { NothingReversed(user, config.value); }
          }
      }
    }

    /** Accepts a validated session, binds its reversed remotes and waits for them to end. */
    method Serve(
      ghost before: State, id: string, ghost h: Handler, ds: seq<string>, listen: seq<Option<string>>, runs: seq<Option<string>>, now: nat)
      returns (err: Option<string>, ps: seq<ProxyAt>)
      requires Plain(id) && h.phase.Pending? && Kept(before, monitor.Current(), id, h) && now > 0
      requires |listen| == |runs| == |ds| && (ds != [] ==> reverse)
      modifies monitor
      ensures if ds == [] then err == None else BindEnds(ds, listen, runs, ps, err)
      ensures Kept(before, monitor.Current(), id, Handler(Unbound, h.remoteAddr, ps))
    {
      ghost var s := monitor.Current();
      MoveKept(before, s, id, h, Accept([]), now);
      monitor.MarkSessionConnected(id, now);
      assert monitor.Current() == Effect(s, h, id, Accept([]), now);
      err, ps := None, [];
      if ds != [] {
        s := monitor.Current();
        NoEndpoints(id, EndpointsOf(s, id));
        var tunnel := new Tunnel(monitor, id, reverse);
        err, ps := tunnel.BindRemotes(ds, listen, runs, now);
        BindKept(before, s, monitor.Current(), id, h.remoteAddr, ps);
      }
    }

    /** One handler from the first byte to the last. `race` is the run of the tunnel beside a
        BindRemotes that fails or does not. The session ends failed for the first reason there is,
        or disconnected with its endpoints settled, if and only if the client is answerable and the
        tunnel does not end the process. */
    method HandleWebsocket(
      remoteAddr: string, client: Client, listen: nat -> Option<string>, runs: nat -> Option<string>,
      waits: nat, race: bool -> seq<T.Action>, now: nat)
      returns (outcome: Outcome, err: Option<string>, ps: seq<ProxyAt>, died: bool)
      requires Valid() && now > 0
      requires forall failed :: IsRace(Accepted(Asked(client), waits), failed && Asked(client) != [], race(failed))
      modifies this, monitor
      ensures Valid() && sessCount == old(sessCount) + 1
      ensures IsOutcome(client, reverse, outcome)
      ensures Kept(old(monitor.Current()), monitor.Current(), Id(old(sessCount)), Handler(LastPhase(outcome, died), remoteAddr, ps))
      ensures died <==> outcome.Passes? && EndsProcess(Accepted(Asked(client), waits), race(err.Some?))
      ensures SessionOf(monitor.Current(), Id(old(sessCount))).value.status in {SessionFailed, SessionDisconnected}
        <==> Answerable(client, reverse) && !died
      ensures outcome.Passes? && Asked(client) != [] ==>
        var n := |Asked(client)|; BindEnds(Asked(client), seq(n, listen), seq(n, runs), ps, err)
    {
      ghost var before, n := monitor.Current(), sessCount;
      sessCount := sessCount + 1;
      var id := Itoa(sessCount);
      BeginKept(before, n, remoteAddr, now);
      monitor.MarkSessionPending(id, remoteAddr, now);
      outcome := Negotiate(client);
      PanicsUnlessAnswerable(client, reverse, outcome);
      err, ps, died := None, [], false;
      if outcome.Passes? {
        var ds := Asked(client);
        err, ps := Serve(before, id, Handler(Pending, remoteAddr, []), ds, seq(|ds|, listen), seq(|ds|, runs), now);
        died := EndsProcess(Accepted(ds, waits), race(err.Some?));
        Conclude(before, id, Handler(Unbound, remoteAddr, ps), died, now);
      } else {
        Refuse(before, id, Handler(Pending, remoteAddr, []), outcome, now);
      }
      LastStatus(before, monitor.Current(), id, Handler(LastPhase(outcome, died), remoteAddr, ps));
      StaysClean(before, monitor.Current(), n);
    }

    /** A session that does not pass: shown as failed, unless the handler panics. */
    method Refuse(ghost before: State, id: string, ghost h: Handler, outcome: Outcome, now: nat)
      requires Plain(id) && h.phase.Pending? && !outcome.Passes? && Kept(before, monitor.Current(), id, h) && now > 0
      modifies monitor
      ensures Kept(before, monitor.Current(), id, h.(phase := LastPhase(outcome, false)))
    {
      ghost var s := monitor.Current();
      if outcome.Fails? {
        MoveKept(before, s, id, h, Reject(outcome.message), now);
        monitor.MarkSessionFailed(id, outcome.message, now);
      } else {
        MoveKept(before, s, id, h, Crash, now);
      }
    }

    /** The end of a session that was accepted, unless the process has ended before it. */
    method Conclude(ghost before: State, id: string, ghost h: Handler, died: bool, now: nat)
      requires Plain(id) && h.phase.Unbound? && Kept(before, monitor.Current(), id, h) && now > 0
      modifies monitor
      ensures Kept(before, monitor.Current(), id, h.(phase := LastPhase(Passes, died)))
    {
      if !died {
        MoveKept(before, monitor.Current(), id, h, Finish, now);
        monitor.MarkSessionDisconnected(id, now);
      }
    }
  }
}
