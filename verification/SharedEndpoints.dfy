/** Proxies of one handler that have the same descriptor share one endpoint record
    (server/monitor_state.go, share/tunnel/tunnel_in_proxy.go): when the record of a proxy shows
    where that proxy stands. */
module SharedEndpoints {
  import opened Common
  import opened Monitor
  import opened SessionLifecycle
  import opened SessionProgress

  /** The record of one proxy is there when the proxy is, with the status and the error that the
      proxy is in. */
  ghost predicate Mirrored(x: System, h: nat, i: nat)
    requires h < |x.handlers| && i < |x.handlers[h].proxies|
  {
    var p, key := x.handlers[h].proxies[i], Key(Id(h), x.handlers[h].proxies[i].descriptor);
    && (key in x.store.endpoints <==> !p.stage.Absent?)
    && (!p.stage.Absent? ==> x.store.endpoints[key].status == Expected(x.handlers[h].phase, p.stage))
    && (!p.stage.Absent? ==> x.store.endpoints[key].lastError == LastError(p.stage))
  }

  /** Both proxies look the same in the monitor. */
  predicate Alike(phase: Phase, a: Stage, b: Stage) {
    if a.Absent? || b.Absent? then a == b else Expected(phase, a) == Expected(phase, b) && LastError(a) == LastError(b)
  }

  /** The proxies that share the descriptor of proxy i all look the same in the monitor. */
  predicate TwinsAlike(hd: Handler, i: nat)
    requires i < |hd.proxies|
  {
    forall j :: 0 <= j < |hd.proxies| && hd.proxies[j].descriptor == hd.proxies[i].descriptor
      ==> Alike(hd.phase, hd.proxies[i].stage, hd.proxies[j].stage)
  }

  /** In every run the record of a descriptor shows all its proxies if and only if they look the
      same; so it always does for a descriptor that only one proxy has. */
  lemma EndpointMirrorsProxy(schedule: seq<Action>, h: nat, i: nat)
    requires Run(Step, Start, schedule).Some?
    requires var x := Run(Step, Start, schedule).value; h < |x.handlers| && i < |x.handlers[h].proxies|
    ensures var x := Run(Step, Start, schedule).value;
      var ps := x.handlers[h].proxies;
      (forall j :: 0 <= j < |ps| && ps[j].descriptor == ps[i].descriptor ==> Mirrored(x, h, j)) <==> TwinsAlike(x.handlers[h], i)
  {
    AlwaysFits(schedule);
    var x := Run(Step, Start, schedule).value;
    var ps := x.handlers[h].proxies;
    if TwinsAlike(x.handlers[h], i) {
      forall j | 0 <= j < |ps| && ps[j].descriptor == ps[i].descriptor ensures Mirrored(x, h, j) { AlikeMirrors(x, h, i, j); }
    }
  }

  lemma AlikeMirrors(x: System, h: nat, i: nat, j: nat)
    requires Inv(x) && h < |x.handlers| && i < |x.handlers[h].proxies| && j < |x.handlers[h].proxies|
    requires TwinsAlike(x.handlers[h], i) && x.handlers[h].proxies[j].descriptor == x.handlers[h].proxies[i].descriptor
    ensures Mirrored(x, h, j)
  {
    var hd, id := x.handlers[h], Id(h);
    var key := Key(id, hd.proxies[i].descriptor);
    assert HandlerFits(hd, id, x.store);
    assert Alike(hd.phase, hd.proxies[i].stage, hd.proxies[j].stage);
    if key in x.store.endpoints {
      var e := x.store.endpoints[key];
      ItoaIsPlain(h + 1);
      KeyInjective(e.sessionId, e.descriptor, id, hd.proxies[i].descriptor);
      var g, k := OwnerOf(x, key);
      IdInjective(g, h);
      assert Alike(hd.phase, hd.proxies[i].stage, hd.proxies[k].stage);
    } else {
      assert EndpointsFit(hd.phase, hd.proxies, id, EndpointsOf(x.store, id));
    }
  }

  /** The moves that report an event of a proxy, with its number. */
  predicate ReportsOn(m: Move, i: nat) {
    match m
    case Create(k) => k == i
    case ListenFails(k, _) => k == i
    case ListenOk(k) => k == i
    case End(k) => k == i
    case _ => false
  }

  lemma EventMoves(hd: Handler, m: Move, i: nat)
    requires Advance(hd, m).Some? && ReportsOn(m, i)
    ensures var hd' := Advance(hd, m).value;
      && i < |hd.proxies| == |hd'.proxies| && !hd'.proxies[i].stage.Absent?
      && hd'.proxies == hd.proxies[i := ProxyAt(hd.proxies[i].descriptor, hd'.proxies[i].stage)]
      && !hd.phase.Disconnected? && !hd'.phase.Disconnected?
  {}

  /** After any event of proxy i its own record is right, and that of another proxy is right if
      and only if it has another descriptor and was right, or it is there and looks like i. */
  lemma EventMirrors(x: System, h: nat, m: Move, i: nat, j: nat, now: nat)
    requires Inv(x) && Step(x, Act(h, m, now)).Some? && ReportsOn(m, i)
    requires j < |x.handlers[h].proxies| && j != i
    ensures var y := Step(x, Act(h, m, now)).value;
      var ps := y.handlers[h].proxies;
      && |ps| == |x.handlers[h].proxies|
      && Mirrored(y, h, i)
      && (Mirrored(y, h, j) <==>
          if ps[i].descriptor == ps[j].descriptor then Alike(y.handlers[h].phase, ps[i].stage, ps[j].stage)
          else Mirrored(x, h, j))
  {
    var y := Step(x, Act(h, m, now)).value;
    EventMoves(x.handlers[h], m, i);
    EventWrites(x, h, m, i, now);
    if y.handlers[h].proxies[i].descriptor != y.handlers[h].proxies[j].descriptor {
      OtherRecordStays(x, y, h, i, j);
    }
  }

  /** The record of the proxy's descriptor after an event of it; the other records are as before. */
  lemma EventWrites(x: System, h: nat, m: Move, i: nat, now: nat)
    requires Step(x, Act(h, m, now)).Some? && ReportsOn(m, i)
    ensures var y := Step(x, Act(h, m, now)).value;
      i < |y.handlers[h].proxies| && !y.handlers[h].proxies[i].stage.Absent? && Written(x, y, h, i)
  {
    EventMoves(x.handlers[h], m, i);
    EventUpdates(x.store, x.handlers[h], Id(h), m, i, now);
  }

  lemma EventUpdates(s: State, hd: Handler, id: string, m: Move, i: nat, now: nat)
    requires Advance(hd, m).Some? && ReportsOn(m, i)
    ensures var hd' := Advance(hd, m).value;
      && i < |hd'.proxies| && !hd'.proxies[i].stage.Absent?
      && Effect(s, hd, id, m, now)
         == UpdateEndpoint(s, id, hd'.proxies[i].descriptor, Expected(hd'.phase, hd'.proxies[i].stage), LastError(hd'.proxies[i].stage), now)
  {
    EventMoves(hd, m, i);
  }

  ghost predicate Written(x: System, y: System, h: nat, i: nat)
    requires h < |y.handlers| && i < |y.handlers[h].proxies| && !y.handlers[h].proxies[i].stage.Absent?
  {
    var p := y.handlers[h].proxies[i];
    var key := Key(Id(h), p.descriptor);
    && key in y.store.endpoints
    && y.store.endpoints[key].status == Expected(y.handlers[h].phase, p.stage) && y.store.endpoints[key].lastError == LastError(p.stage)
    && forall k :: k != key ==> (k in y.store.endpoints <==> k in x.store.endpoints)
                                && (k in y.store.endpoints ==> y.store.endpoints[k] == x.store.endpoints[k])
  }

  lemma OtherRecordStays(x: System, y: System, h: nat, i: nat, j: nat)
    requires h < |x.handlers| && h < |y.handlers| && i < |y.handlers[h].proxies| && j < |y.handlers[h].proxies| == |x.handlers[h].proxies|
    requires !y.handlers[h].proxies[i].stage.Absent? && Written(x, y, h, i)
    requires y.handlers[h].proxies[j] == x.handlers[h].proxies[j]
    requires !x.handlers[h].phase.Disconnected? && !y.handlers[h].phase.Disconnected?
    requires y.handlers[h].proxies[i].descriptor != y.handlers[h].proxies[j].descriptor
    ensures Mirrored(y, h, j) <==> Mirrored(x, h, j)
  {
    var id, d, e := Id(h), y.handlers[h].proxies[i].descriptor, y.handlers[h].proxies[j].descriptor;
    ItoaIsPlain(h + 1);
    if Key(id, d) == Key(id, e) { KeyInjective(id, d, id, e); }
  }

  function Twins(phase: Phase, remoteAddr: string, d: string, a: Stage, b: Stage): Handler {
    Handler(phase, remoteAddr, [ProxyAt(d, a), ProxyAt(d, b)])
  }

  const BUILD_TWO := [Create(0), ListenOk(0)] + [Create(1), ListenOk(1)]

  lemma {:induction false} MoveAllAppend(h: Handler, first: seq<Move>, rest: seq<Move>)
    ensures MoveAll(h, first + rest) == match MoveAll(h, first) case None => None case Some(h') => MoveAll(h', rest)
    decreases |first|
  {
    if first == [] {
      assert first + rest == rest;
    } else {
      assert (first + rest)[0] == first[0] && (first + rest)[1..] == first[1..] + rest;
      if Advance(h, first[0]).Some? { MoveAllAppend(Advance(h, first[0]).value, first[1..], rest); }
    }
  }

  lemma MoveTwo(h: Handler, a: Move, b: Move)
    ensures MoveAll(h, [a, b]) == match Advance(h, a) case None => None case Some(h') => Advance(h', b)
  {
    assert [a, b][1..] == [b] && [b][1..] == [];
    if Advance(h, a).Some? && Advance(Advance(h, a).value, b).Some? {
      assert MoveAll(Advance(h, a).value, [b]) == MoveAll(Advance(Advance(h, a).value, b).value, []);
    }
  }

  lemma TwinsUpdate(d: string, a: Stage, b: Stage, c: Stage)
    ensures [ProxyAt(d, a), ProxyAt(d, b)][0 := ProxyAt(d, c)] == [ProxyAt(d, c), ProxyAt(d, b)]
    ensures [ProxyAt(d, a), ProxyAt(d, b)][1 := ProxyAt(d, c)] == [ProxyAt(d, a), ProxyAt(d, c)]
  {}

  lemma TwinsAreBuilt(remoteAddr: string, d: string)
    ensures MoveAll(Handler(Starting, remoteAddr, []), [Begin, Accept([d, d])] + BUILD_TWO) == Some(Twins(Running, remoteAddr, d, Built, Built))
  {
    var h0, h1 := Handler(Starting, remoteAddr, []), Handler(Pending, remoteAddr, []);
    var h2 := Twins(Building, remoteAddr, d, Absent, Absent);
    assert Advance(h1, Accept([d, d])).value.proxies == [ProxyAt(d, Absent), ProxyAt(d, Absent)];
    MoveTwo(h0, Begin, Accept([d, d]));
    MoveAllAppend(h0, [Begin, Accept([d, d])], BUILD_TWO);
    MoveAllAppend(h2, [Create(0), ListenOk(0)], [Create(1), ListenOk(1)]);
    MoveTwo(h2, Create(0), ListenOk(0));
    TwinsUpdate(d, Absent, Absent, Listening);
    TwinsUpdate(d, Listening, Absent, Built);
    TwinsUpdate(d, Built, Absent, Listening);
    TwinsUpdate(d, Built, Listening, Built);
    assert Advance(h2, Create(0)) == Some(Twins(Building, remoteAddr, d, Listening, Absent));
    var h3 := Twins(Building, remoteAddr, d, Built, Absent);
    assert Advance(Twins(Building, remoteAddr, d, Listening, Absent), ListenOk(0)) == Some(h3);
    MoveTwo(h3, Create(1), ListenOk(1));
    assert Advance(h3, Create(1)) == Some(Twins(Building, remoteAddr, d, Built, Listening));
    assert Advance(Twins(Building, remoteAddr, d, Built, Listening), ListenOk(1)) == Some(Twins(Running, remoteAddr, d, Built, Built));
  }

  /** It happens: two proxies of one descriptor are built, one returns, and the record of the
      other is wrong while that runs on. */
  lemma TwinIsHidden(remoteAddr: string, d: string)
    ensures var run := Run(Step, Start, [Enter(remoteAddr)] + (Acts(0, [Begin, Accept([d, d])] + BUILD_TWO) + [Act(0, End(0), 1)]));
      && run.Some? && run.value.handlers == [Twins(Running, remoteAddr, d, Ended, Built)]
      && Mirrored(run.value, 0, 0) && !Mirrored(run.value, 0, 1)
  {
    var enter, built, end := [Enter(remoteAddr)], Acts(0, [Begin, Accept([d, d])] + BUILD_TWO), Act(0, End(0), 1);
    var first := Step(Start, enter[0]).value;
    RunOne(Step, Start, enter[0]);
    RunAppend(Step, Start, enter, built + [end]);
    RunAppend(Step, Start, enter, built);
    RunAppend(Step, first, built, [end]);
    TwinsAreBuilt(remoteAddr, d);
    assert first.handlers == [Handler(Starting, remoteAddr, [])];
    MovesAreARun(first, 0, [Begin, Accept([d, d])] + BUILD_TWO);
    var x := Run(Step, first, built).value;
    assert x.handlers == [Twins(Running, remoteAddr, d, Built, Built)];
    AlwaysFits(enter + built);
    HideTwin(x, remoteAddr, d);
    RunOne(Step, x, end);
  }

  lemma HideTwin(x: System, remoteAddr: string, d: string)
    requires Inv(x) && x.handlers == [Twins(Running, remoteAddr, d, Built, Built)]
    ensures var y := Step(x, Act(0, End(0), 1));
      && y.Some? && y.value.handlers == [Twins(Running, remoteAddr, d, Ended, Built)]
      && Mirrored(y.value, 0, 0) && !Mirrored(y.value, 0, 1)
  {
    var h := x.handlers[0];
    TwinsUpdate(d, Built, Built, Ended);
    assert Advance(h, End(0)) == Some(Twins(Running, remoteAddr, d, Ended, Built));
    EventMirrors(x, 0, End(0), 0, 1, 1);
  }
}
