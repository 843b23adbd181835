/** The exit node's loop and its table as the program runs them (udpConns, handleWrite and handleUDP
    in share/tunnel/tunnel_out_ssh_udp.go): every method takes the steps of the transition system
    of UdpExit. */
module UdpHandlers {
  import opened Common
  import opened UdpExit

  /** What the network does with one packet: it does not arrive, no socket can be dialled for it,
      or it is written or not. */
  datatype Input = Input(src: Option<string>, reachable: bool, sent: bool)

  /** Whether handleWrite returns an error, given the sources that have an entry. */
  predicate Refused(known: set<string>, x: Input) {
    x.src == None || (x.src.value !in known && !x.reachable) || !x.sent
  }

  /** The steps of one call of handleWrite. */
  function WriteSteps(known: set<string>, x: Input): seq<Action> {
    match x.src
    case None => [DecodeFails]
    case Some(src) =>
      if src !in known && !x.reachable then [DialFails(src)]
      else [Packet(src), Decide] + [if x.sent then WriteOk else WriteFails]
  }

  /** The steps of the loop: each packet in order up to the first that is refused, or all of them
      and then the end of the channel. */
  function LoopSteps(known: set<string>, inputs: seq<Input>): seq<Action>
    decreases |inputs|
  {
    if inputs == [] then [DecodeFails]
    else
      WriteSteps(known, inputs[0])
      + if Refused(known, inputs[0]) then [] else LoopSteps(known + {inputs[0].src.value}, inputs[1..])
  }

  /** Some run of the transition system ends in s. */
  ghost predicate Reachable(s: State) {
    exists schedule :: Run(Step, Init(), schedule) == Some(s)
  }

  lemma RunReaches(s: State, steps: seq<Action>)
    requires Reachable(s) && Run(Step, s, steps).Some?
    ensures Reachable(Run(Step, s, steps).value)
  {
    var schedule :| Run(Step, Init(), schedule) == Some(s);
    RunAppend(Step, Init(), schedule, steps);
  }

  lemma StepReaches(s: State, a: Action)
    requires Reachable(s) && Step(s, a).Some?
    ensures Reachable(Step(s, a).value)
  {
    RunOne(Step, s, a);
    RunReaches(s, [a]);
  }

  lemma ReachableFits(s: State)
    requires Reachable(s)
    ensures Inv(s)
  {
    var schedule :| Run(Step, Init(), schedule) == Some(s);
    AlwaysInv(schedule);
  }

  lemma DecideRuns(s: State) returns (end: State)
    requires Inv(s) && s.main.Dialed?
    ensures Step(s, Decide) == Some(end) && Inv(end) && end.main.Writing? && end.main.conn.socket < |end.written|
    ensures end.table == s.table && end.owners == s.owners && end.closed == s.closed
    ensures |end.readers| == |s.readers| + (if !s.main.existed && |s.table| <= MAX_CONNS then 1 else 0)
  {
    end := DecideStep(s, s.main.src, s.main.conn, s.main.existed);
    DecideKeeps(s);
  }

  lemma LastRuns(s: State, sent: bool) returns (end: State)
    requires Inv(s) && s.main.Writing? && s.main.conn.socket < |s.written|
    ensures Step(s, if sent then WriteOk else WriteFails) == Some(end) && Inv(end) && end.main == if sent then Ready else Failing
    ensures end.table == s.table && end.owners == s.owners && end.closed == s.closed && end.readers == s.readers
  {
    var last := if sent then WriteOk else WriteFails;
    end := Step(s, last).value;
    MainKeeps(s, last);
  }

  /** The steps of handleWrite after its dial. */
  lemma WriteRuns(s: State, s1: State, src: string, sent: bool) returns (end: State)
    requires s.main == Ready && Step(s, Packet(src)) == Some(s1) && Reachable(s)
    ensures Run(Step, s, [Packet(src), Decide] + [if sent then WriteOk else WriteFails]) == Some(end)
    ensures Reachable(end) && end.table == s1.table && end.owners == s1.owners && end.closed == s1.closed
    ensures end.main == if sent then Ready else Failing
    ensures |end.readers| == |s1.readers| + (if !s1.main.existed && |s1.table| <= MAX_CONNS then 1 else 0)
  {
    var last := if sent then WriteOk else WriteFails;
    StepReaches(s, Packet(src));
    ReachableFits(s1);
    var s2 := DecideRuns(s1);
    end := LastRuns(s2, sent);
    RunTwo(Step, s, Packet(src), Decide);
    RunOne(Step, s2, last);
    RunAppend(Step, s, [Packet(src), Decide], [last]);
    RunReaches(s, [Packet(src), Decide] + [last]);
  }

  /** The packet of turn i, or the end of the channel. */
  function Packets(inputs: seq<Input>, i: nat): Input {
    if i < |inputs| then inputs[i] else Input(None, false, false)
  }

  /** The steps of the loop from its turn i. */
  function StepsFrom(known: set<string>, inputs: seq<Input>, i: nat): seq<Action>
    requires i <= |inputs|
  {
    LoopSteps(known, inputs[i..])
  }

  lemma TurnUnfolds(known: set<string>, inputs: seq<Input>, i: nat)
    requires i <= |inputs|
    ensures var x := Packets(inputs, i);
      if Refused(known, x) then StepsFrom(known, inputs, i) == WriteSteps(known, x)
      else i < |inputs| && StepsFrom(known, inputs, i) == WriteSteps(known, x) + StepsFrom(known + {x.src.value}, inputs, i + 1)
  {
    if i < |inputs| { assert inputs[i..][1..] == inputs[i + 1..]; }
  }

  lemma Regroup(a: seq<Action>, b: seq<Action>, c: seq<Action>)
    ensures a + (b + c) == (a + b) + c
  {}

  /** One turn of the loop, seen from all its steps. */
  lemma NextTurn(all: seq<Action>, steps: seq<Action>, known: set<string>, after: set<string>, inputs: seq<Input>, i: nat, ok: bool)
    requires i <= |inputs| && all == steps + StepsFrom(known, inputs, i)
    requires ok <==> !Refused(known, Packets(inputs, i))
    requires ok ==> after == known + {Packets(inputs, i).src.value}
    ensures ok ==> i < |inputs|
    ensures ok ==> all == (steps + WriteSteps(known, Packets(inputs, i))) + StepsFrom(after, inputs, i + 1)
    ensures !ok ==> all == steps + WriteSteps(known, Packets(inputs, i))
  {
    TurnUnfolds(known, inputs, i);
    if ok { Regroup(steps, WriteSteps(known, Packets(inputs, i)), StepsFrom(after, inputs, i + 1)); }
  }

  lemma CloseRuns(first: State, steps: seq<Action>, s: State)
    requires Run(Step, first, steps) == Some(s)
    ensures Run(Step, first, steps + [CloseAll]) == Step(s, CloseAll)
  {
    RunAppend(Step, first, steps, [CloseAll]);
    RunOne(Step, s, CloseAll);
  }

  class UdpConns {
    var m: Table
    var sockets: nat
    var closed: set<nat>
    ghost var state: State

    ghost predicate Valid()
      reads this
    {
      Reachable(state) && state.table == m && |state.owners| == sockets && state.closed == closed
    }

    constructor ()
      ensures Valid() && state == Init()
    {
      m, sockets, closed := map[], 0, {};
      state := Init();
      new;
      assert Run(Step, Init(), []) == Some(state);
    }

    /** `reachable` is the outcome of net.Dial when a socket is needed. */
    method Dial(id: string, reachable: bool) returns (conn: Option<Conn>, existed: bool)
      requires Valid() && state.main == Ready
      modifies this
      ensures Valid() && Some(state) == Step(old(state), if conn.Some? then Packet(id) else DialFails(id))
      ensures existed <==> id in old(m)
      ensures conn.Some? ==> m.Keys == old(m).Keys + {id}
      ensures if existed || reachable then conn.Some? && state.main == Dialed(id, conn.value, existed) else conn.None?
    {
      ghost var a := if id in m || reachable then Packet(id) else DialFails(id);
      StepReaches(state, a);
      state := Step(state, a).value;
      existed := id in m;
      if existed {
        conn := Some(m[id]);
      } else if reachable {
        conn := Some(Conn(id, sockets));
        sockets := sockets + 1;
        m := m[id := conn.value];
      } else {
        conn := None;
      }
    }

    method Len() returns (n: nat)
      requires Valid()
      ensures n == |state.table|
    {
      n := |m|;
    }

    /** The end of reader i, which calls it with the id of its connection. */
    method Delete(id: string, ghost i: nat)
      requires Valid() && Step(state, Remove(i)).Some? && state.readers[i].conn.id == id
      modifies this
      ensures Valid() && Some(state) == Step(old(state), Remove(i))
    {
      StepReaches(state, Remove(i));
      state := Step(state, Remove(i)).value;
      m := m - {id};
    }

    /** Every connection that is in the table is closed, and the table is empty. */
    method Shut()
      requires Valid() && state.main == Failing
      modifies this
      ensures Valid() && Some(state) == Step(old(state), CloseAll)
    {
      CloseEntries();
      StepReaches(state, CloseAll);
      state := Step(state, CloseAll).value;
    }

    method CloseEntries()
      modifies `m, `closed
      ensures m == map[] && closed == old(closed) + Sockets(old(m))
    {
      while m.Keys != {}
        invariant forall id :: id in m ==> id in old(m) && m[id] == old(m)[id]
        invariant forall k :: k in closed <==> k in old(closed) || exists id :: id in old(m) && id !in m && old(m)[id].socket == k
        decreases |m|
      {
        var id :| id in m.Keys;
        closed := closed + {m[id].socket};
        ghost var before := m;
        m := m - {id};
        assert m.Keys == before.Keys - {id};
      }
    }

    /** One packet: dial, start a reader when the entry is new and there is room, write. */
    method HandleWrite(x: Input) returns (ok: bool, starts: bool)
      requires Valid() && state.main == Ready
      modifies this
      ensures Valid() && Run(Step, old(state), WriteSteps(old(m).Keys, x)) == Some(state)
      ensures state.main == if ok then Ready else Failing
      ensures ok <==> !Refused(old(m).Keys, x)
      ensures ok ==> m.Keys == old(m).Keys + {x.src.value}
      ensures |state.readers| == |old(state.readers)| + (if starts then 1 else 0)
    {
      if x.src == None {
        StepReaches(state, DecodeFails);
        RunOne(Step, state, DecodeFails);
        state := Step(state, DecodeFails).value;
        return false, false;
      }
      ok, starts := HandlePacket(x.src.value, x.reachable, x.sent);
    }

    method HandlePacket(src: string, reachable: bool, sent: bool) returns (ok: bool, starts: bool)
      requires Valid() && state.main == Ready
      modifies this
      ensures Valid() && Run(Step, old(state), WriteSteps(old(m).Keys, Input(Some(src), reachable, sent))) == Some(state)
      ensures state.main == if ok then Ready else Failing
      ensures ok <==> (src in old(m) || reachable) && sent
      ensures ok ==> m.Keys == old(m).Keys + {src}
      ensures |state.readers| == |old(state.readers)| + (if starts then 1 else 0)
    {
      starts := false;
      var conn, existed := Dial(src, reachable);
      if conn == None {
        RunOne(Step, old(state), DialFails(src));
        return false, false;
      }
      if !existed {
        var n := Len();
        starts := n <= MAX_CONNS;
      }
      state := WriteRuns(old(state), state, src, sent);
      ok := sent;
    }

    /** The loop over the packets that arrive before the channel ends, and the deferred closing. */
    method HandleUDP(inputs: seq<Input>)
      requires Valid() && state.main == Ready
      modifies this
      ensures Valid() && state.main == Stopped && m == map[]
      ensures Run(Step, old(state), LoopSteps(old(m).Keys, inputs) + [CloseAll]) == Some(state)
    {
      ghost var first, all, steps := state, StepsFrom(m.Keys, inputs, 0), [];
      assert inputs[0..] == inputs;
      var i, ok := 0, true;
      while ok
        invariant i <= |inputs| + 1 && (ok ==> i <= |inputs|)
        invariant Valid() && state.main == if ok then Ready else Failing
        invariant Run(Step, first, steps) == Some(state)
        invariant ok ==> all == steps + StepsFrom(m.Keys, inputs, i)
        invariant !ok ==> all == steps
        decreases |inputs| + 1 - i
      {
        ghost var s, known, turn := state, m.Keys, WriteSteps(m.Keys, Packets(inputs, i));
        var starts;
        ok, starts := HandleWrite(Packets(inputs, i));
        NextTurn(all, steps, known, m.Keys, inputs, i, ok);
        RunAppend(Step, first, steps, turn);
        steps := steps + turn;
        i := i + 1;
      }
      CloseRuns(first, steps, state);
      Shut();
    }
  }
}
