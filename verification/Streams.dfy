/** The stream events of one proxy (share/tunnel/tunnel_in_proxy.go): any number of pipeRemote
    goroutines number themselves under the proxy's lock and report what becomes of them. */
module Streams {
  import opened Common

  datatype Kind = Open | Error | Closed

  datatype Event = Event(kind: Kind, id: nat)

  /** Where one goroutine stands: spawned, numbered, open, or finished. */
  datatype Stream = Fresh | Numbered(id: nat) | Opening(id: nat) | Finished(id: nat, failed: bool)

  datatype State = State(count: nat, streams: seq<Stream>, log: seq<Event>)

  datatype Action =
    | Spawn                              // the accept loop starts a goroutine
    | Number(t: nat)                     // count++ and its copy, under the lock
    | Report(t: nat)                     // the open event
    | End(t: nat, failed: bool)          // the remote side cannot be opened, or the pipe has ended

  const Start := State(0, [], [])

  function Step(s: State, a: Action): Option<State> {
    match a
    case Spawn => Some(s.(streams := s.streams + [Fresh]))
    case Number(t) =>
      if t < |s.streams| && s.streams[t].Fresh? then
        Some(s.(count := s.count + 1, streams := s.streams[t := Numbered(s.count + 1)]))
      else None
    case Report(t) =>
      if t < |s.streams| && s.streams[t].Numbered? then
        var id := s.streams[t].id;
        Some(s.(streams := s.streams[t := Opening(id)], log := s.log + [Event(Open, id)]))
      else None
    case End(t, failed) =>
      if t < |s.streams| && s.streams[t].Opening? then
        var id := s.streams[t].id;
        Some(s.(streams := s.streams[t := Finished(id, failed)], log := s.log + [Event(if failed then Error else Closed, id)]))
      else None
  }

  /** The events of one id, in order. */
  function EventsOf(log: seq<Event>, id: nat): seq<Kind> {
    if log == [] then []
    else
      var last := log[|log| - 1];
      EventsOf(log[..|log| - 1], id) + (if last.id == id then [last.kind] else [])
  }

  /** What a stream at this point has reported. */
  function Trace(x: Stream): seq<Kind> {
    match x
    case Fresh => []
    case Numbered(_) => []
    case Opening(_) => [Open]
    case Finished(_, failed) => [Open, if failed then Error else Closed]
  }

  ghost predicate StreamFits(s: State, x: Stream) {
    !x.Fresh? ==> 1 <= x.id <= s.count && EventsOf(s.log, x.id) == Trace(x)
  }

  ghost predicate Owned(s: State, id: nat) {
    exists t :: 0 <= t < |s.streams| && !s.streams[t].Fresh? && s.streams[t].id == id
  }

  ghost predicate Separate(streams: seq<Stream>) {
    forall t, u :: 0 <= t < u < |streams| && !streams[t].Fresh? && !streams[u].Fresh? ==> streams[t].id != streams[u].id
  }

  ghost predicate Inv(s: State) {
    && (forall t :: 0 <= t < |s.streams| ==> StreamFits(s, s.streams[t]))
    && Separate(s.streams)
    && (forall id: nat :: 1 <= id <= s.count ==> Owned(s, id))
    && (forall id: nat :: id == 0 || id > s.count ==> EventsOf(s.log, id) == [])
  }

  lemma EventsOfAppend(log: seq<Event>, e: Event)
    ensures forall id :: EventsOf(log + [e], id) == if e.id == id then EventsOf(log, id) + [e.kind] else EventsOf(log, id)
  {
    assert (log + [e])[..|log|] == log;
  }

  lemma OwnedStays(s: State, s': State, t: nat, id: nat)
    requires Owned(s, id) && t < |s.streams| && |s'.streams| == |s.streams|
    requires s'.streams == s.streams[t := s'.streams[t]] && !s'.streams[t].Fresh?
    requires s.streams[t].Fresh? || s.streams[t].id == s'.streams[t].id
    ensures Owned(s', id)
  {
    var u :| 0 <= u < |s.streams| && !s.streams[u].Fresh? && s.streams[u].id == id;
    assert s'.streams[u].id == id;
  }

  lemma SpawnKeepsInv(s: State)
    requires Inv(s)
    ensures Inv(Step(s, Spawn).value)
  {
    var s' := Step(s, Spawn).value;
    forall id: nat | 1 <= id <= s.count ensures Owned(s', id) {
      assert Owned(s, id);
      var u :| 0 <= u < |s.streams| && !s.streams[u].Fresh? && s.streams[u].id == id;
      assert s'.streams[u].id == id;
    }
  }

  lemma NumberKeepsInv(s: State, t: nat)
    requires Inv(s) && Step(s, Number(t)).Some?
    ensures Inv(Step(s, Number(t)).value)
  {
    var s' := Step(s, Number(t)).value;
    forall id: nat | 1 <= id <= s'.count ensures Owned(s', id) {
      if id <= s.count { OwnedStays(s, s', t, id); } else { assert s'.streams[t].id == id; }
    }
    forall u | 0 <= u < |s'.streams| ensures StreamFits(s', s'.streams[u]) {
      assert StreamFits(s, s.streams[u]);
    }
  }

  /** A stream that reports goes on to x, whose trace is one event longer. */
  lemma EventKeepsInv(s: State, t: nat, x: Stream, e: Event)
    requires Inv(s) && t < |s.streams| && !s.streams[t].Fresh? && !x.Fresh? && x.id == s.streams[t].id == e.id
    requires Trace(x) == Trace(s.streams[t]) + [e.kind]
    ensures Inv(State(s.count, s.streams[t := x], s.log + [e]))
  {
    var s' := State(s.count, s.streams[t := x], s.log + [e]);
    forall id: nat | 1 <= id <= s'.count ensures Owned(s', id) { OwnedStays(s, s', t, id); }
    forall u | 0 <= u < |s'.streams| ensures StreamFits(s', s'.streams[u]) {
      EventKeepsStream(s, t, u, x, e);
    }
    forall id: nat | id == 0 || id > s'.count ensures EventsOf(s'.log, id) == [] {
      EventOfOther(s, t, e, id);
    }
    SameIdsSeparate(s.streams, t, x);
  }

  lemma SameIdsSeparate(streams: seq<Stream>, t: nat, x: Stream)
    requires Separate(streams) && t < |streams| && !streams[t].Fresh? && !x.Fresh? && x.id == streams[t].id
    ensures Separate(streams[t := x])
  {}

  lemma EventOfOther(s: State, t: nat, e: Event, id: nat)
    requires Inv(s) && t < |s.streams| && !s.streams[t].Fresh? && e.id == s.streams[t].id && (id == 0 || id > s.count)
    ensures EventsOf(s.log + [e], id) == []
  {
    EventsOfAppend(s.log, e);
    assert StreamFits(s, s.streams[t]);
  }

  lemma EventKeepsStream(s: State, t: nat, u: nat, x: Stream, e: Event)
    requires Inv(s) && t < |s.streams| && !s.streams[t].Fresh? && !x.Fresh? && x.id == s.streams[t].id == e.id
    requires Trace(x) == Trace(s.streams[t]) + [e.kind] && u < |s.streams|
    ensures StreamFits(State(s.count, s.streams[t := x], s.log + [e]), s.streams[t := x][u])
  {
    EventsOfAppend(s.log, e);
    assert StreamFits(s, s.streams[t]) && StreamFits(s, s.streams[u]);
  }

  lemma StepKeepsInv(s: State, a: Action)
    requires Inv(s) && Step(s, a).Some?
    ensures Inv(Step(s, a).value)
  {
    match a {
      case Spawn => SpawnKeepsInv(s);
      case Number(t) => NumberKeepsInv(s, t);
      case Report(t) => EventKeepsInv(s, t, Opening(s.streams[t].id), Event(Open, s.streams[t].id));
      case End(t, failed) =>
        EventKeepsInv(s, t, Finished(s.streams[t].id, failed), Event(if failed then Error else Closed, s.streams[t].id));
    }
  }

  lemma AlwaysInv(schedule: seq<Action>)
    requires Run(Step, Start, schedule).Some?
    ensures Inv(Run(Step, Start, schedule).value)
  {
    forall s, a | Inv(s) && Step(s, a).Some? ensures Inv(Step(s, a).value) { StepKeepsInv(s, a); }
    RunKeeps(Step, (s: State) => Inv(s), Start, schedule);
  }

  lemma {:induction false} EventCount(log: seq<Event>, kind: Kind, id: nat)
    ensures multiset(log)[Event(kind, id)] == multiset(EventsOf(log, id))[kind]
  {
    if log != [] {
      EventCount(log[..|log| - 1], kind, id);
      assert log == log[..|log| - 1] + [log[|log| - 1]];
    }
  }

  /** In every interleaving: the numbers given out are 1 to count, each to one stream, and the
      log holds of each number just what its stream has reported. */
  lemma EveryNumberHasOneTrace(schedule: seq<Action>, id: nat)
    requires Run(Step, Start, schedule).Some?
    ensures var s := Run(Step, Start, schedule).value;
      if 1 <= id <= s.count then
        exists t :: 0 <= t < |s.streams| && !s.streams[t].Fresh? && s.streams[t].id == id && EventsOf(s.log, id) == Trace(s.streams[t])
          && forall u :: 0 <= u < |s.streams| && u != t && !s.streams[u].Fresh? ==> s.streams[u].id != id
      else EventsOf(s.log, id) == []
  {
    var s := Run(Step, Start, schedule).value;
    AlwaysInv(schedule);
    if 1 <= id <= s.count {
      assert Owned(s, id);
      var t :| 0 <= t < |s.streams| && !s.streams[t].Fresh? && s.streams[t].id == id;
      assert StreamFits(s, s.streams[t]);
    }
  }

  /** When every stream has finished, the log opens each of 1 to count once and nothing else,
      and ends each of them once, with an error or with a close. */
  lemma FinishedLogIsExact(schedule: seq<Action>, id: nat)
    requires Run(Step, Start, schedule).Some?
    requires forall x :: x in Run(Step, Start, schedule).value.streams ==> x.Finished?
    ensures var s := Run(Step, Start, schedule).value;
      var opens := multiset(s.log)[Event(Open, id)];
      && opens == (if 1 <= id <= s.count then 1 else 0)
      && multiset(s.log)[Event(Error, id)] + multiset(s.log)[Event(Closed, id)] == opens
  {
    var s := Run(Step, Start, schedule).value;
    EveryNumberHasOneTrace(schedule, id);
    EventCount(s.log, Open, id);
    EventCount(s.log, Error, id);
    EventCount(s.log, Closed, id);
    if 1 <= id <= s.count {
      var t :| 0 <= t < |s.streams| && !s.streams[t].Fresh? && EventsOf(s.log, id) == Trace(s.streams[t]);
      assert s.streams[t] in s.streams;
      TraceCounts(s.streams[t]);
    }
  }

  lemma TraceCounts(x: Stream)
    requires x.Finished?
    ensures multiset(Trace(x))[Open] == 1 && multiset(Trace(x))[Error] + multiset(Trace(x))[Closed] == 1
  {
    assert multiset(Trace(x)) == multiset{Open, if x.failed then Error else Closed};
  }

  lemma AloneNumbered(s: State)
    requires Inv(s)
    ensures Inv(State(s.count + 1, s.streams + [Numbered(s.count + 1)], s.log))
  {
    var s1 := Step(s, Spawn).value;
    SpawnKeepsInv(s);
    NumberKeepsInv(s1, |s.streams|);
    assert s1.streams[|s.streams| := Numbered(s.count + 1)] == s.streams + [Numbered(s.count + 1)];
  }

  lemma AloneReports(count: nat, streams: seq<Stream>, log: seq<Event>, x: Stream, y: Stream, e: Event)
    requires Inv(State(count, streams + [x], log))
    requires !x.Fresh? && !y.Fresh? && y.id == x.id == e.id && Trace(y) == Trace(x) + [e.kind]
    ensures Inv(State(count, streams + [y], log + [e]))
  {
    EventKeepsInv(State(count, streams + [x], log), |streams|, y, e);
    assert (streams + [x])[|streams| := y] == streams + [y];
  }

  /** One stream that runs alone. */
  lemma AloneKeepsInv(s: State, failed: bool)
    requires Inv(s)
    ensures var cid := s.count + 1;
      Inv(State(cid, s.streams + [Finished(cid, failed)], s.log + [Event(Open, cid)] + [Event(if failed then Error else Closed, cid)]))
  {
    var cid := s.count + 1;
    AloneNumbered(s);
    AloneReports(cid, s.streams, s.log, Numbered(cid), Opening(cid), Event(Open, cid));
    AloneReports(cid, s.streams, s.log + [Event(Open, cid)], Opening(cid), Finished(cid, failed), Event(if failed then Error else Closed, cid));
  }

  /** The proxy as an object; its goroutines run one after the other here. */
  class Proxy {
    var count: nat
    var log: seq<Event>
    ghost var streams: seq<Stream>

    ghost function Current(): State
      reads this
    {
      State(count, streams, log)
    }

    constructor ()
      ensures Current() == Start && Inv(Current())
    {
      count, log, streams := 0, [], [];
    }

    /** One stream from its start to its end. */
    method PipeRemote(opens: bool)
      requires Inv(Current())
      modifies this
      ensures Inv(Current())
      ensures count == old(count) + 1 && log == old(log) + [Event(Open, count)] + [Event(if opens then Closed else Error, count)]
    {
      AloneKeepsInv(Current(), !opens);
      count := count + 1;
      var cid := count;
      log := log + [Event(Open, cid)];
      streams := streams + [Finished(cid, !opens)];
      if !opens {
        log := log + [Event(Error, cid)];
        return;
      }
      log := log + [Event(Closed, cid)];
    }
  }
}
