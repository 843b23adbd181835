/** The UDP entry node's cached channel (share/tunnel/tunnel_in_proxy_udp.go): getUDPChan opens
    a channel when none is cached and starts a goroutine that clears the cache once the
    connection of that channel has ended. */
module UdpEntry {
  import opened Common

  /** `channels[k]` is the connection that channel k was opened on. `pending` holds the channels
      whose invalidation has been started and has not run; `cleared` records, for every
      invalidation that has run, the channel it was started for and the cache it found. */
  datatype State = State(
    outbound: Option<nat>,
    channels: seq<nat>,
    pending: seq<nat>,
    ended: set<nat>,
    cleared: seq<(nat, Option<nat>)>)

  datatype Action =
    | Get(conn: Option<nat>, openOk: bool) // getUDPChan with what getSSH and OpenChannel do
    | End(ended: nat)                      // a connection ends
    | Unset(i: nat)                        // the critical section of a pending invalidation

  function Init(): State { State(None, [], [], {}, []) }

  /** The channel getUDPChan returns, and the state it leaves. */
  function GetStep(s: State, conn: Option<nat>, openOk: bool): (Option<nat>, State) {
    if s.outbound != None then (s.outbound, s)
    else if conn == None || !openOk then (None, s)
    else
      var k := |s.channels|;
      (Some(k), s.(outbound := Some(k), channels := s.channels + [conn.value], pending := s.pending + [k]))
  }

  function UnsetStep(s: State, i: nat): State
    requires i < |s.pending|
  {
    s.(outbound := None, pending := s.pending[..i] + s.pending[i + 1..], cleared := s.cleared + [(s.pending[i], s.outbound)])
  }

  function Step(s: State, a: Action): Option<State> {
    match a
    case Get(conn, openOk) => Some(GetStep(s, conn, openOk).1)
    case End(c) => Some(s.(ended := s.ended + {c}))
    case Unset(i) =>
      if i < |s.pending| && s.pending[i] < |s.channels| && s.channels[s.pending[i]] in s.ended then Some(UnsetStep(s, i)) else None
  }

  /** Channels are opened, cached and cleared one after the other. */
  ghost predicate Inv(s: State) {
    && |s.channels| == |s.cleared| + |s.pending|
    && s.pending == (if s.outbound == None then [] else [s.outbound.value])
    && (s.outbound.Some? ==> s.outbound.value == |s.cleared|)
    && (forall j :: 0 <= j < |s.cleared| ==>
         s.cleared[j] == (j, Some(j)) && j < |s.channels| && s.channels[j] in s.ended)
  }

  lemma KeepsInv(s: State, a: Action)
    requires Inv(s) && Step(s, a).Some?
    ensures Inv(Step(s, a).value)
  {
    match a
    case Unset(i) => assert s.pending[..i] + s.pending[i + 1..] == [];
    case Get(_, _) => assert s.outbound == None ==> s.pending + [|s.channels|] == [|s.channels|];
    case End(_) =>
  }

  /** In every run each invalidation clears exactly the channel it was started for, after the
      connection of that channel has ended; between critical sections the cache is filled
      exactly when one invalidation is pending, and that one is for the cached channel. */
  lemma InvalidationsAreOwn(schedule: seq<Action>)
    requires Run(Step, Init(), schedule).Some?
    ensures var s := Run(Step, Init(), schedule).value;
            && (forall j :: 0 <= j < |s.cleared| ==> s.cleared[j].1 == Some(s.cleared[j].0))
            && s.pending == (if s.outbound == None then [] else [s.outbound.value])
            && (forall j :: 0 <= j < |s.cleared| ==>
                  s.cleared[j].0 == j < |s.channels| && s.channels[j] in s.ended)
            && |s.channels| == |s.cleared| + |s.pending|
  {
    forall x, a | Inv(x) && Step(x, a).Some? ensures Inv(Step(x, a).value) { KeepsInv(x, a); }
    RunKeeps(Step, (x: State) => Inv(x), Init(), schedule);
  }

  /** A channel that is returned is the cached one until its own invalidation runs. */
  lemma CachedUntilUnset(s: State, a: Action)
    requires Inv(s) && s.outbound.Some? && Step(s, a).Some?
    ensures Step(s, a).value.outbound == s.outbound
         || (a.Unset? && s.pending[a.i] == s.outbound.value && s.channels[s.outbound.value] in s.ended)
  {}

  class UdpListener {
    var outbound: Option<nat>
    var nextChannel: nat
    ghost var state: State

    ghost predicate Valid()
      reads this
    {
      Inv(state) && outbound == state.outbound && nextChannel == |state.channels|
    }

    constructor ()
      ensures Valid() && state == Init()
    {
      outbound, nextChannel, state := None, 0, Init();
    }

    method GetUdpChan(conn: Option<nat>, openOk: bool) returns (channel: Option<nat>)
      requires Valid()
      modifies this
      ensures Valid() && (channel, state) == old(GetStep(state, conn, openOk))
      ensures channel == outbound
    {
      KeepsInv(state, Get(conn, openOk));
      state := GetStep(state, conn, openOk).1;
      if outbound != None {
        return outbound;
      }
      if conn == None || !openOk {
        return None;
      }
      outbound := Some(nextChannel);
      nextChannel := nextChannel + 1;
      return outbound;
    }

    /** The critical section of the invalidation that is pending at position i. */
    method UnsetUdpChan(ghost i: nat)
      requires Valid() && Step(state, Unset(i)).Some?
      modifies this
      ensures Valid() && state == old(UnsetStep(state, i)) && outbound == None
    {
      KeepsInv(state, Unset(i));
      state := UnsetStep(state, i);
      outbound := None;
    }
  }
}
