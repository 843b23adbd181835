/** The registry that pairs two participants on one socket path
    (share/tunnel/tunnel_in_proxy_uds_pair.go). Its two critical sections, the channel of each
    waiter with room for one session, cancellation and the relay interleave freely over any
    number of participants and paths. */
module PairRegistry {
  import opened Common

  // ---- the critical sections ----

  type Queues = map<string, seq<nat>>

  function QueueOf(w: Queues, path: string): seq<nat> {
    if path in w then w[path] else []
  }

  /** Arrival: the head of the queue, when there is one, leaves it as the peer; otherwise the
      arriving participant is appended. */
  function Enter(w: Queues, path: string, self: nat): (Queues, Option<nat>) {
    var queue := QueueOf(w, path);
    if |queue| > 0 then (w[path := queue[1..]], Some(queue[0]))
    else (w[path := queue + [self]], None)
  }

  function Position(queue: seq<nat>, x: nat): (i: nat)
    ensures i <= |queue| && x !in queue[..i] && (i < |queue| ==> queue[i] == x)
  {
    if queue == [] || queue[0] == x then 0 else 1 + Position(queue[1..], x)
  }

  /** removeWaiter: the first entry of the waiter is cut out, an empty queue is deleted. */
  function Leave(w: Queues, path: string, self: nat): Queues {
    var queue := QueueOf(w, path);
    var i := Position(queue, self);
    if i == |queue| then w
    else
      var rest := queue[..i] + queue[i + 1..];
      if rest == [] then w - {path} else w[path := rest]
  }

  // ---- the transition system ----

  datatype Party =
    | Absent
    | Waiting             // queued, in the select
    | Matched(peer: nat)  // has received the session of its peer
    | Leaving             // has chosen cancellation, about to call removeWaiter
    | Relaying(peer: nat) // found a waiter and relays
    | Gone

  /** `closes` counts how often the done channel made by a participant was closed; the last
      three fields only record the history. */
  datatype State = State(
    paths: seq<string>,
    parties: seq<Party>,
    waiters: Queues,
    buffers: seq<seq<nat>>,
    closes: seq<nat>,
    arrivals: seq<nat>,
    pairs: seq<(nat, nat)>,
    withdrawn: seq<nat>)

  datatype Action =
    | Arrive(p: nat)
    | Receive(p: nat)
    | Quit(p: nat)
    | Withdraw(p: nat)
    | Stop(p: nat)
    | Finish(p: nat)

  function Init(paths: seq<string>): State {
    State(paths, seq(|paths|, _ => Absent), map[], seq(|paths|, _ => []), seq(|paths|, _ => 0), [], [], [])
  }

  predicate Sized(s: State) {
    |s.parties| == |s.paths| && |s.buffers| == |s.paths| && |s.closes| == |s.paths|
  }

  /** The critical section of an arrival; a send to a full channel would block it. */
  function ArriveStep(s: State, p: nat): Option<State>
    requires Sized(s) && p < |s.paths|
  {
    var (waiters, peer) := Enter(s.waiters, s.paths[p], p);
    var s := s.(waiters := waiters, arrivals := s.arrivals + [p]);
    match peer
    case None => Some(s.(parties := s.parties[p := Waiting]))
    case Some(q) =>
      if q >= |s.paths| || s.buffers[q] != [] then None
      else Some(s.(buffers := s.buffers[q := [p]], parties := s.parties[p := Relaying(q)], pairs := s.pairs + [(q, p)]))
  }

  function WithdrawStep(s: State, p: nat): State
    requires Sized(s) && p < |s.paths|
  {
    s.(waiters := Leave(s.waiters, s.paths[p], p),
       parties := s.parties[p := Gone],
       withdrawn := s.withdrawn + (if p in QueueOf(s.waiters, s.paths[p]) then [p] else []))
  }

  /** An arrival whose send would block, and a second close of a channel, are not enabled. */
  function Step(s: State, a: Action): Option<State> {
    var p := a.p;
    if !Sized(s) || p >= |s.paths| then None
    else
      match a
      case Arrive(_) => if s.parties[p] == Absent then ArriveStep(s, p) else None
      case Receive(_) =>
        if s.parties[p] == Waiting && s.buffers[p] != [] then
          Some(s.(parties := s.parties[p := Matched(s.buffers[p][0])], buffers := s.buffers[p := s.buffers[p][1..]]))
        else None
      case Quit(_) =>
        if s.parties[p] == Waiting then Some(s.(parties := s.parties[p := Leaving])) else None
      case Withdraw(_) =>
        if s.parties[p] == Leaving then Some(WithdrawStep(s, p)) else None
      case Stop(_) =>
        if s.parties[p].Matched? then Some(s.(parties := s.parties[p := Gone])) else None
      case Finish(_) =>
        if s.parties[p].Relaying? && s.closes[p] == 0 then
          Some(s.(parties := s.parties[p := Gone], closes := s.closes[p := s.closes[p] + 1]))
        else None
  }

  // ---- the history ----

  function Members(pairs: seq<(nat, nat)>): set<nat> {
    if pairs == [] then {}
    else Members(pairs[..|pairs| - 1]) + {pairs[|pairs| - 1].0, pairs[|pairs| - 1].1}
  }

  lemma MembersAppend(pairs: seq<(nat, nat)>, x: (nat, nat))
    ensures Members(pairs + [x]) == Members(pairs) + {x.0, x.1}
  {
    assert (pairs + [x])[..|pairs|] == pairs;
  }

  lemma {:induction false} MembersAre(pairs: seq<(nat, nat)>, x: nat)
    ensures x in Members(pairs) <==> exists k :: 0 <= k < |pairs| && (pairs[k].0 == x || pairs[k].1 == x)
  {
    if pairs != [] {
      var n := |pairs| - 1;
      MembersAre(pairs[..n], x);
      assert forall k :: 0 <= k < n ==> pairs[..n][k] == pairs[k];
      assert x == pairs[n].0 || x == pairs[n].1 ==> pairs[n].0 == x || pairs[n].1 == x;
    }
  }

  /** No participant is in two pairs or paired with itself. */
  ghost predicate Disjoint(pairs: seq<(nat, nat)>) {
    && (forall k :: 0 <= k < |pairs| ==> pairs[k].0 != pairs[k].1)
    && (forall j, k :: 0 <= j < k < |pairs| ==>
         pairs[j].0 != pairs[k].0 && pairs[j].0 != pairs[k].1 && pairs[j].1 != pairs[k].0 && pairs[j].1 != pairs[k].1)
  }

  function OnPath(paths: seq<string>, path: string): nat -> nat {
    (x: nat) => if x < |paths| && paths[x] == path then 1 else 0
  }

  function PairOnPath(paths: seq<string>, path: string): ((nat, nat)) -> nat {
    (x: (nat, nat)) => if x.0 < |paths| && paths[x.0] == path then 1 else 0
  }

  /** arrivals = 2 x pairs + waiting + withdrawn, path by path */
  ghost predicate Conserved(s: State, path: string) {
    Sum(s.arrivals, OnPath(s.paths, path))
    == 2 * Sum(s.pairs, PairOnPath(s.paths, path)) + |QueueOf(s.waiters, path)| + Sum(s.withdrawn, OnPath(s.paths, path))
  }

  /** The arrivals on a path that are neither paired nor withdrawn, oldest first. */
  function Open(arrivals: seq<nat>, s: State, path: string): seq<nat> {
    if arrivals == [] then []
    else
      var x := arrivals[|arrivals| - 1];
      Open(arrivals[..|arrivals| - 1], s, path) + (if IsOpen(s, x, path) then [x] else [])
  }

  predicate IsOpen(s: State, x: nat, path: string) {
    x < |s.paths| && s.paths[x] == path && x !in Members(s.pairs) && x !in s.withdrawn
  }

  ghost predicate Fifo(s: State, path: string) {
    QueueOf(s.waiters, path) == Open(s.arrivals, s, path)
  }

  // ---- the invariant ----

  predicate EntryFits(s: State, x: nat, path: string)
    requires Sized(s)
  {
    && x < |s.paths| && s.paths[x] == path && (s.parties[x] == Waiting || s.parties[x] == Leaving)
    && s.buffers[x] == [] && x !in Members(s.pairs) && x !in s.withdrawn
  }

  /** The entries of a queue: at most one, waiting, on its path, with nothing sent to it. */
  ghost predicate QueuesFit(s: State)
    requires Sized(s)
  {
    forall path :: path in s.waiters ==>
      |s.waiters[path]| == 0 || (|s.waiters[path]| == 1 && EntryFits(s, s.waiters[path][0], path))
  }

  ghost predicate PairsFit(s: State)
    requires Sized(s)
  {
    Disjoint(s.pairs) && forall k :: 0 <= k < |s.pairs| ==> PairFits(s, s.pairs[k].0, s.pairs[k].1)
  }

  predicate PairFits(s: State, w: nat, r: nat)
    requires Sized(s)
  {
    && w < |s.paths| && r < |s.paths| && s.paths[w] == s.paths[r]
    && s.parties[w] != Absent && !s.parties[w].Relaying?
    && (s.parties[r] == Relaying(w) || (s.parties[r] == Gone && s.closes[r] == 1))
  }

  predicate PartyFits(s: State, x: nat)
    requires Sized(s) && x < |s.paths|
  {
    && |s.buffers[x]| <= 1 && (s.buffers[x] != [] ==> (x, s.buffers[x][0]) in s.pairs)
    && s.closes[x] <= 1 && (s.closes[x] == 1 ==> s.parties[x] == Gone)
    && match s.parties[x]
       case Absent => s.buffers[x] == [] && x !in Members(s.pairs) && x !in s.withdrawn && x !in s.arrivals
       case Matched(q) => (x, q) in s.pairs
       case Relaying(q) => (q, x) in s.pairs && s.closes[x] == 0
       case _ => true
  }

  ghost predicate PartiesFit(s: State)
    requires Sized(s)
  {
    forall x :: 0 <= x < |s.paths| ==> PartyFits(s, x)
  }

  ghost predicate Inv(s: State) {
    Sized(s) && QueuesFit(s) && PairsFit(s) && PartiesFit(s)
  }

  lemma PairMembers(s: State, k: nat)
    requires k < |s.pairs|
    ensures s.pairs[k].0 in Members(s.pairs) && s.pairs[k].1 in Members(s.pairs)
  {
    MembersAre(s.pairs, s.pairs[k].0);
    MembersAre(s.pairs, s.pairs[k].1);
  }

  /** An arriving participant is never blocked by the send, and a relay never closes twice. */
  lemma NeverStuck(s: State, p: nat)
    requires Inv(s) && p < |s.paths|
    ensures s.parties[p] == Absent ==> Step(s, Arrive(p)).Some?
    ensures s.parties[p].Relaying? ==> Step(s, Finish(p)).Some?
  {
    var queue := QueueOf(s.waiters, s.paths[p]);
    assert queue != [] ==> EntryFits(s, queue[0], s.paths[p]);
    assert PartyFits(s, p);
  }

  /** The head of the queue that an arrival finds, and the state after pairing with it. */
  lemma Pairing(s: State, p: nat) returns (q: nat, s': State)
    requires Inv(s) && p < |s.paths| && s.parties[p] == Absent && QueueOf(s.waiters, s.paths[p]) != []
    ensures q < |s.paths| && q != p && s.waiters[s.paths[p]] == [q] && s.paths[q] == s.paths[p]
    ensures (s.parties[q] == Waiting || s.parties[q] == Leaving) && s.buffers[q] == []
    ensures q !in Members(s.pairs) && p !in Members(s.pairs) && q !in s.withdrawn
    ensures Step(s, Arrive(p)) == Some(s')
    ensures s' == s.(waiters := s.waiters[s.paths[p] := []], arrivals := s.arrivals + [p], buffers := s.buffers[q := [p]],
                     parties := s.parties[p := Relaying(q)], pairs := s.pairs + [(q, p)])
    ensures Members(s'.pairs) == Members(s.pairs) + {q, p}
  {
    q := s.waiters[s.paths[p]][0];
    assert EntryFits(s, q, s.paths[p]) && PartyFits(s, p);
    s' := Step(s, Arrive(p)).value;
    MembersAppend(s.pairs, (q, p));
    assert s.waiters[s.paths[p]][1..] == [];
  }

  lemma PairingKeepsQueues(s: State, p: nat)
    requires Inv(s) && p < |s.paths| && s.parties[p] == Absent && QueueOf(s.waiters, s.paths[p]) != []
    ensures Step(s, Arrive(p)).Some? && QueuesFit(Step(s, Arrive(p)).value)
  {
    var q, s' := Pairing(s, p);
    forall path | path in s'.waiters && path != s.paths[p]
      ensures s'.waiters[path] == [] || (|s'.waiters[path]| == 1 && EntryFits(s', s'.waiters[path][0], path))
    {
      if s.waiters[path] != [] { assert EntryFits(s, s.waiters[path][0], path); }
    }
  }

  lemma PairingKeepsPairs(s: State, p: nat)
    requires Inv(s) && p < |s.paths| && s.parties[p] == Absent && QueueOf(s.waiters, s.paths[p]) != []
    ensures Step(s, Arrive(p)).Some? && PairsFit(Step(s, Arrive(p)).value)
  {
    var q, s' := Pairing(s, p);
    forall k | 0 <= k < |s'.pairs| ensures PairFits(s', s'.pairs[k].0, s'.pairs[k].1) {
      if k < |s.pairs| {
        PairMembers(s, k);
        assert PairFits(s, s.pairs[k].0, s.pairs[k].1);
      }
    }
    PairingKeepsDisjoint(s, q, p);
  }

  lemma PairingKeepsDisjoint(s: State, q: nat, p: nat)
    requires Disjoint(s.pairs) && q != p && q !in Members(s.pairs) && p !in Members(s.pairs)
    ensures Disjoint(s.pairs + [(q, p)])
  {
    forall k | 0 <= k < |s.pairs| ensures s.pairs[k].0 != q && s.pairs[k].1 != q && s.pairs[k].0 != p && s.pairs[k].1 != p {
      PairMembers(s, k);
    }
  }

  lemma PairingKeepsParties(s: State, p: nat)
    requires Inv(s) && p < |s.paths| && s.parties[p] == Absent && QueueOf(s.waiters, s.paths[p]) != []
    ensures Step(s, Arrive(p)).Some? && PartiesFit(Step(s, Arrive(p)).value)
  {
    var q, s' := Pairing(s, p);
    assert s'.pairs[|s.pairs|] == (q, p);
    forall x | 0 <= x < |s.paths| ensures PartyFits(s', x) {
      assert PartyFits(s, x);
    }
  }

  /** A step of participant p that makes no pair leaves what fits of all others. */
  lemma Frame(s: State, s': State, p: nat)
    requires Sized(s) && Sized(s') && s'.paths == s.paths && s'.pairs == s.pairs
    requires forall x :: 0 <= x < |s.paths| && x != p ==>
      s'.parties[x] == s.parties[x] && s'.buffers[x] == s.buffers[x] && s'.closes[x] == s.closes[x]
    requires forall x :: x in s'.withdrawn ==> x in s.withdrawn || x == p
    requires forall x :: x in s'.arrivals ==> x in s.arrivals || x == p
    ensures forall x, path :: x != p && EntryFits(s, x, path) ==> EntryFits(s', x, path)
    ensures forall x :: 0 <= x < |s.paths| && x != p && PartyFits(s, x) ==> PartyFits(s', x)
  {}

  lemma QueueingKeepsInv(s: State, p: nat)
    requires Inv(s) && p < |s.paths| && s.parties[p] == Absent && QueueOf(s.waiters, s.paths[p]) == []
    ensures Step(s, Arrive(p)).Some? && Inv(Step(s, Arrive(p)).value)
  {
    var s' := Step(s, Arrive(p)).value;
    Frame(s, s', p);
    assert PartyFits(s, p) && PartyFits(s', p);
    assert s'.waiters[s.paths[p]] == [p] && EntryFits(s', p, s.paths[p]);
    forall path | path in s.waiters && s.waiters[path] != [] ensures s.waiters[path][0] != p {
      assert EntryFits(s, s.waiters[path][0], path);
    }
    forall k | 0 <= k < |s.pairs| ensures s.pairs[k].0 != p && s.pairs[k].1 != p {
      PairMembers(s, k);
    }
  }

  /** Leaving a queue of at most one entry. */
  lemma LeaveShort(s: State, p: nat)
    requires Inv(s) && p < |s.paths|
    ensures Leave(s.waiters, s.paths[p], p)
         == if p in QueueOf(s.waiters, s.paths[p]) then s.waiters - {s.paths[p]} else s.waiters
    ensures p in QueueOf(s.waiters, s.paths[p]) <==> QueueOf(s.waiters, s.paths[p]) == [p]
    ensures forall path :: path in s.waiters && p in s.waiters[path] ==> path == s.paths[p]
  {
    forall path | path in s.waiters && s.waiters[path] != [] ensures s.paths[p] == path || s.waiters[path][0] != p {
      assert EntryFits(s, s.waiters[path][0], path);
    }
  }

  lemma WithdrawKeepsInv(s: State, p: nat)
    requires Inv(s) && Step(s, Withdraw(p)).Some?
    ensures Inv(Step(s, Withdraw(p)).value)
  {
    var s' := Step(s, Withdraw(p)).value;
    LeaveShort(s, p);
    Frame(s, s', p);
    assert PartyFits(s, p) && PartyFits(s', p);
    forall path | path in s'.waiters && s'.waiters[path] != [] ensures EntryFits(s', s'.waiters[path][0], path) {
      assert EntryFits(s, s.waiters[path][0], path);
    }
  }

  /** A participant that is waiting in a queue has nothing to receive. */
  lemma QueuedElsewhere(s: State, p: nat)
    requires Inv(s) && p < |s.paths|
    requires s.buffers[p] != [] || (s.parties[p] != Waiting && s.parties[p] != Leaving)
    ensures forall path :: path in s.waiters && s.waiters[path] != [] ==> s.waiters[path][0] != p
  {
    forall path | path in s.waiters && s.waiters[path] != [] ensures s.waiters[path][0] != p {
      assert EntryFits(s, s.waiters[path][0], path);
    }
  }

  lemma ReceiveKeepsInv(s: State, p: nat)
    requires Inv(s) && Step(s, Receive(p)).Some?
    ensures Inv(Step(s, Receive(p)).value)
  {
    var s' := Step(s, Receive(p)).value;
    QueuedElsewhere(s, p);
    Frame(s, s', p);
    assert PartyFits(s, p) && PartyFits(s', p);
  }

  lemma QuitKeepsInv(s: State, p: nat)
    requires Inv(s) && Step(s, Quit(p)).Some?
    ensures Inv(Step(s, Quit(p)).value)
  {
    var s' := Step(s, Quit(p)).value;
    Frame(s, s', p);
    assert PartyFits(s, p) && PartyFits(s', p);
    assert forall path :: EntryFits(s, p, path) ==> EntryFits(s', p, path);
  }

  lemma EndKeepsInv(s: State, a: Action)
    requires Inv(s) && Step(s, a).Some? && (a.Stop? || a.Finish?)
    ensures Inv(Step(s, a).value)
  {
    var s' := Step(s, a).value;
    QueuedElsewhere(s, a.p);
    Frame(s, s', a.p);
    assert PartyFits(s, a.p) && PartyFits(s', a.p);
  }

  lemma KeepsInv(s: State, a: Action)
    requires Inv(s) && Step(s, a).Some?
    ensures Inv(Step(s, a).value)
  {
    match a
    case Arrive(p) => 
      if QueueOf(s.waiters, s.paths[p]) == [] {
        QueueingKeepsInv(s, p);
      } else {
        PairingKeepsQueues(s, p);
        PairingKeepsPairs(s, p);
        PairingKeepsParties(s, p);
      }
    case Receive(p) => ReceiveKeepsInv(s, p);
    case Withdraw(p) => WithdrawKeepsInv(s, p);
    case Quit(p) => QuitKeepsInv(s, p);
    case Stop(_) => EndKeepsInv(s, a);
    case Finish(_) => EndKeepsInv(s, a);
  }

  // ---- conservation ----

  lemma Queueing(s: State, p: nat) returns (s': State)
    requires Inv(s) && p < |s.paths| && s.parties[p] == Absent && QueueOf(s.waiters, s.paths[p]) == []
    ensures Step(s, Arrive(p)) == Some(s')
    ensures s' == s.(waiters := s.waiters[s.paths[p] := [p]], arrivals := s.arrivals + [p], parties := s.parties[p := Waiting])
    ensures p !in Members(s.pairs) && p !in s.withdrawn && p !in s.arrivals
  {
    assert PartyFits(s, p);
    assert QueueOf(s.waiters, s.paths[p]) + [p] == [p];
    s' := Step(s, Arrive(p)).value;
  }

  lemma Withdrawing(s: State, p: nat) returns (s': State)
    requires Inv(s) && Step(s, Withdraw(p)).Some?
    ensures Step(s, Withdraw(p)) == Some(s')
    ensures var queue := QueueOf(s.waiters, s.paths[p]);
            if queue == [p] then s' == s.(waiters := s.waiters - {s.paths[p]}, parties := s.parties[p := Gone], withdrawn := s.withdrawn + [p])
            else s' == s.(parties := s.parties[p := Gone])
  {
    LeaveShort(s, p);
    s' := Step(s, Withdraw(p)).value;
    assert s.withdrawn + [] == s.withdrawn;
  }

  predicate SameHistory(s: State, s': State) {
    s'.paths == s.paths && s'.arrivals == s.arrivals && s'.pairs == s.pairs && s'.withdrawn == s.withdrawn && s'.waiters == s.waiters
  }

  lemma OthersKeepHistory(s: State, a: Action)
    requires Step(s, a).Some? && !a.Arrive? && !a.Withdraw?
    ensures SameHistory(s, Step(s, a).value)
  {}

  lemma ArriveKeepsConserved(s: State, p: nat, path: string)
    requires Inv(s) && Conserved(s, path) && p < |s.paths| && s.parties[p] == Absent
    ensures Step(s, Arrive(p)).Some? && Conserved(Step(s, Arrive(p)).value, path)
  {
    SumAppend(s.arrivals, p, OnPath(s.paths, path));
    if QueueOf(s.waiters, s.paths[p]) == [] {
      var s' := Queueing(s, p);
      assert QueueOf(s'.waiters, path) == if path == s.paths[p] then [p] else QueueOf(s.waiters, path);
    } else {
      var q, s' := Pairing(s, p);
      SumAppend(s.pairs, (q, p), PairOnPath(s.paths, path));
      assert QueueOf(s'.waiters, path) == if path == s.paths[p] then [] else QueueOf(s.waiters, path);
    }
  }

  lemma WithdrawnTally(s: State, p: nat, path: string)
    requires p < |s.paths| && QueueOf(s.waiters, s.paths[p]) == [p]
    ensures |QueueOf(s.waiters - {s.paths[p]}, path)| + Sum(s.withdrawn + [p], OnPath(s.paths, path))
         == |QueueOf(s.waiters, path)| + Sum(s.withdrawn, OnPath(s.paths, path))
  {
    SumAppend(s.withdrawn, p, OnPath(s.paths, path));
  }

  lemma WithdrawKeepsConserved(s: State, p: nat, path: string)
    requires Inv(s) && Conserved(s, path) && Step(s, Withdraw(p)).Some?
    ensures Conserved(Step(s, Withdraw(p)).value, path)
  {
    var s' := Withdrawing(s, p);
    var queue := QueueOf(s.waiters, s.paths[p]);
    if queue == [p] {
      WithdrawnTally(s, p, path);
    } else {
      assert SameHistory(s, s');
    }
  }

  lemma KeepsConserved(s: State, a: Action, path: string)
    requires Inv(s) && Conserved(s, path) && Step(s, a).Some?
    ensures Conserved(Step(s, a).value, path)
  {
    match a
    case Arrive(p) => ArriveKeepsConserved(s, p, path);
    case Withdraw(p) => WithdrawKeepsConserved(s, p, path);
    case _ => OthersKeepHistory(s, a);
  }

  // ---- first in, first out ----

  lemma {:induction false} OpenSame(arrivals: seq<nat>, s: State, s': State, path: string)
    requires forall x :: x in arrivals ==> (IsOpen(s, x, path) <==> IsOpen(s', x, path))
    ensures Open(arrivals, s, path) == Open(arrivals, s', path)
  {
    if arrivals != [] { OpenSame(arrivals[..|arrivals| - 1], s, s', path); }
  }

  lemma {:induction false} OpenElements(arrivals: seq<nat>, s: State, path: string)
    ensures forall x :: x in Open(arrivals, s, path) <==> x in arrivals && IsOpen(s, x, path)
  {
    if arrivals != [] {
      var n := |arrivals| - 1;
      OpenElements(arrivals[..n], s, path);
      assert arrivals == arrivals[..n] + [arrivals[n]];
    }
  }

  lemma {:induction false} OpenNone(arrivals: seq<nat>, s: State, path: string)
    requires forall x :: x in arrivals ==> !IsOpen(s, x, path)
    ensures Open(arrivals, s, path) == []
  {
    if arrivals != [] { OpenNone(arrivals[..|arrivals| - 1], s, path); }
  }

  lemma OpenAppend(arrivals: seq<nat>, p: nat, s: State, path: string)
    ensures Open(arrivals + [p], s, path) == Open(arrivals, s, path) + (if IsOpen(s, p, path) then [p] else [])
  {
    assert (arrivals + [p])[..|arrivals|] == arrivals;
  }

  /** When the only open arrival on a path is closed, none is left. */
  lemma OpenLast(s: State, s': State, path: string, q: nat)
    requires Open(s.arrivals, s, path) == [q] && !IsOpen(s', q, path)
    requires forall x :: IsOpen(s', x, path) && x in s.arrivals ==> IsOpen(s, x, path)
    ensures Open(s.arrivals, s', path) == []
  {
    OpenElements(s.arrivals, s, path);
    OpenNone(s.arrivals, s', path);
  }

  lemma QueueingKeepsFifo(s: State, p: nat, path: string)
    requires Inv(s) && Fifo(s, path) && p < |s.paths| && s.parties[p] == Absent && QueueOf(s.waiters, s.paths[p]) == []
    ensures Step(s, Arrive(p)).Some? && Fifo(Step(s, Arrive(p)).value, path)
  {
    var s' := Queueing(s, p);
    OpenAppend(s.arrivals, p, s', path);
    OpenSame(s.arrivals, s, s', path);
  }

  lemma PairingKeepsFifo(s: State, p: nat, path: string)
    requires Inv(s) && Fifo(s, path) && p < |s.paths| && s.parties[p] == Absent && QueueOf(s.waiters, s.paths[p]) != []
    ensures Step(s, Arrive(p)).Some? && Fifo(Step(s, Arrive(p)).value, path)
  {
    var q, s' := Pairing(s, p);
    PairedFifo(s, s', q, p, path);
  }

  lemma PairedFifo(s: State, s': State, q: nat, p: nat, path: string)
    requires Fifo(s, path) && q < |s.paths| && p < |s.paths| && s.paths[q] == s.paths[p] && QueueOf(s.waiters, s.paths[p]) == [q]
    requires s'.paths == s.paths && s'.withdrawn == s.withdrawn && s'.arrivals == s.arrivals + [p]
    requires s'.waiters == s.waiters[s.paths[p] := []] && Members(s'.pairs) == Members(s.pairs) + {q, p}
    ensures Fifo(s', path)
  {
    OpenAppend(s.arrivals, p, s', path);
    if path == s.paths[p] { OpenLast(s, s', path, q); } else { OpenSame(s.arrivals, s, s', path); }
  }

  lemma WithdrawKeepsFifo(s: State, p: nat, path: string)
    requires Inv(s) && Fifo(s, path) && Step(s, Withdraw(p)).Some?
    ensures Fifo(Step(s, Withdraw(p)).value, path)
  {
    var s' := Withdrawing(s, p);
    if QueueOf(s.waiters, s.paths[p]) == [p] && path == s.paths[p] {
      OpenLast(s, s', path, p);
    } else {
      OpenSame(s.arrivals, s, s', path);
    }
  }

  lemma KeepsFifo(s: State, a: Action, path: string)
    requires Inv(s) && Fifo(s, path) && Step(s, a).Some?
    ensures Fifo(Step(s, a).value, path)
  {
    match a
    case Arrive(p) =>
      if QueueOf(s.waiters, s.paths[p]) == [] { QueueingKeepsFifo(s, p, path); } else { PairingKeepsFifo(s, p, path); }
    case Withdraw(p) => WithdrawKeepsFifo(s, p, path);
    case _ =>
      OthersKeepHistory(s, a);
      OpenSame(s.arrivals, s, Step(s, a).value, path);
  }

  // ---- the theorems over whole runs ----

  ghost predicate Safe(s: State) { Inv(s) && forall path :: Conserved(s, path) && Fifo(s, path) }

  lemma AlwaysSafe(paths: seq<string>, schedule: seq<Action>)
    requires Run(Step, Init(paths), schedule).Some?
    ensures Safe(Run(Step, Init(paths), schedule).value)
  {
    forall x, a | Safe(x) && Step(x, a).Some? ensures Safe(Step(x, a).value) {
      KeepsInv(x, a);
      forall path ensures Conserved(Step(x, a).value, path) && Fifo(Step(x, a).value, path) {
        KeepsConserved(x, a, path);
        KeepsFifo(x, a, path);
      }
    }
    RunKeeps(Step, (x: State) => Safe(x), Init(paths), schedule);
  }

  /** On every path, arrivals are twice the pairs plus those waiting plus those withdrawn; pairs
      share a path and no participant is in two; a queue holds at most one participant, which
      has not returned and has received nothing. */
  lemma PairingIsSound(paths: seq<string>, schedule: seq<Action>, path: string)
    requires Run(Step, Init(paths), schedule).Some?
    ensures var s := Run(Step, Init(paths), schedule).value;
            && Sized(s)
            && Conserved(s, path)
            && Disjoint(s.pairs)
            && (forall k :: 0 <= k < |s.pairs| ==>
                 s.pairs[k].0 < |s.paths| && s.pairs[k].1 < |s.paths| && s.paths[s.pairs[k].0] == s.paths[s.pairs[k].1])
            && |QueueOf(s.waiters, path)| <= 1
            && (forall x :: x in QueueOf(s.waiters, path) ==>
                 x < |s.paths| && s.parties[x] != Gone && s.buffers[x] == [])
  {
    AlwaysSafe(paths, schedule);
    var s := Run(Step, Init(paths), schedule).value;
    assert Conserved(s, path);
    SharedPaths(s);
    ShortQueue(s, path);
  }

  lemma SharedPaths(s: State)
    requires Inv(s)
    ensures Disjoint(s.pairs)
    ensures forall k :: 0 <= k < |s.pairs| ==>
              s.pairs[k].0 < |s.paths| && s.pairs[k].1 < |s.paths| && s.paths[s.pairs[k].0] == s.paths[s.pairs[k].1]
  {
    assert forall k :: 0 <= k < |s.pairs| ==> PairFits(s, s.pairs[k].0, s.pairs[k].1);
  }

  lemma ShortQueue(s: State, path: string)
    requires Inv(s)
    ensures |QueueOf(s.waiters, path)| <= 1
    ensures forall x :: x in QueueOf(s.waiters, path) ==> x < |s.paths| && s.parties[x] != Gone && s.buffers[x] == []
  {
    var queue := QueueOf(s.waiters, path);
    if queue != [] { assert EntryFits(s, queue[0], path); }
  }

  /** In every reachable state an arrival is paired with the oldest arrival on its path that is
      neither paired nor withdrawn, and waits when there is none; its send never blocks. */
  lemma PairedWithOldest(s: State, p: nat)
    requires Safe(s) && p < |s.paths| && s.parties[p] == Absent
    ensures var open := Open(s.arrivals, s, s.paths[p]);
            var next := Step(s, Arrive(p));
            && next.Some?
            && next.value.pairs == (if open == [] then s.pairs else s.pairs + [(open[0], p)])
            && next.value.parties[p] == (if open == [] then Waiting else Relaying(open[0]))
  {
    assert Fifo(s, s.paths[p]);
    if QueueOf(s.waiters, s.paths[p]) == [] { var _ := Queueing(s, p); } else { var _, _ := Pairing(s, p); }
  }

  /** The done channel of a pair is closed once, by its relay when it returns: a matched
      participant waits exactly as long as its relay is under way. */
  lemma RelayReleasesPeer(s: State, w: nat)
    requires Safe(s) && w < |s.paths| && s.parties[w].Matched?
    ensures var r := s.parties[w].peer;
            && r < |s.paths| && s.paths[r] == s.paths[w]
            && (s.closes[r] == 0 <==> s.parties[r] == Relaying(w))
            && (s.closes[r] == 1 <==> s.parties[r] == Gone)
  {
    assert PartyFits(s, w);
    var r := s.parties[w].peer;
    var k :| 0 <= k < |s.pairs| && s.pairs[k] == (w, r);
    assert PartyFits(s, r);
  }

  // ---- the registry as an object ----

  /** The registry and the channels of its waiters, under its lock. */
  class Registry {
    var waiters: Queues
    var matched: map<nat, seq<nat>>

    /** Nothing has been sent to a participant that is still queued, and queues are short. */
    ghost predicate Valid()
      reads this
    {
      && (forall path :: path in waiters ==>
           |waiters[path]| <= 1 && forall x :: x in waiters[path] ==> x in matched && matched[x] == [])
      && (forall p, q, x :: p in waiters && q in waiters && x in waiters[p] && x in waiters[q] ==> p == q)
    }

    constructor ()
      ensures Valid() && waiters == map[] && matched == map[]
    {
      waiters, matched := map[], map[];
    }

    /** The first critical section of run, for a participant with a new channel. */
    method Join(path: string, self: nat) returns (peer: Option<nat>)
      requires Valid() && self !in matched
      modifies this
      ensures Valid() && (waiters, peer) == old(Enter(waiters, path, self))
      ensures matched == if peer == None then old(matched)[self := []]
                         else old(matched)[self := []][peer.value := [self]]
    {
      matched := matched[self := []];
      var queue := if path in waiters then waiters[path] else [];
      if |queue| > 0 {
        var other := queue[0];
        waiters := waiters[path := queue[1..]];
        assert other in waiters[path := queue][path] && matched[other] == [];
        matched := matched[other := matched[other] + [self]];
        peer := Some(other);
        assert matched[other] == [self];
        assert forall q :: q in waiters && other in waiters[q] ==> q == path by {
          assert other in old(waiters)[path];
        }
      } else {
        waiters := waiters[path := queue + [self]];
        peer := None;
        assert waiters[path] == [self];
      }
    }

    method RemoveWaiter(path: string, self: nat)
      requires Valid()
      modifies `waiters
      ensures Valid() && waiters == old(Leave(waiters, path, self))
    {
      var queue := if path in waiters then waiters[path] else [];
      var i := 0;
      while i < |queue|
        invariant i <= |queue| && self !in queue[..i]
        invariant waiters == old(waiters)
      {
        if queue[i] == self {
          waiters := waiters[path := queue[..i] + queue[i + 1..]];
          if |waiters[path]| == 0 {
            waiters := waiters - {path};
          }
          return;
        }
        i := i + 1;
      }
    }
  }
}
