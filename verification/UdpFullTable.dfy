/** A run of the UDP exit node (share/tunnel/tunnel_out_ssh_udp.go) that fills its table: the
    source after the hundredth is never answered. */
module UdpFullTable {
  import opened Common
  import opened Text
  import opened UdpExit

  function Source(i: nat): string { Itoa(i) }

  /** The steps of one packet that is received, dialled for and written. */
  function Turn(src: string): seq<Action> { [Packet(src), Decide, WriteOk] }

  /** One packet of each of n sources. */
  function Fill(n: nat): seq<Action> {
    if n == 0 then [] else Fill(n - 1) + Turn(Source(n - 1))
  }

  /** The state after the first packet of a source. */
  function AfterTurn(s: State, src: string): State {
    var conn := Conn(src, |s.owners|);
    var fits := |s.table| < MAX_CONNS;
    s.(table := s.table[src := conn], owners := s.owners + [src], written := s.written + [{src}],
       readers := if fits then s.readers + [Reader(src, conn, Reading)] else s.readers,
       live := if fits then s.live + {src} else s.live)
  }

  lemma RunThree(s: State, a: Action, b: Action, c: Action)
    requires Step(s, a).Some? && Step(Step(s, a).value, b).Some?
    ensures Run(Step, s, [a, b, c]) == Step(Step(Step(s, a).value, b).value, c)
  {
    var s2 := Step(Step(s, a).value, b).value;
    assert [a, b, c] == [a, b] + [c];
    RunTwo(Step, s, a, b);
    RunOne(Step, s2, c);
    RunAppend(Step, s, [a, b], [c]);
  }

  lemma TurnRuns(s: State, src: string)
    requires s.main == Ready && src !in s.table && |s.written| == |s.owners|
    ensures Run(Step, s, Turn(src)) == Some(AfterTurn(s, src))
  {
    var s1 := DialStep(s, src);
    var s2 := DecideStep(s1, src, Conn(src, |s.owners|), false);
    RunThree(s, Packet(src), Decide, WriteOk);
    TurnEnds(s, src, s2);
  }

  lemma TurnEnds(s: State, src: string, s2: State)
    requires src !in s.table && |s.written| == |s.owners| && s.main == Ready
    requires s2 == DecideStep(DialStep(s, src), src, Conn(src, |s.owners|), false)
    ensures Step(s2, WriteOk) == Some(AfterTurn(s, src))
  {
    var table := s.table[src := Conn(src, |s.owners|)];
    assert table.Keys == s.table.Keys + {src} && |table| == |s.table| + 1;
    assert (s.written + [{}])[|s.owners| := {} + {src}] == s.written + [{src}];
  }

  function Names(n: nat): (names: seq<string>)
    ensures |names| == n
  {
    if n == 0 then [] else Names(n - 1) + [Source(n - 1)]
  }

  lemma {:induction false} NamesDiffer(n: nat, k: nat)
    requires n <= k
    ensures Source(k) !in Names(n)
  {
    if n > 0 { NamesDiffer(n - 1, k); }
  }

  ghost predicate Filled(s: State, n: nat) {
    && s.main == Ready && |s.table| == |s.written| == n && s.replies == [] && s.owners == Names(n)
    && (forall k :: k in s.table ==> k in s.owners)
  }

  lemma NewSource(s: State, n: nat)
    requires Filled(s, n)
    ensures Source(n) !in s.table
  {
    NamesDiffer(n, n);
  }

  lemma TurnAdds(s: State, src: string)
    requires src !in s.table && |s.written| == |s.owners|
    requires forall k :: k in s.table ==> k in s.owners
    ensures var t := AfterTurn(s, src);
      && t.main == s.main && t.replies == s.replies && |t.written| == |t.owners|
      && |t.table| == |s.table| + 1 && forall k :: k in t.table ==> k in t.owners
  {
    var t := AfterTurn(s, src);
    assert t.table.Keys == s.table.Keys + {src};
    assert t.owners[|s.owners|] == src;
  }

  lemma TurnFills(s: State, n: nat)
    requires Filled(s, n)
    ensures Filled(AfterTurn(s, Source(n)), n + 1)
  {
    NewSource(s, n);
    TurnAdds(s, Source(n));
  }

  lemma {:induction false} FillRuns(n: nat)
    ensures var run := Run(Step, Init(), Fill(n)); run.Some? && Filled(run.value, n)
  {
    if n > 0 {
      FillRuns(n - 1);
      var s := Run(Step, Init(), Fill(n - 1)).value;
      NewSource(s, n - 1);
      TurnRuns(s, Source(n - 1));
      TurnFills(s, n - 1);
      RunAppend(Step, Init(), Fill(n - 1), Turn(Source(n - 1)));
    }
  }

  /** The state after one packet of each of the first n sources. */
  ghost function FilledUp(n: nat): (s: State)
    ensures Run(Step, Init(), Fill(n)) == Some(s) && Filled(s, n)
  {
    FillRuns(n);
    Run(Step, Init(), Fill(n)).value
  }

  lemma UnreadAfter(n: nat)
    requires n == MAX_CONNS
    ensures FilledUp(n + 1).written[n] == {Source(n)} && Unread(FilledUp(n + 1), Source(n))
  {
    var s := FilledUp(n);
    FilledNext(n);
    NewSource(s, n);
    AlwaysInv(Fill(n));
    TurnUnread(s, Source(n));
  }

  lemma FilledNext(n: nat)
    ensures FilledUp(n + 1) == AfterTurn(FilledUp(n), Source(n))
  {
    var s := FilledUp(n);
    NewSource(s, n);
    TurnRuns(s, Source(n));
    RunAppend(Step, Init(), Fill(n), Turn(Source(n)));
    assert Fill(n + 1) == Fill(n) + Turn(Source(n));
  }

  lemma TurnUnread(s: State, src: string)
    requires Inv(s) && s.main == Ready && src !in s.table && |s.table| == |s.written| == MAX_CONNS
    ensures AfterTurn(s, src).written[MAX_CONNS] == {src} && Unread(AfterTurn(s, src), src)
  {}

  /** However a run goes on in which MAX_CONNS other sources came first and no reader has ended,
      the next source has been written to and is never answered. */
  lemma NextIsNeverAnswered(rest: seq<Action>)
    ensures var s := FilledUp(MAX_CONNS + 1);
      var src := Source(MAX_CONNS);
      && s.written[MAX_CONNS] == {src} && src in s.table
      && (Run(Step, s, rest).Some? ==> Sum(Run(Step, s, rest).value.replies, TaggedWith(src)) == 0)
  {
    NeverAnsweredAfter(MAX_CONNS, rest);
  }

  lemma NeverAnsweredAfter(n: nat, rest: seq<Action>)
    requires n == MAX_CONNS
    ensures var s := FilledUp(n + 1);
      && s.written[n] == {Source(n)} && Source(n) in s.table
      && (Run(Step, s, rest).Some? ==> Sum(Run(Step, s, rest).value.replies, TaggedWith(Source(n))) == 0)
  {
    UnreadAfter(n);
    AlwaysInv(Fill(n + 1));
    if Run(Step, FilledUp(n + 1), rest).Some? { UnreadForever(FilledUp(n + 1), rest, Source(n)); }
  }
}
