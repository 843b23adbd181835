/** Which sockets of the UDP exit node (share/tunnel/tunnel_out_ssh_udp.go) the program never
    closes: a reader that ends takes its entry out of the table and does not close, and closeAll
    closes what is in the table. (Go's net package may close an unreachable socket when it is
    collected.) */
module UdpSockets {
  import opened Common
  import opened UdpExit

  predicate InTable(s: State, k: nat) {
    k < |s.owners| && s.owners[k] in s.table && s.table[s.owners[k]].socket == k
  }

  ghost predicate ReaderEnded(s: State, k: nat) {
    exists i :: 0 <= i < |s.readers| && s.readers[i].conn.socket == k && s.readers[i].phase == Finished
  }

  /** While the loop runs nothing is closed, and a dialled socket is in the table until its reader
      ends. */
  ghost predicate Kept(s: State) {
    Running(s) ==> s.closed == {} && forall k: nat :: k < |s.owners| ==> (InTable(s, k) <==> !ReaderEnded(s, k))
  }

  /** No reader ends or comes back between the two states, save perhaps for sockets other than k. */
  predicate SameFor(s: State, s': State, k: nat) {
    && |s.readers| <= |s'.readers|
    && (forall i :: 0 <= i < |s.readers| ==> s'.readers[i].conn == s.readers[i].conn)
    && (forall i :: 0 <= i < |s.readers| && s.readers[i].conn.socket == k ==>
          (s'.readers[i].phase == Finished <==> s.readers[i].phase == Finished))
    && (forall i :: |s.readers| <= i < |s'.readers| ==> s'.readers[i].phase != Finished)
  }

  lemma EndedSame(s: State, s': State, k: nat)
    requires SameFor(s, s', k)
    ensures ReaderEnded(s', k) <==> ReaderEnded(s, k)
  {
    if ReaderEnded(s, k) {
      var i :| 0 <= i < |s.readers| && s.readers[i].conn.socket == k && s.readers[i].phase == Finished;
      assert s'.readers[i].conn.socket == k && s'.readers[i].phase == Finished;
    }
  }

  lemma RemoveKeepsKept(s: State, i: nat)
    requires Inv(s) && Kept(s) && Running(s) && Step(s, Remove(i)).Some?
    ensures Kept(Step(s, Remove(i)).value)
  {
    var s' := Step(s, Remove(i)).value;
    var r := s.readers[i];
    assert ReaderFits(s, r);
    forall k: nat | k < |s.owners| ensures InTable(s', k) <==> !ReaderEnded(s', k) {
      if k == r.conn.socket {
        assert s'.readers[i].conn.socket == k && s'.readers[i].phase == Finished;
      } else {
        assert SameFor(s, s', k);
        EndedSame(s, s', k);
        assert InTable(s', k) <==> InTable(s, k);
      }
    }
  }

  lemma NewSocketHasNoReader(s: State, k: nat)
    requires Inv(s) && k >= |s.owners|
    ensures !ReaderEnded(s, k)
  {
    assert forall i :: 0 <= i < |s.readers| ==> ReaderFits(s, s.readers[i]);
  }

  lemma DialKeepsKept(s: State, src: string)
    requires Inv(s) && Kept(s) && s.main == Ready
    ensures Kept(DialStep(s, src))
  {
    var s' := DialStep(s, src);
    forall k: nat | k < |s'.owners| ensures InTable(s', k) <==> !ReaderEnded(s', k) {
      EndedSame(s, s', k);
      if k < |s.owners| {
        assert InTable(s', k) <==> InTable(s, k) by {
          if src !in s.table && s.owners[k] == src { assert !InTable(s, k) && !InTable(s', k); }
        }
      } else {
        NewSocketHasNoReader(s, k);
      }
    }
  }

  lemma OtherKeepsKept(s: State, a: Action)
    requires Kept(s) && Step(s, a).Some? && Running(s) && !a.Packet? && !a.Remove? && !a.CloseAll?
    ensures Kept(Step(s, a).value)
  {
    var s' := Step(s, a).value;
    assert s'.table == s.table && s'.owners == s.owners && s'.closed == s.closed;
    forall k: nat | k < |s.owners| ensures InTable(s', k) <==> !ReaderEnded(s', k) {
      assert SameFor(s, s', k);
      EndedSame(s, s', k);
      assert InTable(s', k) <==> InTable(s, k);
    }
  }

  lemma KeepsKept(s: State, a: Action)
    requires Inv(s) && Kept(s) && Step(s, a).Some?
    ensures Kept(Step(s, a).value)
  {
    if Running(Step(s, a).value) {
      match a
      case Packet(src) => DialKeepsKept(s, src);
      case Remove(i) => RemoveKeepsKept(s, i);
      case _ => OtherKeepsKept(s, a);
    }
  }

  lemma AlwaysKept(schedule: seq<Action>)
    requires Run(Step, Init(), schedule).Some?
    ensures Inv(Run(Step, Init(), schedule).value) && Kept(Run(Step, Init(), schedule).value)
  {
    forall x, a | Inv(x) && Kept(x) && Step(x, a).Some? ensures Inv(Step(x, a).value) && Kept(Step(x, a).value) {
      KeepsInv(x, a);
      KeepsKept(x, a);
    }
    RunKeeps(Step, (x: State) => Inv(x) && Kept(x), Init(), schedule);
  }

  lemma StoppedStays(s: State, rest: seq<Action>)
    requires s.main == Stopped && Run(Step, s, rest).Some?
    ensures var end := Run(Step, s, rest).value; end.main == Stopped && end.closed == s.closed && end.owners == s.owners
  {
    RunKeeps(Step, (x: State) => x.main == Stopped && x.closed == s.closed && x.owners == s.owners, s, rest);
  }

  lemma ClosedAre(s: State, k: nat)
    requires Inv(s) && k < |s.owners|
    ensures k in Sockets(s.table) <==> InTable(s, k)
  {
    if k in Sockets(s.table) {
      var id :| id in s.table && s.table[id].socket == k;
      assert Genuine(s, s.table[id]);
    }
  }

  /** Once the loop has stopped, a socket that was dialled is never closed by the program if and only
      if its reader had ended before. */
  lemma LeftOpen(schedule: seq<Action>, rest: seq<Action>, k: nat)
    requires Run(Step, Init(), schedule).Some? && Run(Step, Init(), schedule).value.main == Failing
    requires Run(Step, Step(Run(Step, Init(), schedule).value, CloseAll).value, rest).Some?
    ensures var s := Run(Step, Init(), schedule).value;
      var end := Run(Step, Step(s, CloseAll).value, rest).value;
      |end.owners| == |s.owners| && (k < |s.owners| ==> (k !in end.closed <==> ReaderEnded(s, k)))
  {
    var s := Run(Step, Init(), schedule).value;
    AlwaysKept(schedule);
    StoppedStays(Step(s, CloseAll).value, rest);
    if k < |s.owners| { ClosedAre(s, k); }
  }
}
