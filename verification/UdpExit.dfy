/** The UDP exit node (share/tunnel/tunnel_out_ssh_udp.go): one loop dials a socket per source
    and writes its packets, up to a bound it starts a reader per socket, and each reader removes
    its own entry of the table when it ends. The loop and the readers interleave freely. */
module UdpExit {
  import opened Common

  const MAX_CONNS := 100

  datatype Conn = Conn(id: string, socket: nat)

  type Table = map<string, Conn>

  // ---- the transition system ----

  datatype Main =
    | Ready
    | Dialed(src: string, conn: Conn, existed: bool)
    | Writing(src: string, conn: Conn)
    | Failing   // handleWrite has returned an error
    | Stopped   // closeAll has run

  datatype Phase = Reading | Removing | Finished

  datatype Reader = Reader(src: string, conn: Conn, phase: Phase)

  /** `owners`, `written`, `live`, `replies` and `closed` record the history: the source each
      socket was dialled for, the sources whose packets were written to it, the ids of the readers
      under way, the replies sent back, each with the socket it was read from, and the sockets
      that were closed. */
  datatype State = State(
    table: Table,
    main: Main,
    readers: seq<Reader>,
    owners: seq<string>,
    written: seq<set<string>>,
    live: set<string>,
    replies: seq<(string, nat)>,
    closed: set<nat>)

  datatype Action =
    | Packet(src: string) | DecodeFails | DialFails(src: string)
    | Decide | WriteOk | WriteFails | CloseAll
    | Reply(i: nat) | ReadEnds(i: nat) | Remove(i: nat)

  function Init(): State { State(map[], Ready, [], [], [], {}, [], {}) }

  function Sockets(table: Table): set<nat> { set id | id in table :: table[id].socket }

  /** dial: the entry of the source, or a new socket entered for it. */
  function DialStep(s: State, src: string): State {
    if src in s.table then s.(main := Dialed(src, s.table[src], true))
    else
      var conn := Conn(src, |s.owners|);
      s.(table := s.table[src := conn], main := Dialed(src, conn, false),
         owners := s.owners + [src], written := s.written + [{}])
  }

  /** A reader for a new entry, as long as the table is not over the bound. */
  function DecideStep(s: State, src: string, conn: Conn, existed: bool): State {
    var s := s.(main := Writing(src, conn));
    if !existed && |s.table| <= MAX_CONNS then
      s.(readers := s.readers + [Reader(src, conn, Reading)], live := s.live + {src})
    else s
  }

  function ReaderStep(s: State, a: Action): Option<State>
    requires (a.Reply? || a.ReadEnds? || a.Remove?) && a.i < |s.readers|
  {
    var r := s.readers[a.i];
    match a
    case Reply(i) => if r.phase == Reading then Some(s.(replies := s.replies + [(r.src, r.conn.socket)])) else None
    case ReadEnds(i) => if r.phase == Reading then Some(s.(readers := s.readers[i := r.(phase := Removing)])) else None
    case Remove(i) =>
      if r.phase == Removing then
        Some(s.(table := s.table - {r.conn.id}, readers := s.readers[i := r.(phase := Finished)], live := s.live - {r.conn.id}))
      else None
  }

  function Step(s: State, a: Action): Option<State> {
    match a
    case Packet(src) => if s.main == Ready then Some(DialStep(s, src)) else None
    case DecodeFails => if s.main == Ready then Some(s.(main := Failing)) else None
    case DialFails(src) => if s.main == Ready && src !in s.table then Some(s.(main := Failing)) else None
    case Decide => if s.main.Dialed? then Some(DecideStep(s, s.main.src, s.main.conn, s.main.existed)) else None
    case WriteOk =>
      if s.main.Writing? && s.main.conn.socket < |s.written| then
        var k := s.main.conn.socket;
        Some(s.(main := Ready, written := s.written[k := s.written[k] + {s.main.src}]))
      else None
    case WriteFails => if s.main.Writing? then Some(s.(main := Failing)) else None
    case CloseAll => if s.main == Failing then Some(s.(main := Stopped, table := map[], closed := s.closed + Sockets(s.table))) else None
    case _ => if a.i < |s.readers| then ReaderStep(s, a) else None
  }

  // ---- the invariant ----

  /** A connection was dialled for the source that names it. */
  predicate Genuine(s: State, c: Conn) {
    c.socket < |s.owners| && s.owners[c.socket] == c.id
  }

  predicate Running(s: State) { s.main != Stopped }

  function Live(r: Reader): nat { if r.phase == Finished then 0 else 1 }

  ghost predicate TableFits(s: State) {
    forall k :: k in s.table ==> s.table[k].id == k && Genuine(s, s.table[k])
  }

  predicate ReaderFits(s: State, r: Reader) {
    && r.src == r.conn.id && Genuine(s, r.conn)
    && (r.phase != Finished ==>
        r.conn.id in s.live && (Running(s) ==> r.conn.id in s.table && s.table[r.conn.id] == r.conn))
  }

  ghost predicate ReadersFit(s: State) {
    && (forall i :: 0 <= i < |s.readers| ==> ReaderFits(s, s.readers[i]))
    && (forall i, j :: 0 <= i < j < |s.readers| && s.readers[i].phase != Finished && s.readers[j].phase != Finished
          ==> s.readers[i].conn.id != s.readers[j].conn.id)
    && Sum(s.readers, Live) == |s.live| <= MAX_CONNS
    && (Running(s) ==> s.live <= s.table.Keys)
  }

  ghost predicate MainFits(s: State) {
    match s.main
    case Dialed(src, conn, existed) =>
      conn.id == src && Genuine(s, conn) && (!existed ==> src in s.table && s.table[src] == conn && src !in s.live)
    case Writing(src, conn) => conn.id == src && Genuine(s, conn)
    case _ => true
  }

  ghost predicate SocketsFit(s: State) {
    && |s.written| == |s.owners|
    && (forall k :: 0 <= k < |s.written| ==> s.written[k] <= {s.owners[k]})
    && (forall j :: 0 <= j < |s.replies| ==> s.replies[j].1 < |s.owners| && s.replies[j].0 == s.owners[s.replies[j].1])
  }

  ghost predicate Inv(s: State) { TableFits(s) && ReadersFit(s) && MainFits(s) && SocketsFit(s) }

  lemma {:induction false} SubsetSize<T>(a: set<T>, b: set<T>)
    requires a <= b
    ensures |a| <= |b|
  {
    if a != {} {
      var x :| x in a;
      SubsetSize(a - {x}, b - {x});
    }
  }

  /** A step of the loop that leaves the readers alone and loses nothing they need. */
  lemma ReadersStay(s: State, s': State)
    requires ReadersFit(s) && s'.readers == s.readers && s'.live == s.live && s.owners <= s'.owners
    requires Running(s') ==> Running(s) && forall k :: k in s.table ==> k in s'.table && s'.table[k] == s.table[k]
    ensures ReadersFit(s')
  {
    forall i | 0 <= i < |s.readers| ensures ReaderFits(s', s.readers[i]) {
      assert ReaderFits(s, s.readers[i]);
    }
  }

  lemma ReaderStarts(s: State, s': State, src: string, conn: Conn)
    requires ReadersFit(s) && Running(s) && Running(s') && conn.id == src && Genuine(s, conn)
    requires src in s.table && s.table[src] == conn && src !in s.live && |s.table| <= MAX_CONNS
    requires s' == s.(main := s'.main, readers := s.readers + [Reader(src, conn, Reading)], live := s.live + {src})
    ensures ReadersFit(s')
  {
    SumAppend(s.readers, Reader(src, conn, Reading), Live);
    SubsetSize(s'.live, s.table.Keys);
    forall i | 0 <= i < |s.readers| ensures ReaderFits(s', s.readers[i]) && (s.readers[i].phase != Finished ==> s.readers[i].conn.id != src) {
      assert ReaderFits(s, s.readers[i]);
    }
  }

  /** A reader that goes on, still under way. */
  lemma ReaderMoves(s: State, s': State, k: nat)
    requires ReadersFit(s) && k < |s.readers| && s.readers[k].phase == Reading
    requires s' == s.(readers := s.readers[k := s.readers[k].(phase := Removing)])
    ensures ReadersFit(s')
  {
    var r := s.readers[k];
    SumUpdate(s.readers, k, r.(phase := Removing), Live);
    forall i | 0 <= i < |s.readers| ensures ReaderFits(s', s'.readers[i]) {
      assert ReaderFits(s, s.readers[i]);
    }
  }

  lemma ReaderLeaves(s: State, s': State, k: nat)
    requires ReadersFit(s) && k < |s.readers| && s.readers[k].phase == Removing
    requires var r := s.readers[k];
      s' == s.(table := s.table - {r.conn.id}, readers := s.readers[k := r.(phase := Finished)], live := s.live - {r.conn.id})
    ensures ReadersFit(s')
  {
    var r := s.readers[k];
    assert ReaderFits(s, r);
    SumUpdate(s.readers, k, r.(phase := Finished), Live);
    forall i | 0 <= i < |s.readers| ensures ReaderFits(s', s'.readers[i]) {
      assert ReaderFits(s, s.readers[i]);
      if i != k && s.readers[i].phase != Finished {
        assert s.readers[i].conn.id != r.conn.id;
      }
    }
  }

  lemma PacketKeeps(s: State, src: string)
    requires Inv(s) && s.main == Ready
    ensures Inv(DialStep(s, src))
  {
    ReadersStay(s, DialStep(s, src));
  }

  lemma DecideKeeps(s: State)
    requires Inv(s) && s.main.Dialed?
    ensures Inv(DecideStep(s, s.main.src, s.main.conn, s.main.existed))
  {
    var (src, conn, existed) := (s.main.src, s.main.conn, s.main.existed);
    var s' := DecideStep(s, src, conn, existed);
    if !existed && |s.table| <= MAX_CONNS {
      ReaderStarts(s, s', src, conn);
    } else {
      ReadersStay(s, s');
    }
  }

  lemma MainKeeps(s: State, a: Action)
    requires Inv(s) && Step(s, a).Some?
    requires a.DecodeFails? || a.DialFails? || a.WriteOk? || a.WriteFails? || a.CloseAll?
    ensures Inv(Step(s, a).value)
  {
    ReadersStay(s, Step(s, a).value);
  }

  lemma ReaderKeeps(s: State, a: Action)
    requires Inv(s) && Step(s, a).Some? && (a.Reply? || a.ReadEnds?)
    ensures Inv(Step(s, a).value)
  {
    var s' := Step(s, a).value;
    assert ReaderFits(s, s.readers[a.i]);
    if a.ReadEnds? { ReaderMoves(s, s', a.i); } else { ReadersStay(s, s'); }
  }

  lemma RemoveKeeps(s: State, k: nat)
    requires Inv(s) && Step(s, Remove(k)).Some?
    ensures Inv(Step(s, Remove(k)).value)
  {
    var s' := Step(s, Remove(k)).value;
    assert ReaderFits(s, s.readers[k]);
    ReaderLeaves(s, s', k);
  }

  lemma KeepsInv(s: State, a: Action)
    requires Inv(s) && Step(s, a).Some?
    ensures Inv(Step(s, a).value)
  {
    match a
    case Packet(src) => PacketKeeps(s, src);
    case Decide => DecideKeeps(s);
    case Reply(_) => ReaderKeeps(s, a);
    case ReadEnds(_) => ReaderKeeps(s, a);
    case Remove(k) => RemoveKeeps(s, k);
    case _ => MainKeeps(s, a);
  }

  // ---- the theorems over whole runs ----

  lemma AlwaysInv(schedule: seq<Action>)
    requires Run(Step, Init(), schedule).Some?
    ensures Inv(Run(Step, Init(), schedule).value)
  {
    forall x, a | Inv(x) && Step(x, a).Some? ensures Inv(Step(x, a).value) { KeepsInv(x, a); }
    RunKeeps(Step, (x: State) => Inv(x), Init(), schedule);
  }

  /** At most 100 readers are under way; while the loop runs their ids are distinct and each
      finds its own connection in the table. */
  lemma ReadersAreBounded(schedule: seq<Action>)
    requires Run(Step, Init(), schedule).Some?
    ensures var s := Run(Step, Init(), schedule).value;
            && Sum(s.readers, Live) <= 100
            && (forall i, j :: 0 <= i < j < |s.readers| && s.readers[i].phase != Finished && s.readers[j].phase != Finished
                  ==> s.readers[i].conn.id != s.readers[j].conn.id)
            && (forall i :: Running(s) && 0 <= i < |s.readers| && s.readers[i].phase != Finished ==>
                  s.readers[i].conn.id in s.table && s.table[s.readers[i].conn.id] == s.readers[i].conn)
  {
    AlwaysInv(schedule);
    var s := Run(Step, Init(), schedule).value;
    assert forall i :: 0 <= i < |s.readers| ==> ReaderFits(s, s.readers[i]);
  }

  /** No socket ever carries packets of two sources, and every reply is tagged with the only
      source whose packets can have been written to the socket it was read from. */
  lemma SourcesDoNotMix(schedule: seq<Action>)
    requires Run(Step, Init(), schedule).Some?
    ensures var s := Run(Step, Init(), schedule).value;
            && (forall k, x, y :: 0 <= k < |s.written| && x in s.written[k] && y in s.written[k] ==> x == y)
            && (forall j :: 0 <= j < |s.replies| ==>
                  s.replies[j].1 < |s.written| && s.written[s.replies[j].1] <= {s.replies[j].0})
  {
    AlwaysInv(schedule);
    var s := Run(Step, Init(), schedule).value;
    forall k, x, y | 0 <= k < |s.written| && x in s.written[k] && y in s.written[k] ensures x == y {
      assert s.written[k] <= {s.owners[k]};
    }
  }

  /** A reader that ends removes exactly its own entry; the next packet of its source is then
      dialled for on a new socket. */
  lemma RemoveIsOwn(s: State, i: nat)
    requires Inv(s) && Running(s) && Step(s, Remove(i)).Some?
    ensures var s' := Step(s, Remove(i)).value;
            && s.readers[i].conn.id in s.table && s.table[s.readers[i].conn.id] == s.readers[i].conn
            && s'.table.Keys == s.table.Keys - {s.readers[i].src}
            && (forall k :: k in s'.table ==> s'.table[k] == s.table[k])
            && DialStep(s', s.readers[i].src).main == Dialed(s.readers[i].src, Conn(s.readers[i].src, |s.owners|), false)
  {
    assert ReaderFits(s, s.readers[i]);
  }

  // ---- sources that came when the table was full ----

  /** A source with an entry but no reader, now or about to start. */
  predicate Unread(s: State, k: string) {
    && k !in s.live && (Running(s) ==> k in s.table)
    && !(s.main.Dialed? && s.main.src == k && !s.main.existed)
  }

  /** Whether a newly dialled source gets a reader is decided by the size of the table alone. */
  lemma ReaderIffRoom(s: State)
    requires Inv(s) && s.main.Dialed? && !s.main.existed
    ensures var s' := Step(s, Decide).value;
            && (s.main.src in s'.live <==> |s.table| <= 100)
            && (|s.table| > 100 ==> Unread(s', s.main.src))
  {}

  function TaggedWith(k: string): ((string, nat)) -> nat {
    (reply: (string, nat)) => if reply.0 == k then 1 else 0
  }

  /** Whoever is read from is another source. */
  lemma ReadIsOther(s: State, i: nat, k: string)
    requires ReadersFit(s) && Unread(s, k) && i < |s.readers| && s.readers[i].phase != Finished
    ensures s.readers[i].src != k && s.readers[i].conn.id != k
  {
    assert ReaderFits(s, s.readers[i]);
  }

  lemma ReaderKeepsUnread(s: State, a: Action, k: string)
    requires ReadersFit(s) && Unread(s, k) && Step(s, a).Some? && (a.Reply? || a.ReadEnds? || a.Remove?)
    ensures Unread(Step(s, a).value, k)
    ensures Sum(Step(s, a).value.replies, TaggedWith(k)) == Sum(s.replies, TaggedWith(k))
  {
    var r := s.readers[a.i];
    ReadIsOther(s, a.i, k);
    SumAppend(s.replies, (r.src, r.conn.socket), TaggedWith(k));
  }

  lemma KeepsUnread(s: State, a: Action, k: string)
    requires Inv(s) && Unread(s, k) && Step(s, a).Some?
    ensures Unread(Step(s, a).value, k)
    ensures Sum(Step(s, a).value.replies, TaggedWith(k)) == Sum(s.replies, TaggedWith(k))
  {
    if a.Reply? || a.ReadEnds? || a.Remove? { ReaderKeepsUnread(s, a, k); }
  }

  ghost predicate Muted(s: State, k: string, replies: nat) {
    Inv(s) && Unread(s, k) && Sum(s.replies, TaggedWith(k)) == replies
  }

  lemma KeepsMuted(s: State, a: Action, k: string, replies: nat)
    requires Muted(s, k, replies) && Step(s, a).Some?
    ensures Muted(Step(s, a).value, k, replies)
  {
    KeepsInv(s, a);
    KeepsUnread(s, a, k);
  }

  /** A source without a reader never gets one and never gets a reply, however the run goes on. */
  lemma UnreadForever(s: State, schedule: seq<Action>, k: string)
    requires Inv(s) && Unread(s, k) && Run(Step, s, schedule).Some?
    ensures var end := Run(Step, s, schedule).value;
            Unread(end, k) && Sum(end.replies, TaggedWith(k)) == Sum(s.replies, TaggedWith(k))
  {
    var n := Sum(s.replies, TaggedWith(k));
    forall x, a | Muted(x, k, n) && Step(x, a).Some? ensures Muted(Step(x, a).value, k, n) { KeepsMuted(x, a, k, n); }
    RunKeeps(Step, (x: State) => Muted(x, k, n), s, schedule);
  }
}
