/** The adapter that makes a byte stream of websocket messages (share/cnet/conn_ws.go): a read
    takes from the leftover of the last message or, when there is none, from the next message. */
module MessageStream {
  import opened Common

  type Bytes = seq<byte>

  /** What ReadMessage yields next: a message or an error. */
  datatype Incoming = Message(data: Bytes) | Failure

  datatype State = State(buff: Bytes, inbox: seq<Incoming>)

  function Take(src: Bytes, size: nat): (Bytes, Bytes) {
    if |src| > size then (src[..size], src[size..]) else (src, [])
  }

  /** One Read into a buffer of the given size: the bytes it returns, or None for an error, and
      the state it leaves. An exhausted inbox stands for a closed connection. */
  function ReadStep(s: State, size: nat): (Option<Bytes>, State) {
    if |s.buff| > 0 then
      var (out, rest) := Take(s.buff, size);
      (Some(out), State(rest, s.inbox))
    else if s.inbox == [] then (None, s)
    else
      match s.inbox[0]
      case Failure => (None, State([], s.inbox[1..]))
      case Message(data) =>
        var (out, rest) := Take(data, size);
        (Some(out), State(rest, s.inbox[1..]))
  }

  function OrEmpty(out: Option<Bytes>): Bytes {
    if out.Some? then out.value else []
  }

  /** All bytes that a sequence of reads returns, and the state after them. */
  function ReadAll(s: State, sizes: seq<nat>): (Bytes, State)
    decreases |sizes|
  {
    if sizes == [] then ([], s)
    else
      var (out, s1) := ReadStep(s, sizes[0]);
      var (more, s2) := ReadAll(s1, sizes[1..]);
      (OrEmpty(out) + more, s2)
  }

  /** The bytes of a list of incoming messages. */
  function Payload(inbox: seq<Incoming>): Bytes {
    if inbox == [] then []
    else (match inbox[0] case Message(data) => data case Failure => []) + Payload(inbox[1..])
  }

  lemma {:induction false} PayloadAppend(a: seq<Incoming>, b: seq<Incoming>)
    ensures Payload(a + b) == Payload(a) + Payload(b)
  {
    if a == [] {
      assert a + b == b;
    } else {
      assert (a + b)[0] == a[0] && (a + b)[1..] == a[1..] + b;
      PayloadAppend(a[1..], b);
    }
  }

  lemma TakeSplits(src: Bytes, size: nat)
    ensures var (out, rest) := Take(src, size);
            out + rest == src && |out| <= size && (rest != [] ==> |out| == size)
  {}

  /** The bytes returned from s to end, followed by the leftover, are the leftover of s followed by
      the messages consumed in between. */
  predicate IsStream(s: State, out: Bytes, end: State) {
    var consumed := |s.inbox| - |end.inbox|;
    && 0 <= consumed && end.inbox == s.inbox[consumed..]
    && out + end.buff == s.buff + Payload(s.inbox[..consumed])
  }

  /** For any messages and any read sizes. */
  lemma {:induction false} ReadsAreAStream(s: State, sizes: seq<nat>)
    ensures IsStream(s, ReadAll(s, sizes).0, ReadAll(s, sizes).1)
    decreases |sizes|
  {
    if sizes == [] {
      assert s.inbox[0..] == s.inbox && s.inbox[..0] == [];
    } else {
      var (first, s1) := ReadStep(s, sizes[0]);
      ReadIsAStream(s, sizes[0]);
      ReadsAreAStream(s1, sizes[1..]);
      StreamsJoin(s, OrEmpty(first), s1, ReadAll(s1, sizes[1..]).0, ReadAll(s1, sizes[1..]).1);
    }
  }

  lemma StreamsJoin(s: State, first: Bytes, s1: State, more: Bytes, end: State)
    requires IsStream(s, first, s1) && IsStream(s1, more, end)
    ensures IsStream(s, first + more, end)
  {
    var c0 := |s.inbox| - |s1.inbox|;
    var c1 := |s1.inbox| - |end.inbox|;
    Slices(s.inbox, c0, c1);
    PayloadAppend(s.inbox[..c0], s1.inbox[..c1]);
    Chain(first, more, s.buff, Payload(s.inbox[..c0]), s1.buff, Payload(s1.inbox[..c1]), end.buff);
  }

  lemma Slices(inbox: seq<Incoming>, c0: nat, c1: nat)
    requires c0 + c1 <= |inbox|
    ensures inbox[..c0 + c1] == inbox[..c0] + inbox[c0..][..c1] && inbox[c0..][c1..] == inbox[c0 + c1..]
  {}

  lemma Chain(out: Bytes, more: Bytes, b0: Bytes, p0: Bytes, b1: Bytes, p1: Bytes, b2: Bytes)
    requires out + b1 == b0 + p0 && more + b2 == b1 + p1
    ensures (out + more) + b2 == b0 + (p0 + p1)
  {
    assert (out + more) + b2 == out + (more + b2);
    assert out + (b1 + p1) == (out + b1) + p1;
    assert (b0 + p0) + p1 == b0 + (p0 + p1);
  }

  lemma ReadFits(s: State, size: nat)
    ensures |OrEmpty(ReadStep(s, size).0)| <= size
  {
    TakeSplits(s.buff, size);
    if s.inbox != [] && s.inbox[0].Message? { TakeSplits(s.inbox[0].data, size); }
  }

  lemma ReadIsAStream(s: State, size: nat)
    ensures var (out, s1) := ReadStep(s, size);
            IsStream(s, OrEmpty(out), s1) && |s.inbox| - |s1.inbox| <= 1
  {
    if |s.buff| > 0 {
      TakeSplits(s.buff, size);
    } else if s.inbox != [] {
      if s.inbox[0].Message? { TakeSplits(s.inbox[0].data, size); }
      assert s.inbox[..1] == [s.inbox[0]] && [s.inbox[0]][1..] == [];
      assert Payload([s.inbox[0]]) == match s.inbox[0] case Message(data) => data case Failure => [];
    }
  }

  // ---- reading back what was written ----

  /** Every Write sends its bytes as one message. */
  function Written(writes: seq<Bytes>): seq<Incoming> {
    if writes == [] then [] else [Message(writes[0])] + Written(writes[1..])
  }

  lemma {:induction false} WrittenAppend(writes: seq<Bytes>, b: Bytes)
    ensures Written(writes + [b]) == Written(writes) + [Message(b)]
    ensures Payload(Written(writes + [b])) == Payload(Written(writes)) + b
  {
    if writes == [] {
      assert [b][1..] == [];
    } else {
      assert (writes + [b])[1..] == writes[1..] + [b];
      WrittenAppend(writes[1..], b);
    }
    PayloadAppend(Written(writes), [Message(b)]);
    assert [Message(b)][1..] == [];
  }

  lemma {:induction false} WrittenPayload(writes: seq<Bytes>)
    ensures Payload(Written(writes)) == Flatten(writes) && |Written(writes)| == |writes|
    ensures forall i :: 0 <= i < |writes| ==> Written(writes)[i].Message?
  {
    if writes != [] {
      WrittenPayload(writes[1..]);
      assert Written(writes)[1..] == Written(writes[1..]);
    }
  }

  /** Bytes and messages that are still to be read. */
  function Remaining(s: State): nat { |s.buff| + |Payload(s.inbox)| + |s.inbox| }

  predicate NoFailure(s: State) { forall i :: 0 <= i < |s.inbox| ==> s.inbox[i].Message? }

  lemma ReadProgress(s: State, size: nat)
    requires size > 0 && NoFailure(s)
    ensures var s1 := ReadStep(s, size).1;
            NoFailure(s1) && (Remaining(s1) < Remaining(s) || Remaining(s1) == Remaining(s) == 0)
  {
    if |s.buff| > 0 {
      TakeSplits(s.buff, size);
    } else if s.inbox != [] {
      assert s.inbox[0].Message?;
      TakeSplits(s.inbox[0].data, size);
    }
  }

  lemma {:induction false} ReadsFinish(s: State, sizes: seq<nat>)
    requires NoFailure(s) && (forall i :: 0 <= i < |sizes| ==> sizes[i] > 0) && |sizes| >= Remaining(s)
    ensures Remaining(ReadAll(s, sizes).1) == 0
    decreases |sizes|
  {
    if sizes != [] {
      ReadProgress(s, sizes[0]);
      ReadsFinish(ReadStep(s, sizes[0]).1, sizes[1..]);
    }
  }

  lemma ReadsConserve(s: State, sizes: seq<nat>)
    ensures var (out, end) := ReadAll(s, sizes);
            out + (end.buff + Payload(end.inbox)) == s.buff + Payload(s.inbox)
  {
    var (out, end) := ReadAll(s, sizes);
    ReadsAreAStream(s, sizes);
    var c := |s.inbox| - |end.inbox|;
    PayloadSplits(s.inbox, c);
    Regroup(out, end.buff, s.buff, Payload(s.inbox[..c]), Payload(s.inbox[c..]));
  }

  lemma PayloadSplits(inbox: seq<Incoming>, c: nat)
    requires c <= |inbox|
    ensures Payload(inbox) == Payload(inbox[..c]) + Payload(inbox[c..])
  {
    PayloadAppend(inbox[..c], inbox[c..]);
    assert inbox == inbox[..c] + inbox[c..];
  }

  lemma Regroup(out: Bytes, rest: Bytes, buff: Bytes, read: Bytes, unread: Bytes)
    requires out + rest == buff + read
    ensures out + (rest + unread) == buff + (read + unread)
  {
    assert out + (rest + unread) == (out + rest) + unread;
    assert buff + (read + unread) == (buff + read) + unread;
  }

  /** Nothing is lost, repeated or reordered: any reads of at least a byte each return a prefix
      of what was written, what is left follows it, and enough reads return all of it. */
  lemma ReadsWhatWasWritten(writes: seq<Bytes>, sizes: seq<nat>)
    requires forall i :: 0 <= i < |sizes| ==> sizes[i] > 0
    ensures var (out, end) := ReadAll(State([], Written(writes)), sizes);
            && out + (end.buff + Payload(end.inbox)) == Flatten(writes)
            && (|sizes| >= |Flatten(writes)| + |writes| ==> out == Flatten(writes))
  {
    var s := State([], Written(writes));
    WrittenPayload(writes);
    ReadsConserve(s, sizes);
    assert [] + Payload(s.inbox) == Payload(s.inbox);
    if |sizes| >= |Flatten(writes)| + |writes| {
      ReadsFinish(s, sizes);
      var (out, end) := ReadAll(s, sizes);
      assert out + (end.buff + Payload(end.inbox)) == out;
    }
  }

  // ---- the connection as an object ----

  class WsConn {
    var buff: Bytes
    var inbox: seq<Incoming>
    var outbox: seq<Bytes>

    function Current(): State
      reads this
    {
      State(buff, inbox)
    }

    constructor (incoming: seq<Incoming>)
      ensures Current() == State([], incoming) && outbox == []
    {
      buff, inbox, outbox := [], incoming, [];
    }

    method ReadMessage() returns (message: Option<Bytes>)
      modifies `inbox
      ensures message == (if old(inbox) != [] && old(inbox)[0].Message? then Some(old(inbox)[0].data) else None)
      ensures inbox == if old(inbox) == [] then [] else old(inbox)[1..]
    {
      if inbox == [] { return None; }
      message := match inbox[0] case Message(data) => Some(data) case Failure => None;
      inbox := inbox[1..];
    }

    /** copy(dst, src[..count]) */
    method Copy(dst: array<byte>, src: Bytes, count: nat)
      requires count <= |src| && count <= dst.Length
      modifies dst
      ensures dst[..] == src[..count] + old(dst[..])[count..]
    {
      var i := 0;
      while i < count
        invariant 0 <= i <= count
        invariant forall k :: 0 <= k < dst.Length ==> dst[k] == if k < i then src[k] else old(dst[k])
      {
        dst[i] := src[i];
        i := i + 1;
      }
    }

    /** Fills the front of dst; n is None for an error. */
    method Read(dst: array<byte>) returns (n: Option<nat>)
      modifies this`buff, this`inbox, dst
      ensures var (out, next) := old(ReadStep(Current(), dst.Length));
              && Current() == next
              && n == (if out == None then None else Some(|out.value|))
              && |OrEmpty(out)| <= dst.Length
              && dst[..] == OrEmpty(out) + old(dst[..])[|OrEmpty(out)|..]
    {
      ReadFits(Current(), dst.Length);
      var src: Bytes;
      if |buff| > 0 {
        src := buff;
        buff := [];
      } else {
        var message := ReadMessage();
        if message == None {
          return None;
        }
        src := message.value;
      }
      var count := if |src| > dst.Length then dst.Length else |src|;
      Copy(dst, src, count);
      if |src| > dst.Length {
        buff := src[dst.Length..];
      }
      n := Some(count);
    }

    /** What is written adds one message to what the other side can read. */
    method Write(b: Bytes, sent: bool) returns (n: Option<nat>)
      modifies `outbox
      ensures Written(outbox) == old(Written(outbox)) + (if n.Some? then [Message(b)] else [])
      ensures Payload(Written(outbox)) == old(Payload(Written(outbox))) + (if n.Some? then b else [])
      ensures n == if sent then Some(|b|) else None
    {
      if !sent { return None; }
      WrittenAppend(outbox, b);
      outbox := outbox + [b];
      n := Some(|b|);
    }
  }
}
