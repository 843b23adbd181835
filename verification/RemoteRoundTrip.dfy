/** Which remotes survive being encoded and decoded again: exactly the canonical ones. */
module RemoteRoundTrip {
  import opened Common
  import opened Text
  import opened RemoteGrammar
  import opened RemoteTokens

  // ---- what a canonical remote is ----

  predicate CanonicalHost(e: Platform, h: string) {
    IsToken(h) && !IsPort(h) && !HasProto(h) && e.isHost(h)
  }

  predicate CanonicalPlain(e: Platform, r: Remote) {
    && r.udsMode == "" && r.udsSocketPath == ""
    && r.localProto == r.remoteProto && (r.remoteProto == "tcp" || r.remoteProto == "udp")
    && (if r.socks then r.remoteProto == "tcp" && r.remoteHost == "" && r.remotePort == ""
        else CanonicalHost(e, r.remoteHost) && IsPort(r.remotePort))
    && (if r.stdio then
          && !r.reverse
          && r.localHost == (if r.socks then "127.0.0.1" else "0.0.0.0")
          && r.localPort == (if r.socks then "1080" else r.remotePort)
        else
          && CanonicalHost(e, r.localHost) && IsPort(r.localPort) && r.localHost != "stdio"
          && (if r.reverse then !HasPrefix(r.localHost, "uds-")
              else r.localHost != "R" && r.localHost != UDS_LISTEN && r.localHost != UDS_PAIR))
  }

  // ---- ports and hosts as tokens ----

  lemma PortText(p: string)
    requires IsPort(p)
    ensures AllPlain(p) && p != "" && IsToken(p) && !HasProto(p) && p != "socks" && p != "stdio"
    ensures forall i :: 0 <= i < |p| ==> '+' <= p[i] <= '9' && p[i] != '/'
  {
    assert forall i :: 1 <= i < |p| ==> p[i] == p[1..][i - 1];
    assert "socks"[0] == 's' && "stdio"[0] == 's';
  }

  lemma PortWithProto(e: Platform, p: string)
    requires IsPort(p)
    ensures IsToken(p + "/udp") && L4Proto(e, p + "/udp") == (p, "udp")
  {
    PortText(p);
    PortIsLower(e, p);
    UdpSuffix(p);
    PlainAppend(p, "/udp");
  }

  lemma UdpSuffix(p: string)
    ensures var t := p + "/udp"; HasProto(t) && t[|t| - 3..] == "udp" && t[..|t| - 4] == p
  {
    var t := p + "/udp";
    assert t[|t| - 4] == '/' && t[|t| - 3] == 'u' && t[|t| - 2] == 'd' && t[|t| - 1] == 'p';
    assert t[|t| - 3..] == "udp";
  }

  lemma PortIsLower(e: Platform, p: string)
    requires forall i :: 0 <= i < |p| ==> '+' <= p[i] <= '9'
    ensures ToLower(e, p) == p
  {}

  lemma PlainAppend(s: string, t: string)
    requires AllPlain(s) && AllPlain(t)
    ensures AllPlain(s + t)
  {}

  /** What the decoder makes of a host token: nothing that is a port, and a token or nothing. */
  lemma HeadText(e: Platform, t: string)
    requires IsToken(t)
    ensures var (head, proto) := L4Proto(e, t);
      && (head == "" || IsToken(head))
      && (HasProto(t) ==> |head| == |t| - 4)
      && (!HasProto(t) ==> head == t)
  {
    if HasProto(t) {
      var head := ToLower(e, t[..|t| - 4]);
      forall i | 0 <= i < |head| ensures Plain(head[i]) {
        assert Plain(t[i]);
      }
      assert AllPlain(head);
    }
  }

  // ---- what every accepted non-socket string decodes to ----

  predicate HostOrNothing(h: string) { h == "" || (IsToken(h) && !IsPort(h)) }

  predicate PortOrNothing(p: string) { p == "" || IsPort(p) }

  /** The invariant of the back-to-front scan; `begun` once a token that settles the remote port
      has been absorbed. */
  ghost predicate Scanned(r: Remote, begun: bool) {
    && HostOrNothing(r.localHost) && HostOrNothing(r.remoteHost)
    && PortOrNothing(r.localPort) && PortOrNothing(r.remotePort)
    && (r.socks ==> r.remoteHost == "" && r.remotePort == "")
    && (!r.socks && r.remotePort == "" ==> r.localPort == "" && r.remoteHost == "" && r.localHost == "")
    && (!r.socks && r.remotePort != "" ==> r.localPort != "")
    && (begun ==> r.socks || r.remotePort != "")
    && r.udsMode == "" && r.udsSocketPath == ""
  }

  /** What the tokenizer guarantees of the token behind a piece. */
  predicate Possible(k: Piece) {
    match k
    case SocksWord => true
    case StdioWord => true
    case PortPiece(p, proto) => IsPort(p)
    case HostPiece(h, valid, proto) => HostOrNothing(h)
  }

  lemma PiecesArePossible(e: Platform, parts: seq<string>)
    requires forall t :: t in parts ==> IsToken(t)
    ensures forall k :: k in Pieces(e, parts) ==> Possible(k)
  {
    forall i | 0 <= i < |parts| ensures Possible(Pieces(e, parts)[i]) {
      PieceIsPossible(e, parts[i], i == |parts| - 1, i == 0);
    }
  }

  lemma PieceIsPossible(e: Platform, t: string, last: bool, first: bool)
    requires IsToken(t)
    ensures Possible(Classify(e, t, last, first))
  {
    HeadText(e, t);
  }

  lemma NoteKeeps(proto: string, r: Remote, begun: bool)
    requires Scanned(r, begun)
    ensures var r' := NoteProto(proto, r);
      r' == r.(localProto := r'.localProto, remoteProto := r'.remoteProto)
  {}

  lemma PortKeeps(p: string, proto: string, first: bool, r: Remote)
    requires IsPort(p) && Scanned(r, !first)
    ensures var r' := Apply(PortPiece(p, proto), r).value; Scanned(r', true) && r'.reverse == r.reverse
  {
    NoteKeeps(proto, r, !first);
    assert !IsPort("");
  }

  lemma HostKeeps(h: string, valid: bool, proto: string, first: bool, r: Remote)
    requires HostOrNothing(h) && Scanned(r, !first) && (first ==> r == Blank(r.reverse))
    requires Apply(HostPiece(h, valid, proto), r).Ok?
    ensures var r' := Apply(HostPiece(h, valid, proto), r).value; Scanned(r', true) && r'.reverse == r.reverse
  {
    NoteKeeps(proto, r, !first);
  }

  lemma ApplyKeeps(k: Piece, first: bool, r: Remote)
    requires Possible(k) && Scanned(r, !first) && (first ==> r == Blank(r.reverse))
    requires (k == SocksWord ==> first) && (k == StdioWord ==> !first)
    requires Apply(k, r).Ok?
    ensures Scanned(Apply(k, r).value, true) && Apply(k, r).value.reverse == r.reverse
  {
    match k
    case PortPiece(p, proto) => PortKeeps(p, proto, first, r);
    case HostPiece(h, valid, proto) => HostKeeps(h, valid, proto, first, r);
    case _ =>
  }

  lemma {:induction false} ScanKeeps(ks: seq<Piece>, i: nat, r: Remote)
    requires i <= |ks| && (forall k :: k in ks ==> Possible(k))
    requires forall j :: 0 <= j < |ks| - 1 ==> ks[j] != SocksWord
    requires |ks| > 0 ==> ks[|ks| - 1] != StdioWord
    requires i == |ks| ==> r == Blank(r.reverse)
    requires Scanned(r, i < |ks|) && Scan(ks, i, r).Ok?
    ensures var r' := Scan(ks, i, r).value;
      Scanned(r', ks != []) && r'.reverse == r.reverse
  {
    if i > 0 {
      ApplyKeeps(ks[i - 1], i == |ks|, r);
      ScanKeeps(ks, i - 1, Apply(ks[i - 1], r).value);
    }
  }

  /** The output guarantee of the decoder. */
  predicate WellFormed(r: Remote) {
    && r.udsMode == "" && r.udsSocketPath == ""
    && IsToken(r.localHost) && !IsPort(r.localHost) && IsPort(r.localPort)
    && r.localProto == r.remoteProto && (r.socks ==> r.remoteProto == "tcp")
    && !(r.stdio && r.reverse)
    && (if r.socks then r.remoteHost == "" && r.remotePort == ""
        else IsToken(r.remoteHost) && !IsPort(r.remoteHost) && IsPort(r.remotePort))
  }

  lemma DefaultTexts()
    ensures IsToken("0.0.0.0") && !IsPort("0.0.0.0") && IsToken("127.0.0.1") && !IsPort("127.0.0.1")
    ensures IsPort("1080")
  {
    assert "0.0.0.0"[1] == '.' && "127.0.0.1"[3] == '.';
    var p := "1080";
    assert DigitsValue(p, 0, 1) == 1 && DigitsValue(p, 0, 2) == 10 && DigitsValue(p, 0, 3) == 108;
  }

  lemma DecodedIsWellFormed(e: Platform, parts: seq<string>, reverse: bool)
    requires parts != ["stdio"] && forall t :: t in parts ==> IsToken(t)
    requires DecodeParts(e, parts, reverse).Ok?
    ensures WellFormed(DecodeParts(e, parts, reverse).value)
    ensures DecodeParts(e, parts, reverse).value.reverse == reverse
  {
    PiecesArePossible(e, parts);
    ScanKeeps(Pieces(e, parts), |parts|, Blank(reverse));
    DefaultTexts();
  }

  // ---- the encoding of a well-formed remote, token by token ----

  function RemotePortToken(r: Remote): string {
    r.remotePort + (if r.remoteProto == "udp" then "/udp" else "")
  }

  function Spell(r: Remote): seq<string> {
    (if r.stdio then ["stdio"] else [r.localHost, r.localPort])
    + (if r.socks then ["socks"] else [r.remoteHost, RemotePortToken(r)])
  }

  lemma SpellTokens(e: Platform, r: Remote)
    requires WellFormed(r)
    ensures forall t :: t in Spell(r) ==> IsToken(t)
  {
    PortText(r.localPort);
    assert IsToken("socks") && IsToken("stdio");
    if !r.socks { RemotePortTokenIs(e, r); }
  }

  lemma RemotePortTokenIs(e: Platform, r: Remote)
    requires IsPort(r.remotePort)
    ensures IsToken(RemotePortToken(r))
  {
    PortText(r.remotePort);
    PortWithProto(e, r.remotePort);
    assert r.remotePort + "" == r.remotePort;
  }

  lemma JoinCons(t: string, ts: seq<string>)
    requires ts != []
    ensures Join([t] + ts) == t + ":" + Join(ts)
  {
    assert ([t] + ts)[1..] == ts;
  }

  lemma EncodeSpells(r: Remote)
    requires WellFormed(r)
    ensures Encode(r) == (if r.reverse then REV_PREFIX else "") + Join(Spell(r))
  {
    EncodePlain(r);
    SpellJoins(r);
  }

  function Printed(r: Remote): string { RemotePart(r) + (if r.remoteProto == "udp" then "/udp" else "") }

  lemma EncodePlain(r: Remote)
    requires !IsUds(r) && r.localPort != ""
    ensures Encode(r) == (if r.reverse then REV_PREFIX else "") + (LocalPart(r) + ":" + Printed(r))
  {}

  lemma RemoteJoins(r: Remote)
    requires WellFormed(r) && !r.socks
    ensures Join([r.remoteHost, RemotePortToken(r)]) == Printed(r)
  {
    JoinCons(r.remoteHost, [RemotePortToken(r)]);
    assert [r.remoteHost, RemotePortToken(r)] == [r.remoteHost] + [RemotePortToken(r)];
  }

  lemma SpellJoins(r: Remote)
    requires WellFormed(r)
    ensures Join(Spell(r)) == LocalPart(r) + ":" + Printed(r)
  {
    var remote := if r.socks then ["socks"] else [r.remoteHost, RemotePortToken(r)];
    var printed := Printed(r);
    if !r.socks { RemoteJoins(r); }
    if r.stdio {
      JoinCons("stdio", remote);
    } else {
      JoinCons(r.localPort, remote);
      JoinCons(r.localHost, [r.localPort] + remote);
      assert Spell(r) == [r.localHost] + ([r.localPort] + remote);
      assert r.localHost + ":" + r.localPort + ":" + printed
          == r.localHost + ":" + (r.localPort + ":" + printed);
    }
  }

  lemma FieldPrefix(a: string, x: string, p: string)
    requires IsToken(a) && AllPlain(p) && p != ""
    ensures HasPrefix(a + ":" + x, p) <==> HasPrefix(a, p)
    ensures HasPrefix(a + ":" + x, p + ":") <==> a == p
  {
    var s := a + ":" + x;
    assert s[|a|] == ':' && forall i :: 0 <= i < |a| ==> s[i] == a[i];
    if HasPrefix(s, p) {
      assert forall i :: 0 <= i < |p| ==> s[i] == p[i];
    }
    if HasPrefix(s, p + ":") {
      assert forall i :: 0 <= i < |p| + 1 ==> s[i] == (p + ":")[i];
      assert s[|p|] == ':' && s[0] == p[0];
      assert |p| == |a|;
      assert a == s[..|p|];
    }
  }

  // ---- decoding the spelling ----

  lemma ClassifyPort(e: Platform, p: string, last: bool, first: bool)
    requires IsPort(p)
    ensures Classify(e, p, last, first) == PortPiece(p, "")
    ensures Classify(e, p + "/udp", last, first) == PortPiece(p, "udp")
  {
    PortText(p);
    PortWithProto(e, p);
    var t := p + "/udp";
    assert t[|t| - 4] == '/' && "socks"[|"socks"| - 4] == 'o' && "stdio"[1] == 't';
  }

  /** A piece k behind the host token t: the token itself, or something else because a protocol
      suffix was cut off. */
  ghost predicate HostToken(k: Piece, t: string, canonical: bool) {
    && (canonical ==> k == HostPiece(t, true, ""))
    && (!canonical ==>
         || k == HostPiece(t, false, "")
         || (k.HostPiece? && k.text != t && t != "0.0.0.0" && t != "127.0.0.1")
         || (k.PortPiece? && t != "0.0.0.0" && t != "127.0.0.1"))
  }

  lemma ClassifyHost(e: Platform, t: string, last: bool, first: bool)
    requires IsToken(t) && !IsPort(t) && !(last && t == "socks") && !(first && t == "stdio")
    ensures HostToken(Classify(e, t, last, first), t, CanonicalHost(e, t))
  {
    assert "0.0.0.0"[3] == '.' && "127.0.0.1"[5] == '.';
    HeadText(e, t);
  }

  function Then(a: Result<Remote, DecodeError>, k: Piece): Result<Remote, DecodeError> {
    match a
    case Ok(r) => Apply(k, r)
    case Err(error) => Err(error)
  }

  lemma {:induction false} ScanInit(ks: seq<Piece>, i: nat, r: Remote)
    requires 0 < i <= |ks|
    ensures Scan(ks, i, r) == Then(Scan(ks[1..], i - 1, r), ks[0])
  {
    assert forall j :: 1 <= j < |ks| ==> ks[1..][j - 1] == ks[j];
    if i > 1 && Apply(ks[i - 1], r).Ok? {
      ScanInit(ks, i - 1, Apply(ks[i - 1], r).value);
    }
  }

  lemma ScanPair(k0: Piece, k1: Piece, r: Remote)
    ensures Scan([k0, k1], 2, r) == Then(Then(Ok(r), k1), k0)
  {
    ScanInit([k0, k1], 2, r);
    assert [k0, k1][1..] == [k1];
  }

  lemma ScanFour(k0: Piece, k1: Piece, k2: Piece, k3: Piece, r: Remote)
    ensures Scan([k0, k1, k2, k3], 4, r) == Then(Then(Scan([k2, k3], 2, r), k1), k0)
  {
    ScanInit([k0, k1, k2, k3], 4, r);
    assert [k0, k1, k2, k3][1..] == [k1, k2, k3];
    ScanInit([k1, k2, k3], 3, r);
    assert [k1, k2, k3][1..] == [k2, k3];
  }

  /** The remote after the tokens of the remote side. */
  lemma RemoteSide(r: Remote, k0: Piece)
    requires r.remotePort != "" && (k0.HostPiece? || k0.PortPiece?)
    ensures var udp := if r.remoteProto == "udp" then "udp" else "";
            var a := Scan([k0, PortPiece(r.remotePort, udp)], 2, Blank(r.reverse));
            && (k0.HostPiece? && k0.proto == "" ==>
                a == if k0.valid
                     then Ok(Remote("", r.remotePort, "", k0.text, r.remotePort, udp, false, r.reverse, false, "", ""))
                     else Err(InvalidHost))
            && (a.Ok? ==>
                a.value.localHost == "" && !a.value.socks && a.value.remotePort != ""
                && a.value.remoteHost == if k0.HostPiece? then k0.text else "")
  {
    var udp := if r.remoteProto == "udp" then "udp" else "";
    ScanPair(k0, PortPiece(r.remotePort, udp), Blank(r.reverse));
  }

  /** The local host and port, absorbed after the remote side. */
  lemma LocalSide(r1: Remote, port: string, k0: Piece)
    requires port != "" && (k0.HostPiece? || k0.PortPiece?)
    requires (r1.socks && r1.remoteHost == "") || (!r1.socks && r1.remotePort != "")
    requires r1.localHost == ""
    ensures var a := Then(Then(Ok(r1), PortPiece(port, "")), k0);
            var h := if k0.HostPiece? then k0.text else "";
            && (k0.HostPiece? && k0.proto == "" ==>
                a == if !k0.valid then Err(InvalidHost)
                     else if !r1.socks && r1.remoteHost == "" then Ok(r1.(localPort := port, remoteHost := h))
                     else Ok(r1.(localPort := port, localHost := h)))
            && (a.Ok? ==>
                a.value.socks == r1.socks && (a.value.remoteHost, a.value.localHost)
                == if r1.socks || r1.remoteHost != "" then (r1.remoteHost, h) else (h, ""))
  {}

  predicate PlainProto(r: Remote) { r.remoteProto == "tcp" || r.remoteProto == "udp" }

  lemma DefaultsLackProto()
    ensures !HasProto("0.0.0.0") && !HasProto("127.0.0.1")
  {
    assert "0.0.0.0"[3] == '.' && "127.0.0.1"[5] == '.';
  }

  lemma DefaultsOfCanonical(r: Remote)
    requires r.localHost != "" && r.remoteHost != "" && !r.socks && !r.stdio
    requires r.localProto == r.remoteProto
    ensures var udp := if r.remoteProto == "udp" then "udp" else "";
            Check(WithDefaults(r.(localProto := "", remoteProto := udp))) == Ok(r) <==> PlainProto(r)
  {}

  lemma DefaultsOfDistorted(r: Remote, a: Remote, h0: string, h2: string)
    requires !a.socks
    requires (a.remoteHost, a.localHost) == if h2 != "" then (h2, h0) else (h0, "")
    requires (h0 != r.localHost && r.localHost != "0.0.0.0")
          || (h2 != r.remoteHost && r.remoteHost != "0.0.0.0" && r.remoteHost != "127.0.0.1")
    requires h0 == r.localHost || r.localHost != "0.0.0.0"
    ensures Check(WithDefaults(a)) != Ok(r)
  {}

  lemma FourPieces(r: Remote, k0: Piece, k2: Piece, localOk: bool, remoteOk: bool)
    requires WellFormed(r) && !r.socks && !r.stdio
    requires HostToken(k0, r.localHost, localOk) && HostToken(k2, r.remoteHost, remoteOk)
    ensures var udp := if r.remoteProto == "udp" then "udp" else "";
            DecodePieces([k0, PortPiece(r.localPort, ""), k2, PortPiece(r.remotePort, udp)], r.reverse) == Ok(r)
            <==> localOk && remoteOk && PlainProto(r)
  {
    var udp := if r.remoteProto == "udp" then "udp" else "";
    var p1, p3 := PortPiece(r.localPort, ""), PortPiece(r.remotePort, udp);
    ScanFour(k0, p1, k2, p3, Blank(r.reverse));
    RemoteSide(r, k2);
    var side := Scan([k2, p3], 2, Blank(r.reverse));
    if side.Ok? {
      LocalSide(side.value, r.localPort, k0);
      var a := Then(Then(side, p1), k0);
      if localOk && remoteOk {
        assert a == Ok(r.(localProto := "", remoteProto := udp));
        DefaultsOfCanonical(r);
      } else if a.Ok? {
        DefaultsOfDistorted(r, a.value, if k0.HostPiece? then k0.text else "", if k2.HostPiece? then k2.text else "");
      }
    }
  }

  lemma ThreePiecesSocks(r: Remote, k0: Piece, localOk: bool)
    requires WellFormed(r) && r.socks && !r.stdio
    requires HostToken(k0, r.localHost, localOk)
    ensures DecodePieces([k0, PortPiece(r.localPort, ""), SocksWord], r.reverse) == Ok(r) <==> localOk
  {
    var p1 := PortPiece(r.localPort, "");
    var ks := [k0, p1, SocksWord];
    ScanInit(ks, 3, Blank(r.reverse));
    assert ks[1..] == [p1, SocksWord];
    ScanPair(p1, SocksWord, Blank(r.reverse));
    var side := Blank(r.reverse).(socks := true);
    LocalSide(side, r.localPort, k0);
    var a := Then(Then(Ok(side), p1), k0);
    assert DecodePieces(ks, r.reverse) == match a case Ok(x) => Check(WithDefaults(x)) case Err(x) => Err(x);
    if a.Ok? && !localOk {
      assert WithDefaults(a.value).localHost != r.localHost;
    }
  }

  lemma ThreePiecesStdio(r: Remote, k1: Piece, remoteOk: bool)
    requires WellFormed(r) && !r.socks && r.stdio
    requires HostToken(k1, r.remoteHost, remoteOk)
    ensures var udp := if r.remoteProto == "udp" then "udp" else "";
            DecodePieces([StdioWord, k1, PortPiece(r.remotePort, udp)], r.reverse) == Ok(r)
            <==> remoteOk && PlainProto(r) && r.localHost == "0.0.0.0" && r.localPort == r.remotePort
  {
    var udp := if r.remoteProto == "udp" then "udp" else "";
    var p2 := PortPiece(r.remotePort, udp);
    var ks := [StdioWord, k1, p2];
    ScanInit(ks, 3, Blank(r.reverse));
    assert ks[1..] == [k1, p2];
    RemoteSide(r, k1);
    var side := Scan([k1, p2], 2, Blank(r.reverse));
    var a := Then(side, StdioWord);
    assert DecodePieces(ks, r.reverse) == match a case Ok(x) => Check(WithDefaults(x)) case Err(x) => Err(x);
    if side.Ok? && !remoteOk {
      assert WithDefaults(a.value).remoteHost != r.remoteHost;
    }
  }

  lemma TwoPieces(r: Remote)
    requires WellFormed(r) && r.socks && r.stdio
    ensures DecodePieces([StdioWord, SocksWord], r.reverse) == Ok(r)
       <==> r.localHost == "127.0.0.1" && r.localPort == "1080"
  {
    ScanPair(StdioWord, SocksWord, Blank(r.reverse));
  }

  /** A leading stdio always makes a stdio remote. */
  lemma StdioFirst(ks: seq<Piece>, reverse: bool)
    requires ks != [] && ks[0] == StdioWord && DecodePieces(ks, reverse).Ok?
    ensures DecodePieces(ks, reverse).value.stdio
  {
    ScanInit(ks, |ks|, Blank(reverse));
  }

  // ---- the theorem for remotes without a socket path ----

  /** The conditions of a canonical remote that the tokens themselves decide. */
  predicate CanonicalTokens(e: Platform, r: Remote) {
    && PlainProto(r)
    && (!r.socks ==> CanonicalHost(e, r.remoteHost))
    && (if r.stdio then
          && r.localHost == (if r.socks then "127.0.0.1" else "0.0.0.0")
          && r.localPort == (if r.socks then "1080" else r.remotePort)
        else CanonicalHost(e, r.localHost) && r.localHost != "stdio")
  }

  /** The pieces of the spelling: the ports say themselves, the hosts say themselves when they
      are canonical. */
  lemma SpellPieces(e: Platform, r: Remote)
    requires WellFormed(r)
    ensures var ks := Pieces(e, Spell(r));
            var n := |ks|;
            && (if r.stdio then n > 1 && ks[0] == StdioWord
                else
                  n > 2 && ks[1] == PortPiece(r.localPort, "")
                  && (if r.localHost == "stdio" then ks[0] == StdioWord
                      else HostToken(ks[0], r.localHost, CanonicalHost(e, r.localHost))))
            && (if r.socks then n == (if r.stdio then 2 else 3) && ks[n - 1] == SocksWord
                else
                  && n == (if r.stdio then 3 else 4)
                  && ks[n - 1] == PortPiece(r.remotePort, if r.remoteProto == "udp" then "udp" else "")
                  && HostToken(ks[n - 2], r.remoteHost, CanonicalHost(e, r.remoteHost)))
  {
    var ks := Pieces(e, Spell(r));
    var n := |ks|;
    LocalPieces(e, r);
    if r.socks {
      assert ks[n - 1] == Classify(e, "socks", true, false);
    } else {
      RemotePieces(e, r);
      assert ks[n - 1] == Classify(e, RemotePortToken(r), true, false) && ks[n - 2] == Classify(e, r.remoteHost, false, false);
    }
  }

  lemma LocalPieces(e: Platform, r: Remote)
    requires WellFormed(r)
    ensures var ks := Pieces(e, Spell(r));
            && |ks| == (if r.stdio then 1 else 2) + (if r.socks then 1 else 2)
            && (if r.stdio then ks[0] == StdioWord
                else
                  ks[1] == PortPiece(r.localPort, "")
                  && (if r.localHost == "stdio" then ks[0] == StdioWord
                      else HostToken(ks[0], r.localHost, CanonicalHost(e, r.localHost))))
  {
    var ks := Pieces(e, Spell(r));
    if r.stdio {
      assert ks[0] == Classify(e, "stdio", false, true);
    } else {
      assert ks[0] == Classify(e, r.localHost, false, true) && ks[1] == Classify(e, r.localPort, false, false);
      LocalTokens(e, r.localHost, r.localPort);
    }
  }

  lemma LocalTokens(e: Platform, host: string, port: string)
    requires IsToken(host) && !IsPort(host) && IsPort(port)
    ensures Classify(e, port, false, false) == PortPiece(port, "")
    ensures if host == "stdio" then Classify(e, host, false, true) == StdioWord
            else HostToken(Classify(e, host, false, true), host, CanonicalHost(e, host))
  {
    ClassifyPort(e, port, false, false);
    if host != "stdio" { ClassifyHost(e, host, false, true); }
  }

  lemma RemotePieces(e: Platform, r: Remote)
    requires WellFormed(r) && !r.socks
    ensures Classify(e, RemotePortToken(r), true, false)
         == PortPiece(r.remotePort, if r.remoteProto == "udp" then "udp" else "")
    ensures HostToken(Classify(e, r.remoteHost, false, false), r.remoteHost, CanonicalHost(e, r.remoteHost))
  {
    ClassifyPort(e, r.remotePort, true, false);
    assert r.remotePort + "" == r.remotePort;
    ClassifyHost(e, r.remoteHost, false, false);
  }

  lemma DecodeSpelledPieces(r: Remote, ks: seq<Piece>, localOk: bool, remoteOk: bool)
    requires WellFormed(r)
    requires |ks| == (if r.stdio then 1 else 2) + (if r.socks then 1 else 2)
    requires if r.stdio then ks[0] == StdioWord
             else ks[1] == PortPiece(r.localPort, "") && r.localHost != "stdio" && HostToken(ks[0], r.localHost, localOk)
    requires if r.socks then ks[|ks| - 1] == SocksWord
             else ks[|ks| - 1] == PortPiece(r.remotePort, if r.remoteProto == "udp" then "udp" else "")
                  && HostToken(ks[|ks| - 2], r.remoteHost, remoteOk)
    ensures DecodePieces(ks, r.reverse) == Ok(r) <==>
      && PlainProto(r)
      && (!r.socks ==> remoteOk)
      && (if r.stdio then
            && r.localHost == (if r.socks then "127.0.0.1" else "0.0.0.0")
            && r.localPort == (if r.socks then "1080" else r.remotePort)
          else localOk)
  {
    if !r.stdio && !r.socks {
      assert ks == [ks[0], ks[1], ks[2], ks[3]];
      FourPieces(r, ks[0], ks[2], localOk, remoteOk);
    } else if !r.stdio {
      assert ks == [ks[0], ks[1], ks[2]];
      ThreePiecesSocks(r, ks[0], localOk);
    } else if !r.socks {
      assert ks == [ks[0], ks[1], ks[2]];
      ThreePiecesStdio(r, ks[1], remoteOk);
    } else {
      assert ks == [ks[0], ks[1]];
      TwoPieces(r);
    }
  }

  lemma DecodeSpelling(e: Platform, r: Remote)
    requires WellFormed(r)
    ensures DecodeParts(e, Spell(r), r.reverse) == Ok(r) <==> CanonicalTokens(e, r)
  {
    var ks := Pieces(e, Spell(r));
    SpellPieces(e, r);
    if !r.stdio && r.localHost == "stdio" {
      if DecodePieces(ks, r.reverse).Ok? { StdioFirst(ks, r.reverse); }
    } else {
      DecodeSpelledPieces(r, ks, CanonicalHost(e, r.localHost), CanonicalHost(e, r.remoteHost));
    }
  }

  lemma {:induction false} ScanKeepsReverse(ks: seq<Piece>, i: nat, r: Remote)
    requires i <= |ks| && Scan(ks, i, r).Ok?
    ensures Scan(ks, i, r).value.reverse == r.reverse
  {
    if i > 0 { ScanKeepsReverse(ks, i - 1, Apply(ks[i - 1], r).value); }
  }

  /** A first token that sends the decoder down another path than the tokens of the string. */
  predicate Misleading(first: string, reverse: bool) {
    if reverse then HasPrefix(first, "uds-")
    else first == "R" || first == UDS_LISTEN || first == UDS_PAIR
  }

  lemma SocketPrefixes(first: string, rest: string)
    requires IsToken(first)
    ensures var t := first + ":" + rest;
            && (AsksForSocket(t) <==> first == UDS_LISTEN || first == UDS_PAIR)
            && (HasPrefix(t, "uds-") <==> HasPrefix(first, "uds-"))
  {
    FieldPrefix(first, rest, UDS_LISTEN);
    FieldPrefix(first, rest, UDS_PAIR);
    FieldPrefix(first, rest, "uds-");
  }

  lemma ModesStartAlike()
    ensures HasPrefix(UDS_LISTEN, "uds-") && HasPrefix(UDS_PAIR, "uds-")
  {}

  lemma RouteOfText(first: string, rest: string, reverse: bool)
    requires IsToken(first)
    ensures var t := first + ":" + rest;
            var route := RouteOf((if reverse then REV_PREFIX else "") + t);
            if Misleading(first, reverse) then !route.TokenRoute? || route.reverse != reverse
            else route == TokenRoute(t, reverse)
  {
    var t := first + ":" + rest;
    SocketPrefixes(first, rest);
    ModesStartAlike();
    if reverse {
      assert HasPrefix(REV_PREFIX + t, REV_PREFIX) && (REV_PREFIX + t)[2..] == t;
    } else {
      assert "" + t == t;
      assert "R" + ":" == REV_PREFIX;
      FieldPrefix(first, rest, "R");
    }
  }

  lemma RouteOfEncoding(e: Platform, r: Remote)
    requires WellFormed(r)
    ensures var route := RouteOf(Encode(r));
            if Misleading(Spell(r)[0], r.reverse) then !route.TokenRoute? || route.reverse != r.reverse
            else route.TokenRoute? && Tokens(route.text) == Spell(r) && route.reverse == r.reverse
  {
    EncodeSpells(r);
    SpellTokens(e, r);
    TokensOfJoin(Spell(r));
    RouteOfText(Spell(r)[0], Join(Spell(r)[1..]), r.reverse);
  }

  lemma UdsResult(e: Platform, t: string, reverse: bool)
    requires DecodeUds(e, t, reverse).Ok?
    ensures IsUds(DecodeUds(e, t, reverse).value)
  {
    var mode := if HasPrefix(t, UDS_LISTEN + ":") then UDS_LISTEN else UDS_PAIR;
    UdsRestResult(e, mode, t[|mode| + 1..]);
  }

  lemma UdsRestResult(e: Platform, mode: string, rest: string)
    requires DecodeUdsRest(e, mode, rest).Ok?
    ensures DecodeUdsRest(e, mode, rest).value.udsMode == mode
  {}

  lemma PartsResult(e: Platform, parts: seq<string>, reverse: bool)
    requires DecodeParts(e, parts, reverse).Ok?
    ensures DecodeParts(e, parts, reverse).value.reverse == reverse
  {
    var ks := Pieces(e, parts);
    ScanKeepsReverse(ks, |ks|, Blank(reverse));
  }

  /** What the route says about a result. */
  lemma ResultOfRoute(e: Platform, s: string)
    requires Decode(e, s).Ok?
    ensures var route := RouteOf(s);
            var r := Decode(e, s).value;
            && !route.BadSocketRoute?
            && (route.SocketRoute? ==> IsUds(r))
            && (route.TokenRoute? ==> r.reverse == route.reverse)
  {
    match RouteOf(s)
    case SocketRoute(t, reverse) => UdsResult(e, t, reverse);
    case BadSocketRoute =>
    case TokenRoute(t, reverse) => PartsResult(e, Tokens(t), reverse);
  }

  lemma RoundTripOfWellFormed(e: Platform, r: Remote)
    requires WellFormed(r)
    ensures Decode(e, Encode(r)) == Ok(r) <==> CanonicalTokens(e, r) && !Misleading(Spell(r)[0], r.reverse)
  {
    DecodeSpelling(e, r);
    RouteOfEncoding(e, r);
    if Decode(e, Encode(r)).Ok? {
      ResultOfRoute(e, Encode(r));
    }
  }

  /** The remote that the lone token stdio decodes to, which is not well formed. */
  const STDIO_ALONE := Remote("0.0.0.0", "", "tcp", "127.0.0.1", "", "tcp", false, false, true, "", "")

  lemma LoneStdio(e: Platform, reverse: bool)
    ensures DecodePieces([StdioWord], reverse)
         == if reverse then Err(StdioReversed) else Ok(STDIO_ALONE)
  {
    ScanInit([StdioWord], 1, Blank(reverse));
  }

  lemma TrailingColon(t: string)
    requires IsToken(t)
    ensures Tokens(t + ":" + "") == [t]
  {
    TokensColon(t, "");
  }

  lemma TwoTokens(t0: string, t1: string)
    requires IsToken(t0) && IsToken(t1)
    ensures Tokens(t0 + ":" + (t1 + ":" + "")) == [t0, t1]
  {
    TokensColon(t0, t1 + ":" + "");
    TrailingColon(t1);
  }

  lemma LoneStdioFails(e: Platform)
    ensures DecodeParts(e, ["stdio", "127.0.0.1"], false).Err?
  {
    DefaultTexts();
    DefaultsLackProto();
    var ks := Pieces(e, ["stdio", "127.0.0.1"]);
    assert ks == [StdioWord, HostPiece("127.0.0.1", e.isHost("127.0.0.1"), "")];
    ScanPair(ks[0], ks[1], Blank(false));
  }

  lemma StdioAloneFails(e: Platform)
    ensures Decode(e, Encode(STDIO_ALONE)).Err?
  {
    StdioAloneText();
    StdioTextFails(e);
  }

  lemma StdioAloneText()
    ensures Encode(STDIO_ALONE) == "stdio" + ":" + ("127.0.0.1" + ":" + "")
  {}

  lemma TwoTokenText(e: Platform, a: string, b: string)
    requires IsToken(a) && IsToken(b) && !Misleading(a, false)
    ensures Decode(e, a + ":" + (b + ":" + "")) == DecodeParts(e, [a, b], false)
  {
    var rest := b + ":" + "";
    RouteOfText(a, rest, false);
    assert "" + (a + ":" + rest) == a + ":" + rest;
    TwoTokens(a, b);
  }

  lemma StdioTextFails(e: Platform)
    ensures Decode(e, "stdio" + ":" + ("127.0.0.1" + ":" + "")).Err?
  {
    DefaultTexts();
    StdioIsToken();
    TwoTokenText(e, "stdio", "127.0.0.1");
    LoneStdioFails(e);
  }

  lemma StdioIsToken()
    ensures IsToken("stdio") && !Misleading("stdio", false)
  {
    assert "stdio"[0] == 's' && "R"[0] == 'R' && UDS_LISTEN[0] == 'u' && UDS_PAIR[0] == 'u';
  }

  lemma AcceptedIsWellFormed(e: Platform, r: Remote)
    requires !IsUds(r) && Decode(e, Encode(r)) == Ok(r)
    ensures WellFormed(r)
  {
    ResultOfRoute(e, Encode(r));
    var route := RouteOf(Encode(r));
    TokensAreTokens(route.text);
    if Tokens(route.text) == ["stdio"] {
      assert Pieces(e, ["stdio"]) == [StdioWord];
      LoneStdio(e, route.reverse);
      StdioAloneFails(e);
      assert false;
    }
    DecodedIsWellFormed(e, Tokens(route.text), route.reverse);
  }

  /** A remote without a socket mode survives encoding and decoding exactly when it is canonical. */
  lemma PlainRoundTrip(e: Platform, r: Remote)
    requires !IsUds(r)
    ensures Decode(e, Encode(r)) == Ok(r) <==> CanonicalPlain(e, r)
  {
    DefaultTexts();
    if Decode(e, Encode(r)) == Ok(r) {
      AcceptedIsWellFormed(e, r);
    }
    if WellFormed(r) {
      RoundTripOfWellFormed(e, r);
    }
  }
}
