/** What the decoder makes of a list of tokens without a loop: which token gives each field of the
    remote, which lists are refused, and which survive encoding and decoding. */
module RemoteFields {
  import opened Common
  import opened Text
  import opened RemoteGrammar
  import opened RemoteTokens
  import opened RemoteRoundTrip
  import opened RemoteErrors

  // ---- the first and the last of each kind among ks[..i] ----

  function ProtoOf(k: Piece): string {
    match k
    case PortPiece(_, proto) => proto
    case HostPiece(_, _, proto) => proto
    case _ => ""
  }

  function PortOf(k: Piece): string { if k.PortPiece? then k.text else "" }

  function HostOf(k: Piece): Option<string> { if k.HostPiece? then Some(k.text) else None }

  function FirstProto(ks: seq<Piece>, i: nat): string
    requires i <= |ks|
  {
    if i == 0 then "" else if FirstProto(ks, i - 1) != "" then FirstProto(ks, i - 1) else ProtoOf(ks[i - 1])
  }

  function LastProto(ks: seq<Piece>, i: nat): string
    requires i <= |ks|
  {
    if i == 0 then "" else if ProtoOf(ks[i - 1]) != "" then ProtoOf(ks[i - 1]) else LastProto(ks, i - 1)
  }

  function FirstPort(ks: seq<Piece>, i: nat): string
    requires i <= |ks|
  {
    if i == 0 then "" else if FirstPort(ks, i - 1) != "" then FirstPort(ks, i - 1) else PortOf(ks[i - 1])
  }

  function FirstHost(ks: seq<Piece>, i: nat): Option<string>
    requires i <= |ks|
  {
    if i == 0 then None else if FirstHost(ks, i - 1).Some? then FirstHost(ks, i - 1)
    else HostOf(ks[i - 1])
  }

  /** Where the last host with a text is, or -1. */
  function RemoteHostAt(ks: seq<Piece>, i: nat): (k: int)
    requires i <= |ks|
    ensures -1 <= k < i && (k >= 0 ==> ks[k].HostPiece? && ks[k].text != "")
  {
    if i == 0 then -1 else if ks[i - 1].HostPiece? && ks[i - 1].text != "" then i - 1 else RemoteHostAt(ks, i - 1)
  }

  predicate StdioIn(ks: seq<Piece>, i: nat)
    requires i <= |ks|
  {
    i > 0 && ks[0] == StdioWord
  }

  function Or(text: string, default: string): string { if text != "" then text else default }

  function HostOr(host: Option<string>, default: string): string { if host.Some? then host.value else default }

  // ---- the scan from a port or the word socks on ----

  /** The pieces before the last: possible, the word stdio only in front, none the word socks. */
  ghost predicate Front(ks: seq<Piece>, i: nat)
    requires i <= |ks|
  {
    && (forall j :: 0 <= j < i ==> Possible(ks[j]) && ks[j] != SocksWord)
    && (forall j :: 0 < j < i ==> ks[j] != StdioWord)
  }

  predicate Begun(r: Remote) { if r.socks then r.remotePort == "" && r.remoteHost == "" else r.remotePort != "" }

  lemma StepRest(k: Piece, r: Remote)
    requires Possible(k) && k != SocksWord && Begun(r) && Apply(k, r).Ok?
    ensures var r' := Apply(k, r).value;
      && Begun(r') && r'.socks == r.socks && r'.reverse == r.reverse && r'.remotePort == r.remotePort
      && r'.udsMode == r.udsMode && r'.udsSocketPath == r.udsSocketPath
      && r'.localPort == Or(PortOf(k), r.localPort)
      && (r'.stdio <==> r.stdio || k == StdioWord)
  {
    assert !IsPort("");
  }

  lemma StepHosts(k: Piece, r: Remote)
    requires k != SocksWord && Begun(r) && Apply(k, r).Ok?
    ensures var r' := Apply(k, r).value;
      if r.socks || r.remoteHost != "" then r'.remoteHost == r.remoteHost && r'.localHost == HostOr(HostOf(k), r.localHost)
      else r'.remoteHost == HostOr(HostOf(k), "") && r'.localHost == r.localHost
  {}

  lemma StepProtos(k: Piece, r: Remote)
    requires k != SocksWord && Begun(r) && Apply(k, r).Ok?
    ensures var r' := Apply(k, r).value;
      if r.socks then r'.remoteProto == Or(ProtoOf(k), r.remoteProto) && r'.localProto == r.localProto
      else r'.remoteProto == r.remoteProto && r'.localProto == Or(r.localProto, ProtoOf(k))
  {}

  lemma {:induction false} ScanRest(ks: seq<Piece>, i: nat, r: Remote)
    requires i <= |ks| && Front(ks, i) && Begun(r) && Scan(ks, i, r).Ok?
    ensures var end := Scan(ks, i, r).value;
      && end.socks == r.socks && end.reverse == r.reverse && end.remotePort == r.remotePort
      && end.udsMode == r.udsMode && end.udsSocketPath == r.udsSocketPath
      && end.localPort == Or(FirstPort(ks, i), r.localPort)
      && (end.stdio <==> r.stdio || StdioIn(ks, i))
  {
    if i > 0 {
      StepRest(ks[i - 1], r);
      ScanRest(ks, i - 1, Apply(ks[i - 1], r).value);
    }
  }

  lemma {:induction false} ScanProtos(ks: seq<Piece>, i: nat, r: Remote)
    requires i <= |ks| && Front(ks, i) && Begun(r) && Scan(ks, i, r).Ok?
    ensures var end := Scan(ks, i, r).value;
      if r.socks then end.remoteProto == Or(FirstProto(ks, i), r.remoteProto) && end.localProto == r.localProto
      else end.remoteProto == r.remoteProto && end.localProto == Or(r.localProto, LastProto(ks, i))
  {
    if i > 0 {
      StepRest(ks[i - 1], r);
      StepProtos(ks[i - 1], r);
      ScanProtos(ks, i - 1, Apply(ks[i - 1], r).value);
    }
  }

  lemma {:induction false} ScanHosts(ks: seq<Piece>, i: nat, r: Remote)
    requires i <= |ks| && Front(ks, i) && Begun(r) && Scan(ks, i, r).Ok?
    ensures var end := Scan(ks, i, r).value;
      var k := RemoteHostAt(ks, i);
      if r.socks || r.remoteHost != "" then end.remoteHost == r.remoteHost && end.localHost == HostOr(FirstHost(ks, i), r.localHost)
      else if k < 0 then end.remoteHost == "" && end.localHost == r.localHost
      else end.remoteHost == ks[k].text && end.localHost == HostOr(FirstHost(ks, k), r.localHost)
  {
    if i > 0 {
      StepRest(ks[i - 1], r);
      StepHosts(ks[i - 1], r);
      ScanHosts(ks, i - 1, Apply(ks[i - 1], r).value);
    }
  }

  // ---- the remote of a list of tokens ----

  /** With a port in the last place: that port and its protocol are the remote ones, the last host
      is the remote host, and the local side is given by what comes first. */
  function OfPort(ks: seq<Piece>, reverse: bool): Remote
    requires ks != [] && ks[|ks| - 1].PortPiece?
  {
    var n := |ks| - 1;
    var k := RemoteHostAt(ks, n);
    var proto := Or(ks[n].proto, "tcp");
    Remote(
      if k < 0 then "0.0.0.0" else Or(HostOr(FirstHost(ks, k), ""), "0.0.0.0"), Or(FirstPort(ks, n), ks[n].text), Or(LastProto(ks, n), proto),
      if k < 0 then "127.0.0.1" else ks[k].text, ks[n].text, proto,
      false, reverse, StdioIn(ks, n), "", "")
  }

  /** With the word socks in the last place there is only a local side. */
  function OfSocks(ks: seq<Piece>, reverse: bool): Remote
    requires ks != []
  {
    var n := |ks| - 1;
    var proto := Or(FirstProto(ks, n), "tcp");
    Remote(
      Or(HostOr(FirstHost(ks, n), ""), "127.0.0.1"), Or(FirstPort(ks, n), "1080"), proto,
      "", "", proto, true, reverse, StdioIn(ks, n), "", "")
  }

  /** The remote before the final checks. */
  function Assembled(ks: seq<Piece>, reverse: bool): Remote
    requires ks != [] && !ks[|ks| - 1].HostPiece?
  {
    match ks[|ks| - 1]
    case SocksWord => OfSocks(ks, reverse)
    case PortPiece(_, _) => OfPort(ks, reverse)
    case _ => STDIO_ALONE.(reverse := reverse)
  }

  /** The pieces of a token list: the words only in their places. */
  ghost predicate Listed(ks: seq<Piece>) {
    && ks != [] && (forall j :: 0 <= j < |ks| ==> Possible(ks[j]))
    && (forall j :: 0 <= j < |ks| - 1 ==> ks[j] != SocksWord)
    && (forall j :: 0 < j < |ks| ==> ks[j] != StdioWord)
  }

  lemma PiecesAreListed(e: Platform, parts: seq<string>)
    requires parts != [] && forall t :: t in parts ==> IsToken(t)
    ensures Listed(Pieces(e, parts))
  {
    PiecesArePossible(e, parts);
    var ks := Pieces(e, parts);
    assert forall j :: 0 <= j < |ks| ==> ks[j] in ks;
  }

  lemma ScansToPort(ks: seq<Piece>, reverse: bool)
    requires Listed(ks) && ks[|ks| - 1].PortPiece? && Scan(ks, |ks|, Blank(reverse)).Ok?
    ensures WithDefaults(Scan(ks, |ks|, Blank(reverse)).value) == OfPort(ks, reverse)
  {
    var n := |ks| - 1;
    var last := ks[n];
    assert Possible(last) && !IsPort("");
    var r := Apply(last, Blank(reverse)).value;
    assert r.remotePort == r.localPort == last.text && r.remoteProto == last.proto && r.localProto == "";
    ScanRest(ks, n, r);
    ScanProtos(ks, n, r);
    ScanHosts(ks, n, r);
  }

  lemma ScansToSocks(ks: seq<Piece>, reverse: bool)
    requires Listed(ks) && ks[|ks| - 1] == SocksWord && Scan(ks, |ks|, Blank(reverse)).Ok?
    ensures WithDefaults(Scan(ks, |ks|, Blank(reverse)).value) == OfSocks(ks, reverse)
  {
    var n := |ks| - 1;
    var r := Apply(SocksWord, Blank(reverse)).value;
    ScanRest(ks, n, r);
    ScanProtos(ks, n, r);
    ScanHosts(ks, n, r);
  }

  lemma ScansToStdio(ks: seq<Piece>, reverse: bool)
    requires Listed(ks) && ks[|ks| - 1] == StdioWord
    ensures DecodePieces(ks, reverse) == Check(STDIO_ALONE.(reverse := reverse))
  {
    assert ks == [StdioWord];
    ScanInit([StdioWord], 1, Blank(reverse));
  }

  /** For every token list without a refused host and with no host in the last place: the decoder's
      result is what the final checks say of the assembled remote. */
  lemma DecodesTo(ks: seq<Piece>, reverse: bool)
    requires Listed(ks) && !ks[|ks| - 1].HostPiece? && Scan(ks, |ks|, Blank(reverse)).Ok?
    ensures DecodePieces(ks, reverse) == Check(Assembled(ks, reverse))
  {
    match ks[|ks| - 1]
    case SocksWord => ScansToSocks(ks, reverse);
    case PortPiece(_, _) => ScansToPort(ks, reverse);
    case _ => ScansToStdio(ks, reverse);
  }

  // ---- which token lists are refused ----

  /** A port in the last place, and in front of it a protocol that differs from the remote one. */
  predicate Crossed(ks: seq<Piece>)
    requires ks != []
  {
    var n := |ks| - 1;
    ks[n].PortPiece? && LastProto(ks, n) != "" && LastProto(ks, n) != Or(ks[n].proto, "tcp")
  }

  /** The word socks in the last place, and the first protocol in front of it is not tcp. */
  predicate SocksOverOther(ks: seq<Piece>)
    requires ks != []
  {
    var n := |ks| - 1;
    ks[n] == SocksWord && FirstProto(ks, n) != "" && FirstProto(ks, n) != "tcp"
  }

  lemma AssembledErrors(ks: seq<Piece>, reverse: bool)
    requires Listed(ks) && !ks[|ks| - 1].HostPiece?
    ensures Check(Assembled(ks, reverse))
         == if Crossed(ks) then Err(CrossProtocol)
            else if SocksOverOther(ks) then Err(SocksNotTcp)
            else if ks[0] == StdioWord && reverse then Err(StdioReversed)
            else Ok(Assembled(ks, reverse))
  {}

  /** Counted, no host in the last place, no host refused. */
  ghost predicate Scannable(ks: seq<Piece>) {
    1 <= |ks| <= 4 && !ks[|ks| - 1].HostPiece? && !HasBadHost(ks, |ks|)
  }

  lemma ScannableDecodes(e: Platform, parts: seq<string>, reverse: bool)
    requires (forall t :: t in parts ==> IsToken(t)) && Scannable(Pieces(e, parts))
    ensures var ks := Pieces(e, parts);
      DecodeParts(e, parts, reverse)
      == if Crossed(ks) then Err(CrossProtocol)
         else if SocksOverOther(ks) then Err(SocksNotTcp)
         else if ks[0] == StdioWord && reverse then Err(StdioReversed)
         else Ok(Assembled(ks, reverse))
  {
    ScanErrors(e, parts, reverse);
    PiecesAreListed(e, parts);
    DecodesTo(Pieces(e, parts), reverse);
    AssembledErrors(Pieces(e, parts), reverse);
  }

  /** For every string that is not for a socket: when each of the three final checks fails, and so,
      with the errors before them, exactly which strings are accepted and as what. */
  lemma DecodesExactly(e: Platform, s: string)
    requires RouteOf(s).TokenRoute?
    ensures var ks := Pieces(e, Tokens(RouteOf(s).text));
      var scannable := Scannable(ks);
      var reverse := HasPrefix(s, REV_PREFIX);
      && (Decode(e, s) == Err(CrossProtocol) <==> scannable && Crossed(ks))
      && (Decode(e, s) == Err(SocksNotTcp) <==> scannable && SocksOverOther(ks))
      && (Decode(e, s) == Err(StdioReversed) <==>
            scannable && ks[0] == StdioWord && reverse && !Crossed(ks) && !SocksOverOther(ks))
      && (Decode(e, s).Ok? <==>
            scannable && !Crossed(ks) && !SocksOverOther(ks) && !(ks[0] == StdioWord && reverse))
      && (Decode(e, s).Ok? ==> Decode(e, s) == Ok(Assembled(ks, reverse)))
  {
    var parts := Tokens(RouteOf(s).text);
    var ks := Pieces(e, parts);
    DecodeErrors(e, s);
    TokensAreTokens(RouteOf(s).text);
    if Scannable(ks) { ScannableDecodes(e, parts, RouteOf(s).reverse); }
  }

  // ---- which accepted strings survive ----

  /** A host that was given survives unless a second protocol suffix is left in it; one that was
      left out survives when its default is a host. */
  predicate HostKept(e: Platform, host: string, default: string) {
    if host == "" then e.isHost(default) else !HasProto(host)
  }

  predicate LocalHostKept(e: Platform, host: string, default: string, reverse: bool) {
    HostKept(e, host, default) && host != "stdio" && !Misleading(host, reverse)
  }

  /** The local side of a stdio remote is not printed, so it must be the one a decoder fills in. */
  predicate LocalKept(e: Platform, ks: seq<Piece>, host: string, port: string, defaultHost: string, defaultPort: string, reverse: bool)
    requires ks != []
  {
    if ks[0] == StdioWord then (host == "" || host == defaultHost) && (port == "" || port == defaultPort)
    else LocalHostKept(e, host, defaultHost, reverse)
  }

  predicate PortKept(e: Platform, ks: seq<Piece>, reverse: bool)
    requires ks != [] && ks[|ks| - 1].PortPiece?
  {
    var n := |ks| - 1;
    var k := RemoteHostAt(ks, n);
    && (ks[n].proto == "" || ks[n].proto == "tcp" || ks[n].proto == "udp")
    && HostKept(e, if k < 0 then "" else ks[k].text, "127.0.0.1")
    && LocalKept(e, ks, if k < 0 then "" else HostOr(FirstHost(ks, k), ""), FirstPort(ks, n), "0.0.0.0", ks[n].text, reverse)
  }

  predicate SocksKept(e: Platform, ks: seq<Piece>, reverse: bool)
    requires ks != []
  {
    var n := |ks| - 1;
    LocalKept(e, ks, HostOr(FirstHost(ks, n), ""), FirstPort(ks, n), "127.0.0.1", "1080", reverse)
  }

  predicate Kept(e: Platform, ks: seq<Piece>, reverse: bool)
    requires ks != []
  {
    match ks[|ks| - 1]
    case PortPiece(_, _) => PortKept(e, ks, reverse)
    case SocksWord => SocksKept(e, ks, reverse)
    case _ => false
  }

  /** What the tokenizer and the check of hosts leave of an accepted list. */
  ghost predicate HostsTaken(e: Platform, ks: seq<Piece>) {
    forall j :: 0 <= j < |ks| && ks[j].HostPiece? ==> e.isHost(ks[j].text)
  }

  lemma AcceptedHosts(e: Platform, parts: seq<string>)
    requires !HasBadHost(Pieces(e, parts), |parts|)
    ensures HostsTaken(e, Pieces(e, parts))
  {
    var ks := Pieces(e, parts);
    forall j | 0 <= j < |ks| && ks[j].HostPiece? ensures e.isHost(ks[j].text) {
      assert ks[j] == Classify(e, parts[j], j == |parts| - 1, j == 0);
      assert !BadHost(ks[j]);
    }
  }

  lemma {:induction false} FirstHostIsTaken(e: Platform, ks: seq<Piece>, i: nat)
    requires i <= |ks| && HostsTaken(e, ks)
    ensures FirstHost(ks, i).Some? ==> e.isHost(FirstHost(ks, i).value)
  {
    if i > 0 { FirstHostIsTaken(e, ks, i - 1); }
  }

  lemma DefaultsMisleadNobody(reverse: bool)
    ensures !Misleading("0.0.0.0", reverse) && !Misleading("127.0.0.1", reverse) && !Misleading("", reverse)
    ensures "0.0.0.0" != "stdio" && "127.0.0.1" != "stdio"
  {
    assert "0.0.0.0"[0] == '0' && "127.0.0.1"[0] == '1' && "stdio"[0] == 's' && "uds-"[0] == 'u' && "R"[0] == 'R';
    assert UDS_LISTEN[0] == 'u' && UDS_PAIR[0] == 'u';
  }

  lemma HostIsKept(e: Platform, host: string, default: string)
    requires IsToken(Or(host, default)) && !IsPort(Or(host, default)) && (host != "" ==> e.isHost(host)) && !HasProto(default)
    ensures CanonicalHost(e, Or(host, default)) <==> HostKept(e, host, default)
  {}

  lemma LocalIsKept(e: Platform, ks: seq<Piece>, r: Remote, host: string, port: string, defaultHost: string, defaultPort: string)
    requires ks != [] && WellFormed(r) && (host != "" ==> e.isHost(host))
    requires r.localHost == Or(host, defaultHost) && r.localPort == Or(port, defaultPort) && (r.stdio <==> ks[0] == StdioWord)
    requires defaultHost == (if r.socks then "127.0.0.1" else "0.0.0.0") && defaultPort == (if r.socks then "1080" else r.remotePort)
    ensures LocalKept(e, ks, host, port, defaultHost, defaultPort, r.reverse) <==>
            (if r.stdio then r.localHost == defaultHost && r.localPort == defaultPort
             else CanonicalHost(e, r.localHost) && r.localHost != "stdio" && !Misleading(r.localHost, r.reverse))
  {
    DefaultsLackProto();
    DefaultsMisleadNobody(r.reverse);
    HostIsKept(e, host, defaultHost);
  }

  lemma PortIsKept(e: Platform, ks: seq<Piece>, reverse: bool)
    requires Listed(ks) && HostsTaken(e, ks) && ks[|ks| - 1].PortPiece? && WellFormed(OfPort(ks, reverse))
    ensures var r := OfPort(ks, reverse);
      CanonicalTokens(e, r) && !Misleading(Spell(r)[0], reverse) <==> PortKept(e, ks, reverse)
  {
    var r := OfPort(ks, reverse);
    var n := |ks| - 1;
    var k := RemoteHostAt(ks, n);
    var host := if k < 0 then "" else HostOr(FirstHost(ks, k), "");
    if k >= 0 { FirstHostIsTaken(e, ks, k); }
    DefaultsLackProto();
    HostIsKept(e, if k < 0 then "" else ks[k].text, "127.0.0.1");
    LocalIsKept(e, ks, r, host, FirstPort(ks, n), "0.0.0.0", ks[n].text);
    SpellStarts(r);
  }

  lemma SocksIsKept(e: Platform, ks: seq<Piece>, reverse: bool)
    requires Listed(ks) && HostsTaken(e, ks) && ks[|ks| - 1] == SocksWord && WellFormed(OfSocks(ks, reverse))
    ensures var r := OfSocks(ks, reverse);
      CanonicalTokens(e, r) && !Misleading(Spell(r)[0], reverse) <==> SocksKept(e, ks, reverse)
  {
    var r := OfSocks(ks, reverse);
    var n := |ks| - 1;
    FirstHostIsTaken(e, ks, n);
    LocalIsKept(e, ks, r, HostOr(FirstHost(ks, n), ""), FirstPort(ks, n), "127.0.0.1", "1080");
    SpellStarts(r);
  }

  lemma SpellStarts(r: Remote)
    ensures Spell(r)[0] == if r.stdio then "stdio" else r.localHost
    ensures r.stdio && !r.reverse ==> !Misleading("stdio", r.reverse)
  {
    StdioIsToken();
  }

  /** For every accepted string that is not for a socket: its remote survives encoding and decoding
      if and only if its tokens are not the lone word stdio, the protocol of a last port is in
      lower case, no host has a second protocol suffix behind the one cut off, the local host does
      not mislead the decoder, and a stdio remote names no local side but the default one. (A host
      left out survives when its default, 0.0.0.0 or 127.0.0.1, is a host.) */
  lemma AcceptedRoundTrip(e: Platform, s: string)
    requires RouteOf(s).TokenRoute? && Decode(e, s).Ok?
    ensures var ks := Pieces(e, Tokens(RouteOf(s).text));
      var r := Decode(e, s).value;
      ks != [] && (Decode(e, Encode(r)) == Ok(r) <==> Kept(e, ks, HasPrefix(s, REV_PREFIX)))
  {
    var parts := Tokens(RouteOf(s).text);
    var ks := Pieces(e, parts);
    var reverse := HasPrefix(s, REV_PREFIX);
    DecodesExactly(e, s);
    TokensAreTokens(RouteOf(s).text);
    PiecesAreListed(e, parts);
    AcceptedHosts(e, parts);
    if ks[|ks| - 1] == StdioWord {
      StdioAloneFails(e);
    } else {
      DecodedIsWellFormed(e, parts, reverse);
      RoundTripOfWellFormed(e, Assembled(ks, reverse));
      if ks[|ks| - 1] == SocksWord { SocksIsKept(e, ks, reverse); } else { PortIsKept(e, ks, reverse); }
    }
  }
}
