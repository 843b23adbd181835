/** Socket remotes (R:uds-listen:path:host:port and R:uds-pair:path:host:port): which of them
    survive encoding and decoding, and which strings decode to one that does. */
module RemoteSockets {
  import opened Common
  import opened Text
  import opened RemoteGrammar
  import opened RemoteTokens
  import opened RemoteRoundTrip

  /** A host as the decoder leaves it: free of brackets and colons, or bracketed because it
      holds a colon. */
  predicate TargetHost(h: string) {
    h != "" && (AllPlain(h) || (Bracketed(h) && Has(h[1..|h| - 1], ':')))
  }

  predicate SocketParts(e: Platform, path: string, host: string, port: string) {
    path != "" && Trimmed(path) && !Has(path, ':') && TargetHost(host) && e.isHost(host) && IsPort(port)
  }

  /** The output guarantee of the decoder for socket remotes. */
  predicate WellFormedSocket(e: Platform, r: Remote) {
    && IsUds(r)
    && r == SocketRemote(r.udsMode, r.udsSocketPath, r.remoteHost, r.remotePort)
    && SocketParts(e, r.udsSocketPath, r.remoteHost, r.remotePort)
  }

  predicate CanonicalSocket(e: Platform, r: Remote) {
    WellFormedSocket(e, r) && !IsSpace(r.remoteHost[0])
  }

  lemma PlainFacts(s: string)
    ensures AllPlain(s) <==> !Has(s, '[') && !Has(s, ']') && !Has(s, ':')
  {}

  // ---- splitting host and port ----

  lemma SplitPlain(h: string, p: string)
    requires AllPlain(h) && h != "" && AllPlain(p)
    ensures SplitHostPort(h + ":" + p) == Some((h, p))
  {
    var t := h + ":" + p;
    LastIndexIs(t, ':', |h|);
    assert t[..|h|] == h && t[|h| + 1..] == p;
    assert IndexOf(t, ':') == |h| && !Has(t, '[') && !Has(t, ']');
  }

  lemma SplitBracketed(x: string, p: string)
    requires (forall i :: 0 <= i < |x| ==> Inside(x[i])) && AllPlain(p)
    ensures SplitHostPort("[" + x + "]:" + p) == Some((x, p))
  {
    var t := "[" + x + "]:" + p;
    assert forall i :: 0 <= i < |x| ==> t[i + 1] == x[i];
    IndexIs(t, ']', |x| + 1);
    LastIndexIs(t, ':', |x| + 2);
    assert t[1..|x| + 1] == x && t[|x| + 3..] == p;
  }

  lemma SplitFacts(t: string)
    requires SplitHostPort(t).Some?
    ensures var (host, port) := SplitHostPort(t).value;
            && (forall i :: 0 <= i < |host| ==> Inside(host[i]))
            && (t == host + ":" + port || t == "[" + host + "]:" + port)
  {
    var i := LastIndexOf(t, ':');
    if t[0] == '[' {
      var end := IndexOf(t, ']');
      var host := t[1..end];
      forall j | 0 <= j < |host| ensures Inside(host[j]) {
        assert host[j] == t[1..][j] && host[j] == t[..end][j + 1];
      }
      assert t == "[" + host + "]:" + t[i + 1..];
    } else {
      assert t == t[..i] + ":" + t[i + 1..];
    }
  }

  lemma RebracketFacts(host: string)
    requires host != "" && forall i :: 0 <= i < |host| ==> Inside(host[i])
    ensures TargetHost(Rebracket(host))
    ensures Rebracket(host) == if AllPlain(host) then host else "[" + host + "]"
  {
    PlainFacts(host);
    if Has(host, ':') {
      var h := "[" + host + "]";
      assert h[1..|h| - 1] == host;
      assert Bracketed(h);
    }
  }

  /** Joining a decoded host with a port and splitting again gives the host back. */
  lemma SplitTarget(host: string, port: string)
    requires TargetHost(host) && AllPlain(port)
    ensures var split := SplitHostPort(host + ":" + port);
            split.Some? && Rebracket(split.value.0) == host && split.value.1 == port
  {
    if AllPlain(host) {
      SplitPlain(host, port);
    } else {
      var x := host[1..|host| - 1];
      assert host == "[" + x + "]";
      assert host + ":" + port == "[" + x + "]:" + port;
      SplitBracketed(x, port);
      RebracketFacts(x);
    }
  }

  /** A target that starts with white space is trimmed, so no split of it gives the host back. */
  lemma TrimmedHostDiffers(host: string, port: string)
    requires TargetHost(host) && IsSpace(host[0]) && AllPlain(port)
    ensures var split := SplitHostPort(TrimSpace(host + ":" + port));
            split.Some? ==> Rebracket(split.value.0) != host
  {
    var t := TrimSpace(host + ":" + port);
    if SplitHostPort(t).Some? {
      SplitFacts(t);
      var (h, p) := SplitHostPort(t).value;
      PlainFacts(host);
      PlainFacts(port);
      TrimSpaceKeepsOut(host + ":" + port, '[');
      assert t != "[" + h + "]:" + p by {
        assert ("[" + h + "]:" + p)[0] == '[';
      }
    }
  }

  // ---- decoding ----

  lemma ParseFacts(rest: string)
    requires ParseTarget(rest).Ok?
    ensures var (path, host, port) := ParseTarget(rest).value;
            Trimmed(path) && !Has(path, ':') && (host == "" || TargetHost(host))
  {
    var target := TrimSpace(rest[IndexOf(rest, ':') + 1..]);
    SplitFacts(target);
    var host := SplitHostPort(target).value.0;
    if host != "" { RebracketFacts(host); }
    var path := rest[..IndexOf(rest, ':')];
    assert !Has(path, ':');
    TrimSpaceKeepsOut(path, ':');
  }

  lemma DecodedSocketIsWellFormed(e: Platform, mode: string, rest: string)
    requires mode == UDS_LISTEN || mode == UDS_PAIR
    requires DecodeUdsRest(e, mode, rest).Ok?
    ensures WellFormedSocket(e, DecodeUdsRest(e, mode, rest).value)
  {
    ParseFacts(rest);
  }

  lemma ParseRest(path: string, target: string)
    requires path != "" && Trimmed(path) && !Has(path, ':') && target != ""
    ensures ParseTarget(path + ":" + target)
         == match SplitHostPort(TrimSpace(target))
            case None => Err(InvalidTarget)
            case Some((host, port)) => Ok((path, Rebracket(host), port))
  {
    var rest := path + ":" + target;
    IndexIs(rest, ':', |path|);
    assert rest[..|path|] == path && rest[|path| + 1..] == target;
  }

  lemma SplitTrimmed(host: string, port: string)
    requires TargetHost(host) && AllPlain(port) && Trimmed(port) && port != ""
    ensures var split := SplitHostPort(TrimSpace(host + ":" + port));
            if IsSpace(host[0]) then split.Some? ==> Rebracket(split.value.0) != host
            else split.Some? && Rebracket(split.value.0) == host && split.value.1 == port
  {
    if IsSpace(host[0]) {
      TrimmedHostDiffers(host, port);
    } else {
      var target := host + ":" + port;
      assert target[0] == host[0] && target[|target| - 1] == port[|port| - 1];
      assert TrimSpace(target) == target;
      SplitTarget(host, port);
    }
  }

  /** What the decoder reads after the mode of a socket remote. */
  function RestText(path: string, host: string, port: string): string {
    path + ":" + (host + ":" + port)
  }

  lemma PortIsTrimmed(port: string)
    requires IsPort(port)
    ensures AllPlain(port) && Trimmed(port) && port != ""
  {
    PortText(port);
  }

  lemma ParseSplit(path: string, target: string, split: Option<(string, string)>)
    requires path != "" && Trimmed(path) && !Has(path, ':') && target != "" && split == SplitHostPort(TrimSpace(target))
    ensures ParseTarget(path + ":" + target).Ok? <==> split.Some?
    ensures split.Some? ==> ParseTarget(path + ":" + target) == Ok((path, Rebracket(split.value.0), split.value.1))
  {
    ParseRest(path, target);
  }

  lemma ParseJoined(e: Platform, path: string, host: string, port: string)
    requires SocketParts(e, path, host, port)
    ensures var parsed := ParseTarget(RestText(path, host, port));
            if IsSpace(host[0]) then parsed.Ok? ==> parsed.value.1 != host
            else parsed == Ok((path, host, port))
  {
    PortIsTrimmed(port);
    SplitTrimmed(host, port);
    ParseSplit(path, host + ":" + port, SplitHostPort(TrimSpace(host + ":" + port)));
  }

  lemma DecodeParsed(e: Platform, mode: string, rest: string, path: string, host: string, port: string)
    requires path != "" && host != "" && e.isHost(host) && IsPort(port)
    requires ParseTarget(rest) == Ok((path, host, port))
    ensures DecodeUdsRest(e, mode, rest) == Ok(SocketRemote(mode, path, host, port))
  {}

  lemma DecodeParsedOther(e: Platform, mode: string, rest: string, r: Remote)
    requires ParseTarget(rest).Ok? ==> ParseTarget(rest).value.1 != r.remoteHost
    ensures DecodeUdsRest(e, mode, rest) != Ok(r)
  {}

  lemma DecodeJoined(e: Platform, mode: string, path: string, host: string, port: string)
    requires SocketParts(e, path, host, port)
    ensures DecodeUdsRest(e, mode, RestText(path, host, port)) == Ok(SocketRemote(mode, path, host, port))
       <==> !IsSpace(host[0])
  {
    var rest := RestText(path, host, port);
    ParseJoined(e, path, host, port);
    if IsSpace(host[0]) {
      DecodeParsedOther(e, mode, rest, SocketRemote(mode, path, host, port));
    } else {
      DecodeParsed(e, mode, rest, path, host, port);
    }
  }

  lemma SocketRouteOf(mode: string, rest: string)
    requires mode == UDS_LISTEN || mode == UDS_PAIR
    ensures var t := mode + ":" + rest;
            RouteOf(REV_PREFIX + t) == SocketRoute(t, true)
  {
    var t := mode + ":" + rest;
    assert IsToken(mode);
    SocketPrefixes(mode, rest);
    assert HasPrefix(REV_PREFIX + t, REV_PREFIX) && (REV_PREFIX + t)[2..] == t;
  }

  lemma DecodeMode(e: Platform, mode: string, rest: string)
    requires mode == UDS_LISTEN || mode == UDS_PAIR
    ensures Decode(e, REV_PREFIX + (mode + ":" + rest)) == DecodeUdsRest(e, mode, rest)
  {
    var t := mode + ":" + rest;
    SocketRouteOf(mode, rest);
    assert t[|mode| + 1..] == rest && HasPrefix(t, mode + ":");
    if mode == UDS_PAIR {
      assert t[4] == 'p' && (UDS_LISTEN + ":")[4] == 'l';
      assert |t| > 10 ==> t[..11][4] == 'p';
    }
  }

  // ---- the theorems ----

  lemma EncodedSocket(r: Remote)
    requires IsUds(r) && !r.socks && r.remoteHost != ""
    ensures Encode(r) == REV_PREFIX + (r.udsMode + ":" + RestText(r.udsSocketPath, r.remoteHost, r.remotePort))
  {
    var a, b := r.udsMode, r.udsSocketPath;
    assert RemotePart(r) == r.remoteHost + ":" + r.remotePort;
    assert a + ":" + b + ":" + RemotePart(r) == a + ":" + (b + ":" + RemotePart(r));
  }

  lemma RoundTripOfSocket(e: Platform, r: Remote)
    requires WellFormedSocket(e, r)
    ensures Decode(e, Encode(r)) == Ok(r) <==> !IsSpace(r.remoteHost[0])
  {
    EncodedSocket(r);
    DecodeMode(e, r.udsMode, RestText(r.udsSocketPath, r.remoteHost, r.remotePort));
    DecodeJoined(e, r.udsMode, r.udsSocketPath, r.remoteHost, r.remotePort);
  }

  lemma SocketText(s: string) returns (mode: string, rest: string)
    requires RouteOf(s).SocketRoute? && RouteOf(s).reverse
    ensures (mode == UDS_LISTEN || mode == UDS_PAIR) && s == REV_PREFIX + (mode + ":" + rest)
  {
    var t := RouteOf(s).text;
    mode := if HasPrefix(t, UDS_LISTEN + ":") then UDS_LISTEN else UDS_PAIR;
    rest := t[|mode| + 1..];
    assert t == (mode + ":") + rest;
    assert s == REV_PREFIX + t;
  }

  lemma SocketRest(e: Platform, s: string) returns (mode: string, rest: string)
    requires Decode(e, s).Ok? && RouteOf(s).SocketRoute?
    ensures (mode == UDS_LISTEN || mode == UDS_PAIR) && s == REV_PREFIX + (mode + ":" + rest)
    ensures Decode(e, s) == DecodeUdsRest(e, mode, rest)
  {
    mode, rest := SocketText(s);
    DecodeMode(e, mode, rest);
  }

  /** Every accepted socket string decodes to a well-formed socket remote. */
  lemma AcceptedSocket(e: Platform, s: string)
    requires Decode(e, s).Ok? && RouteOf(s).SocketRoute?
    ensures WellFormedSocket(e, Decode(e, s).value)
  {
    var mode, rest := SocketRest(e, s);
    DecodedSocketIsWellFormed(e, mode, rest);
  }

  lemma SocketRoundTrip(e: Platform, r: Remote)
    requires IsUds(r)
    ensures Decode(e, Encode(r)) == Ok(r) <==> CanonicalSocket(e, r)
  {
    if Decode(e, Encode(r)) == Ok(r) {
      var s := Encode(r);
      if RouteOf(s).SocketRoute? {
        AcceptedSocket(e, s);
      } else {
        TokensGiveNoSocket(e, s);
      }
    }
    if WellFormedSocket(e, r) {
      RoundTripOfSocket(e, r);
    }
  }

  lemma TokensGiveNoSocket(e: Platform, s: string)
    requires Decode(e, s).Ok? && !RouteOf(s).SocketRoute?
    ensures !IsUds(Decode(e, s).value)
  {
    if RouteOf(s).TokenRoute? {
      var ks := Pieces(e, Tokens(RouteOf(s).text));
      ScanKeepsMode(ks, |ks|, Blank(RouteOf(s).reverse));
    }
  }

  lemma {:induction false} ScanKeepsMode(ks: seq<Piece>, i: nat, r: Remote)
    requires i <= |ks| && Scan(ks, i, r).Ok?
    ensures Scan(ks, i, r).value.udsMode == r.udsMode
  {
    if i > 0 { ScanKeepsMode(ks, i - 1, Apply(ks[i - 1], r).value); }
  }

  /** Which remotes of any kind survive encoding and decoding. */
  predicate Canonical(e: Platform, r: Remote) {
    if IsUds(r) then CanonicalSocket(e, r) else CanonicalPlain(e, r)
  }

  lemma RoundTrip(e: Platform, r: Remote)
    ensures Decode(e, Encode(r)) == Ok(r) <==> Canonical(e, r)
  {
    if IsUds(r) { SocketRoundTrip(e, r); } else { PlainRoundTrip(e, r); }
  }

  function AfterColon(s: string): string {
    if Has(s, ':') then s[IndexOf(s, ':') + 1..] else ""
  }

  /** The target in the text of a socket remote: what follows direction, mode and path. */
  function TargetText(s: string): string { TrimSpace(AfterColon(AfterColon(AfterColon(s)))) }

  /** The text starts with a bracket, white space follows, and no colon is in the brackets. */
  predicate SpaceInBrackets(target: string) {
    |target| >= 2 && target[0] == '[' && IsSpace(target[1]) && IndexOf(target, ']') < IndexOf(target, ':')
  }

  lemma HostOfTarget(target: string)
    requires Trimmed(target) && SplitHostPort(target).Some? && SplitHostPort(target).value.0 != ""
    ensures IsSpace(Rebracket(SplitHostPort(target).value.0)[0]) <==> SpaceInBrackets(target)
  {
    var host := SplitHostPort(target).value.0;
    if target[0] == '[' {
      var end := IndexOf(target, ']');
      assert host == target[1..end] && host[0] == target[1];
      assert forall i :: 0 <= i < |host| ==> host[i] == target[i + 1];
      if Has(host, ':') { assert target[IndexOf(host, ':') + 1] == ':'; }
      SplitFacts(target);
    }
  }

  lemma AfterColonOf(a: string, b: string)
    requires !Has(a, ':')
    ensures AfterColon(a + ":" + b) == b
  {
    IndexIs(a + ":" + b, ':', |a|);
  }

  lemma TargetTextAfter(a: string, mode: string, rest: string)
    requires !Has(a, ':') && !Has(mode, ':')
    ensures TargetText(a + ":" + (mode + ":" + rest)) == TrimSpace(AfterColon(rest))
  {
    AfterColonOf(mode, rest);
    AfterColonOf(a, mode + ":" + rest);
  }

  lemma ModesArePlain()
    ensures !Has("R", ':') && !Has(UDS_LISTEN, ':') && !Has(UDS_PAIR, ':')
  {
    assert IsToken(UDS_LISTEN) && IsToken(UDS_PAIR) && IsToken("R");
    PlainFacts(UDS_LISTEN);
    PlainFacts(UDS_PAIR);
    PlainFacts("R");
  }

  lemma TargetTextOf(mode: string, rest: string)
    requires mode == UDS_LISTEN || mode == UDS_PAIR
    ensures TargetText(REV_PREFIX + (mode + ":" + rest)) == TrimSpace(AfterColon(rest))
  {
    ModesArePlain();
    TargetTextAfter("R", mode, rest);
    assert REV_PREFIX == "R" + ":";
  }

  lemma ParsedTarget(rest: string)
    requires ParseTarget(rest).Ok?
    ensures var split := SplitHostPort(TrimSpace(AfterColon(rest)));
      split.Some? && ParseTarget(rest).value.1 == Rebracket(split.value.0)
  {}

  lemma TargetOfText(e: Platform, s: string)
    requires Decode(e, s).Ok? && RouteOf(s).SocketRoute?
    ensures var split := SplitHostPort(TargetText(s));
      split.Some? && split.value.0 != "" && Decode(e, s).value.remoteHost == Rebracket(split.value.0)
  {
    var mode, rest := SocketRest(e, s);
    TargetTextOf(mode, rest);
    TargetOfRest(e, mode, rest);
  }

  lemma TargetOfRest(e: Platform, mode: string, rest: string)
    requires DecodeUdsRest(e, mode, rest).Ok?
    ensures var split := SplitHostPort(TrimSpace(AfterColon(rest)));
      split.Some? && split.value.0 != "" && DecodeUdsRest(e, mode, rest).value.remoteHost == Rebracket(split.value.0)
  {
    ParsedTarget(rest);
  }

  /** For every accepted socket string: its remote encodes to a string that decodes back to it if
      and only if the text of its target has no white space behind an opening bracket, unless a
      colon keeps the brackets. */
  lemma AcceptedSocketRoundTrip(e: Platform, s: string)
    requires Decode(e, s).Ok? && IsUds(Decode(e, s).value)
    ensures var r := Decode(e, s).value;
            && r.remoteHost != ""
            && (Decode(e, Encode(r)) == Ok(r) <==> !IsSpace(r.remoteHost[0]))
            && (Decode(e, Encode(r)) == Ok(r) <==> !SpaceInBrackets(TargetText(s)))
  {
    if !RouteOf(s).SocketRoute? { TokensGiveNoSocket(e, s); }
    AcceptedSocket(e, s);
    RoundTripOfSocket(e, Decode(e, s).value);
    TargetOfText(e, s);
    HostOfTarget(TargetText(s));
  }

  /** The white space of the example is a no-break space, which url.Parse takes in a host. */
  const SPACED := "\U{A0}h"

  /** Such a string: R:uds-pair:p:[ h]:80. */
  lemma SpacedHostIsLost(e: Platform)
    requires e.isHost(SPACED)
    ensures var s := REV_PREFIX + (UDS_PAIR + ":" + ("p:" + ("[" + SPACED + "]:80")));
            var r := SocketRemote(UDS_PAIR, "p", SPACED, "80");
            Decode(e, s) == Ok(r) && Decode(e, Encode(r)) != Ok(r)
  {
    var target := "[" + SPACED + "]:80";
    SpacedParses();
    assert DecodeUdsRest(e, UDS_PAIR, "p:" + target) == Ok(SocketRemote(UDS_PAIR, "p", SPACED, "80"));
    DecodeMode(e, UDS_PAIR, "p:" + target);
    SocketRoundTrip(e, SocketRemote(UDS_PAIR, "p", SPACED, "80"));
  }

  lemma SpacedParses()
    ensures ParseTarget("p:" + ("[" + SPACED + "]:80")) == Ok(("p", SPACED, "80")) && IsPort("80")
  {
    var target := "[" + SPACED + "]:80";
    SpacedSplits();
    assert "p:" + target == "p" + ":" + target;
    ParseRest("p", target);
  }

  lemma SpacedSplits()
    ensures var target := "[" + SPACED + "]:80";
      SplitHostPort(TrimSpace(target)) == Some((SPACED, "80")) && Rebracket(SPACED) == SPACED && IsPort("80") && !Has("p", ':')
  {
    var target := "[" + SPACED + "]:80";
    EightyIsPort();
    PortText("80");
    PlainFacts(SPACED);
    PlainFacts("p");
    SplitBracketed(SPACED, "80");
    assert "[" + SPACED + "]:80" == "[" + SPACED + "]:" + "80";
    assert target[0] == '[' && target[|target| - 1] == '0';
    assert Trimmed(target);
  }

  lemma EightyIsPort()
    ensures IsPort("80")
  {
    assert DigitsValue("80", 0, 1) == 8;
  }

  /** Every other accepted string, but for the lone token stdio, decodes to a well-formed remote. */
  lemma AcceptedOutput(e: Platform, s: string)
    requires Decode(e, s).Ok? && !IsUds(Decode(e, s).value)
    ensures RouteOf(s).TokenRoute?
    ensures Tokens(RouteOf(s).text) != ["stdio"] ==> WellFormed(Decode(e, s).value)
    ensures Decode(e, s).value.reverse == HasPrefix(s, REV_PREFIX)
  {
    ResultOfRoute(e, s);
    TokensAreTokens(RouteOf(s).text);
    if Tokens(RouteOf(s).text) != ["stdio"] {
      DecodedIsWellFormed(e, Tokens(RouteOf(s).text), RouteOf(s).reverse);
    }
  }

  /** A protocol written in capitals is accepted, kept as written and lost by the encoder: the
      decoded remote is a UDP one, its encoding a TCP one. */
  lemma CapitalProtocolIsLost(e: Platform)
    ensures Decode(e, "53/UDP") == Ok(CapitalRemote()) && Decode(e, Encode(CapitalRemote())) != Ok(CapitalRemote())
  {
    CapitalRoute();
    CapitalPiece(e);
    assert Pieces(e, ["53/UDP"]) == [PortPiece("53", "UDP")];
    CapitalDecoded();
    CapitalIsNotCanonical(e);
    RoundTrip(e, CapitalRemote());
  }

  function CapitalRemote(): Remote {
    Remote("0.0.0.0", "53", "UDP", "127.0.0.1", "53", "UDP", false, false, false, "", "")
  }

  lemma CapitalRoute()
    ensures RouteOf("53/UDP") == TokenRoute("53/UDP", false) && Tokens("53/UDP") == ["53/UDP"]
  {
    var s := "53/UDP";
    assert AllPlain(s);
    TokensStep(s, "");
    assert s + "" == s;
    assert s[0] == '5' && UDS_LISTEN[0] == 'u' && UDS_PAIR[0] == 'u';
  }

  lemma CapitalPiece(e: Platform)
    ensures Classify(e, "53/UDP", true, true) == PortPiece("53", "UDP")
  {
    CapitalHead(e);
    assert IsPort("53") by { assert DigitsValue("53", 0, 1) == 5; }
  }

  lemma CapitalHead(e: Platform)
    ensures L4Proto(e, "53/UDP") == ("53", "UDP") && "53/UDP" != "socks" && "53/UDP" != "stdio"
  {
    var s := "53/UDP";
    assert s[..2] == "53" && s[3..] == "UDP" && s[0] == '5' && "socks"[0] == 's' && "stdio"[0] == 's';
    assert ToLower(e, "53") == "53";
  }

  lemma CapitalDecoded()
    ensures DecodePieces([PortPiece("53", "UDP")], false) == Ok(CapitalRemote())
  {
    ScanInit([PortPiece("53", "UDP")], 1, Blank(false));
  }

  lemma CapitalIsNotCanonical(e: Platform)
    ensures !Canonical(e, CapitalRemote())
  {
    assert CapitalRemote().remoteProto[0] == 'U';
  }
}
