/** The short forms of a remote: whatever a string leaves out is filled in from its remote side. */
module RemoteShorthand {
  import opened Common
  import opened Text
  import opened RemoteGrammar
  import opened RemoteTokens
  import opened RemoteRoundTrip

  function Forward(localHost: string, localPort: string, host: string, port: string, proto: string): Remote {
    Remote(localHost, localPort, proto, host, port, proto, false, false, false, "", "")
  }

  lemma RouteOfTokens(ts: seq<string>)
    requires ts != [] && (forall t :: t in ts ==> IsToken(t)) && !Misleading(ts[0], false)
    ensures RouteOf(Join(ts)) == TokenRoute(Join(ts), false) && Tokens(Join(ts)) == ts
  {
    TokensOfJoin(ts);
    if |ts| == 1 {
      RouteOfToken(ts[0]);
    } else {
      RouteOfText(ts[0], Join(ts[1..]), false);
      assert "" + Join(ts) == Join(ts);
    }
  }

  lemma DecodeOfTokens(e: Platform, ts: seq<string>)
    requires 1 <= |ts| <= 4 && (forall t :: t in ts ==> IsToken(t)) && !Misleading(ts[0], false)
    ensures Decode(e, Join(ts)) == DecodePieces(Pieces(e, ts), false)
  {
    RouteOfTokens(ts);
  }

  lemma RouteOfToken(t: string)
    requires IsToken(t)
    ensures RouteOf(t) == TokenRoute(t, false)
  {
    assert (UDS_LISTEN + ":")[|UDS_LISTEN|] == ':' && (UDS_PAIR + ":")[|UDS_PAIR|] == ':' && REV_PREFIX[1] == ':';
    assert UDS_LISTEN[0] == 'u' && UDS_PAIR[0] == 'u' && REV_PREFIX[0] == 'R';
    assert forall p :: HasPrefix(t, p) ==> forall i :: 0 <= i < |p| ==> t[i] == p[i];
  }

  lemma DecodeOneToken(e: Platform, t: string)
    requires IsToken(t)
    ensures Decode(e, t) == DecodePieces([Classify(e, t, true, true)], false)
  {
    RouteOfToken(t);
    TokensOfJoin([t]);
    assert Pieces(e, [t]) == [Classify(e, t, true, true)];
  }

  lemma PortIsNotMisleading(p: string)
    requires IsPort(p)
    ensures !Misleading(p, false)
  {
    PortText(p);
    assert "R"[0] == 'R' && UDS_LISTEN[0] == 'u' && UDS_PAIR[0] == 'u';
  }

  function Suffix(udp: bool): string { if udp then "/udp" else "" }

  lemma ClassifyLast(e: Platform, p: string, udp: bool, first: bool)
    requires IsPort(p)
    ensures IsToken(p + Suffix(udp))
    ensures Classify(e, p + Suffix(udp), true, first) == PortPiece(p, if udp then "udp" else "")
  {
    ClassifyPort(e, p, true, first);
    PortText(p);
    PortWithProto(e, p);
    assert p + "" == p;
  }

  lemma PortAlone(e: Platform, p: string, udp: bool)
    requires IsPort(p)
    ensures Decode(e, Join([p + Suffix(udp)]))
         == Ok(Forward("0.0.0.0", p, "127.0.0.1", p, if udp then "udp" else "tcp"))
  {
    var t := p + Suffix(udp);
    ClassifyLast(e, p, udp, true);
    DecodeOneToken(e, t);
    ScanInit([PortPiece(p, if udp then "udp" else "")], 1, Blank(false));
  }

  lemma HostAndPort(e: Platform, h: string, p: string, udp: bool)
    requires IsPort(p) && CanonicalHost(e, h) && h != "stdio" && !Misleading(h, false)
    ensures Decode(e, Join([h, p + Suffix(udp)]))
         == Ok(Forward("0.0.0.0", p, h, p, if udp then "udp" else "tcp"))
  {
    HostAndPortPieces(e, h, p, udp);
    DecodeOfTokens(e, [h, p + Suffix(udp)]);
    PortText(p);
    TwoPiecesForward(h, p, if udp then "udp" else "");
  }

  lemma HostAndPortPieces(e: Platform, h: string, p: string, udp: bool)
    requires IsPort(p) && CanonicalHost(e, h) && h != "stdio"
    ensures IsToken(p + Suffix(udp))
    ensures Pieces(e, [h, p + Suffix(udp)]) == [HostPiece(h, true, ""), PortPiece(p, if udp then "udp" else "")]
  {
    ClassifyLast(e, p, udp, false);
    ClassifyHost(e, h, false, true);
  }

  lemma TwoPiecesForward(h: string, p: string, proto: string)
    requires h != "" && p != "" && (proto == "" || proto == "udp")
    ensures DecodePieces([HostPiece(h, true, ""), PortPiece(p, proto)], false)
         == Ok(Forward("0.0.0.0", p, h, p, if proto == "" then "tcp" else proto))
  {
    ScanPair(HostPiece(h, true, ""), PortPiece(p, proto), Blank(false));
  }

  lemma ThreePiecesForward(l: string, h: string, p: string, proto: string)
    requires l != "" && h != "" && p != "" && (proto == "" || proto == "udp")
    ensures DecodePieces([PortPiece(l, ""), HostPiece(h, true, ""), PortPiece(p, proto)], false)
         == Ok(Forward("0.0.0.0", l, h, p, if proto == "" then "tcp" else proto))
  {
    var k0, k1, k2 := PortPiece(l, ""), HostPiece(h, true, ""), PortPiece(p, proto);
    ScanInit([k0, k1, k2], 3, Blank(false));
    assert [k0, k1, k2][1..] == [k1, k2];
    ScanPair(k1, k2, Blank(false));
  }

  lemma PortHostAndPort(e: Platform, l: string, h: string, p: string, udp: bool)
    requires IsPort(l) && IsPort(p) && CanonicalHost(e, h)
    ensures Decode(e, Join([l, h, p + Suffix(udp)]))
         == Ok(Forward("0.0.0.0", l, h, p, if udp then "udp" else "tcp"))
  {
    var ts := [l, h, p + Suffix(udp)];
    PortHostAndPortPieces(e, l, h, p, udp);
    DecodeOfTokens(e, ts);
    ThreePiecesForward(l, h, p, if udp then "udp" else "");
  }

  lemma PortHostAndPortPieces(e: Platform, l: string, h: string, p: string, udp: bool)
    requires IsPort(l) && IsPort(p) && CanonicalHost(e, h)
    ensures var ts := [l, h, p + Suffix(udp)];
            && Pieces(e, ts) == [PortPiece(l, ""), HostPiece(h, true, ""), PortPiece(p, if udp then "udp" else "")]
            && l != "" && p != "" && IsToken(l) && IsToken(p + Suffix(udp)) && !Misleading(l, false)
  {
    ClassifyLast(e, p, udp, false);
    ClassifyHost(e, h, false, false);
    ClassifyPort(e, l, false, true);
    PortText(l);
    PortIsNotMisleading(l);
  }

  lemma SocksAlone(e: Platform)
    ensures Decode(e, "socks")
         == Ok(Remote("127.0.0.1", "1080", "tcp", "", "", "tcp", true, false, false, "", ""))
  {
    DecodeOneToken(e, "socks");
    SocksPiece();
  }

  lemma SocksPiece()
    ensures DecodePieces([SocksWord], false)
         == Ok(Remote("127.0.0.1", "1080", "tcp", "", "", "tcp", true, false, false, "", ""))
  {
    ScanInit([SocksWord], 1, Blank(false));
  }

  /** The word stdio alone is accepted as a remote without ports, which does not survive. */
  lemma LoneStdioIsLost(e: Platform)
    ensures Decode(e, "stdio").Ok? && var r := Decode(e, "stdio").value;
      r.stdio && r.localPort == r.remotePort == "" && Decode(e, Encode(r)) != Ok(r)
  {
    DecodeOneToken(e, "stdio");
    LoneStdio(e, false);
    PlainRoundTrip(e, Decode(e, "stdio").value);
    assert !IsPort("");
  }
}
