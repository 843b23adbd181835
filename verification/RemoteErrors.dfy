/** Which remotes without a socket path the decoder refuses, and with which error. */
module RemoteErrors {
  import opened Common
  import opened RemoteGrammar
  import opened RemoteTokens
  import opened RemoteRoundTrip

  predicate BadHost(k: Piece) { k.HostPiece? && !k.valid }

  ghost predicate HasBadHost(ks: seq<Piece>, i: nat)
    requires i <= |ks|
  {
    exists j :: 0 <= j < i && BadHost(ks[j])
  }

  /** Once a port or the word socks was seen, only an invalid host stops the scan. */
  lemma {:induction false} ScanAfterPort(ks: seq<Piece>, i: nat, r: Remote)
    requires i <= |ks| && (r.socks || r.localPort != "")
    requires forall j :: 0 <= j < i ==> Possible(ks[j])
    ensures Scan(ks, i, r).Err? <==> HasBadHost(ks, i)
    ensures Scan(ks, i, r).Err? ==> Scan(ks, i, r) == Err(InvalidHost)
  {
    if i > 0 && !BadHost(ks[i - 1]) {
      assert Possible(ks[i - 1]);
      var r' := Apply(ks[i - 1], r).value;
      ScanAfterPort(ks, i - 1, r');
    } else if i > 0 {
      assert HasBadHost(ks, i);
    }
  }

  /** The scan of a token list fails for missing ports exactly when the last token is a host, and
      for an invalid host exactly when it is not and some token is a host that is refused. */
  lemma ScanErrors(e: Platform, parts: seq<string>, reverse: bool)
    requires parts != [] && forall t :: t in parts ==> IsToken(t)
    ensures var ks := Pieces(e, parts);
      var res := Scan(ks, |ks|, Blank(reverse));
      && (res == Err(MissingPorts) <==> ks[|ks| - 1].HostPiece?)
      && (res == Err(InvalidHost) <==> !ks[|ks| - 1].HostPiece? && HasBadHost(ks, |ks|))
      && (res.Err? ==> res.error in {MissingPorts, InvalidHost})
  {
    var ks := Pieces(e, parts);
    var n := |ks| - 1;
    PiecesArePossible(e, parts);
    assert Possible(ks[n]);
    if ks[n].HostPiece? {
      assert Apply(ks[n], Blank(reverse)) == Err(MissingPorts);
    } else if ks[n].StdioWord? {
      assert n == 0;
    } else {
      ScanAfterPort(ks, n, Apply(ks[n], Blank(reverse)).value);
      assert HasBadHost(ks, |ks|) <==> HasBadHost(ks, n);
    }
  }

  lemma FinalChecks(r: Remote)
    ensures Check(WithDefaults(r)).Err? ==> Check(WithDefaults(r)).error in {CrossProtocol, SocksNotTcp, StdioReversed}
  {}

  /** For every string that is not for a socket: the number of its tokens, a host in the last
      place and a refused host are, in this order, the reasons of three errors; every other
      failure is one of the three final checks. */
  lemma DecodeErrors(e: Platform, s: string)
    requires RouteOf(s).TokenRoute?
    ensures var parts := Tokens(RouteOf(s).text);
      var ks := Pieces(e, parts);
      var counted := 1 <= |parts| <= 4;
      && (Decode(e, s) == Err(InvalidRemote) <==> !counted)
      && (Decode(e, s) == Err(MissingPorts) <==> counted && ks[|ks| - 1].HostPiece?)
      && (Decode(e, s) == Err(InvalidHost) <==> counted && !ks[|ks| - 1].HostPiece? && HasBadHost(ks, |ks|))
      && (Decode(e, s).Err? ==>
            Decode(e, s).error in {InvalidRemote, MissingPorts, InvalidHost, CrossProtocol, SocksNotTcp, StdioReversed})
  {
    var parts := Tokens(RouteOf(s).text);
    TokensAreTokens(RouteOf(s).text);
    if parts != [] {
      var ks := Pieces(e, parts);
      var scanned := Scan(ks, |ks|, Blank(RouteOf(s).reverse));
      ScanErrors(e, parts, RouteOf(s).reverse);
      if scanned.Ok? { FinalChecks(scanned.value); }
    }
  }
}
