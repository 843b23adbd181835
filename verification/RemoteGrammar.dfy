/** The textual form of a remote (share/settings/remote.go): the tokenizer, the decoder, which
    scans the tokens from back to front, and the encoder. */
module RemoteGrammar {
  import opened Common
  import opened Text

  /** What the grammar takes from outside: url.Parse accepting "//" + host, and the lower case of
      a letter outside ASCII, which is never ASCII punctuation. */
  type CaseTable = f: char -> char | forall c :: f(c) as int >= 128 || 'a' <= f(c) <= 'z' || c as int < 128
    witness c => c

  datatype Platform = Platform(isHost: string -> bool, lowerOutsideAscii: CaseTable)

  datatype Remote = Remote(
    localHost: string, localPort: string, localProto: string,
    remoteHost: string, remotePort: string, remoteProto: string,
    socks: bool, reverse: bool, stdio: bool,
    udsMode: string, udsSocketPath: string)

  datatype DecodeError =
    | InvalidUnixMode | InvalidRemote | MissingPorts | InvalidHost | CrossProtocol | SocksNotTcp
    | StdioReversed | UnixNeedsReverse | InvalidTarget | MissingSocketPath

  const REV_PREFIX := "R:"
  const UDS_LISTEN := "uds-listen"
  const UDS_PAIR := "uds-pair"

  // ---- the tokenizer: all matches of (\[[^\[\]]+\]|[^\[\]:]+):? ----

  predicate Inside(c: char) { c != '[' && c != ']' }

  predicate Plain(c: char) { Inside(c) && c != ':' }

  /** Length of the captured group of a match that starts s, 0 when no match starts there. */
  function MatchLength(s: string): (n: nat)
    requires s != ""
    ensures n <= |s|
  {
    if s[0] == '[' then
      var n := Span(s[1..], Inside);
      if n > 0 && n + 1 < |s| && s[n + 1] == ']' then n + 2 else 0
    else Span(s, Plain)
  }

  function SkipColon(s: string): string {
    if s != "" && s[0] == ':' then s[1..] else s
  }

  function Tokens(s: string): seq<string>
    decreases |s|
  {
    if s == "" then []
    else
      var n := MatchLength(s);
      if n == 0 then Tokens(s[1..]) else [s[..n]] + Tokens(SkipColon(s[n..]))
  }

  // ---- the decoder ----

  function LowerAscii(c: char): char {
    if 'A' <= c <= 'Z' then (c as int + 32) as char else c
  }

  function ToLower(e: Platform, s: string): (r: string)
    ensures |r| == |s|
  {
    seq(|s|, i requires 0 <= i < |s| =>
      if (s[i] as int) < 128 then LowerAscii(s[i]) else e.lowerOutsideAscii(s[i]))
  }

  predicate FoldsTo(s: string, t: string) {
    |s| == |t| && forall i :: 0 <= i < |s| ==> LowerAscii(s[i]) == t[i]
  }

  /** The suffix expression (?i)\/(tcp|udp)$ */
  predicate HasProto(s: string) {
    |s| >= 4 && s[|s| - 4] == '/' && (FoldsTo(s[|s| - 3..], "tcp") || FoldsTo(s[|s| - 3..], "udp"))
  }

  /** The head is lowered, the protocol keeps the case it was written in. */
  function L4Proto(e: Platform, s: string): (string, string) {
    if HasProto(s) then (ToLower(e, s[..|s| - 4]), s[|s| - 3..]) else (s, "")
  }

  predicate IsPort(s: string) {
    var n := Atoi(s);
    n.Some? && 0 < n.value <= 65535
  }

  function Blank(reverse: bool): Remote {
    Remote("", "", "", "", "", "", false, reverse, false, "", "")
  }

  /** What one token says: the words socks and stdio in their places, a port or a host, the last
      two with the protocol suffix that was cut off. */
  datatype Piece =
    | SocksWord
    | StdioWord
    | PortPiece(text: string, proto: string)
    | HostPiece(text: string, valid: bool, proto: string)

  function Classify(e: Platform, p: string, last: bool, first: bool): Piece {
    if last && p == "socks" then SocksWord
    else if first && p == "stdio" then StdioWord
    else
      var (head, proto) := L4Proto(e, p);
      if IsPort(head) then PortPiece(head, proto) else HostPiece(head, e.isHost(head), proto)
  }

  function Pieces(e: Platform, parts: seq<string>): seq<Piece> {
    seq(|parts|, i requires 0 <= i < |parts| => Classify(e, parts[i], i == |parts| - 1, i == 0))
  }

  function NoteProto(proto: string, r: Remote): Remote {
    if proto == "" then r
    else if r.remotePort == "" then r.(remoteProto := proto)
    else if r.localProto == "" then r.(localProto := proto)
    else r
  }

  /** The effect of one token on the remote under construction. */
  function Apply(k: Piece, r: Remote): Result<Remote, DecodeError> {
    match k
    case SocksWord => Ok(r.(socks := true))
    case StdioWord => Ok(r.(stdio := true))
    case PortPiece(p, proto) =>
      var r := NoteProto(proto, r);
      Ok((if !r.socks && r.remotePort == "" then r.(remotePort := p) else r).(localPort := p))
    case HostPiece(h, valid, proto) =>
      var r := NoteProto(proto, r);
      if !r.socks && r.remotePort == "" && r.localPort == "" then Err(MissingPorts)
      else if !valid then Err(InvalidHost)
      else if !r.socks && r.remoteHost == "" then Ok(r.(remoteHost := h))
      else Ok(r.(localHost := h))
  }

  /** Applies ks[i - 1], ..., ks[0] in this order. */
  function Scan(ks: seq<Piece>, i: nat, r: Remote): Result<Remote, DecodeError>
    requires i <= |ks|
  {
    if i == 0 then Ok(r)
    else
      match Apply(ks[i - 1], r)
      case Ok(r') => Scan(ks, i - 1, r')
      case Err(error) => Err(error)
  }

  function WithDefaults(r: Remote): Remote {
    var r := if r.socks then
               r.(localHost := if r.localHost == "" then "127.0.0.1" else r.localHost,
                  localPort := if r.localPort == "" then "1080" else r.localPort)
             else
               r.(localHost := if r.localHost == "" then "0.0.0.0" else r.localHost,
                  remoteHost := if r.remoteHost == "" then "127.0.0.1" else r.remoteHost);
    var r := r.(remoteProto := if r.remoteProto == "" then "tcp" else r.remoteProto);
    r.(localProto := if r.localProto == "" then r.remoteProto else r.localProto)
  }

  function Check(r: Remote): Result<Remote, DecodeError> {
    if r.localProto != r.remoteProto then Err(CrossProtocol)
    else if r.socks && r.remoteProto != "tcp" then Err(SocksNotTcp)
    else if r.stdio && r.reverse then Err(StdioReversed)
    else Ok(r)
  }

  function DecodePieces(ks: seq<Piece>, reverse: bool): Result<Remote, DecodeError> {
    match Scan(ks, |ks|, Blank(reverse))
    case Ok(r) => Check(WithDefaults(r))
    case Err(error) => Err(error)
  }

  function DecodeParts(e: Platform, parts: seq<string>, reverse: bool): Result<Remote, DecodeError> {
    if |parts| <= 0 || |parts| >= 5 then Err(InvalidRemote)
    else DecodePieces(Pieces(e, parts), reverse)
  }

  /** net.SplitHostPort */
  function SplitHostPort(t: string): Option<(string, string)> {
    var i := LastIndexOf(t, ':');
    if i < 0 then None
    else if t[0] == '[' then
      var end := IndexOf(t, ']');
      if end == |t| || end + 1 != i || IndexFrom(t, '[', 1) < |t| || IndexFrom(t, ']', end + 1) < |t| then None
      else Some((t[1..end], t[i + 1..]))
    else if IndexOf(t, ':') < i || Has(t, '[') || Has(t, ']') then None
    else Some((t[..i], t[i + 1..]))
  }

  function DecodeUds(e: Platform, s: string, reverse: bool): Result<Remote, DecodeError> {
    if !reverse then Err(UnixNeedsReverse)
    else if HasPrefix(s, UDS_LISTEN + ":") then DecodeUdsRest(e, UDS_LISTEN, s[|UDS_LISTEN| + 1..])
    else if HasPrefix(s, UDS_PAIR + ":") then DecodeUdsRest(e, UDS_PAIR, s[|UDS_PAIR| + 1..])
    else Err(InvalidUnixMode)
  }

  function Rebracket(host: string): string {
    if Has(host, ':') && !HasPrefix(host, "[") then "[" + host + "]" else host
  }

  /** Path, host and port of what follows the mode. */
  function ParseTarget(rest: string): Result<(string, string, string), DecodeError> {
    var sep := IndexOf(rest, ':');
    if sep <= 0 || sep >= |rest| - 1 then Err(InvalidRemote)
    else
      match SplitHostPort(TrimSpace(rest[sep + 1..]))
      case None => Err(InvalidTarget)
      case Some((host, port)) => Ok((TrimSpace(rest[..sep]), Rebracket(host), port))
  }

  function DecodeUdsRest(e: Platform, mode: string, rest: string): Result<Remote, DecodeError> {
    match ParseTarget(rest)
    case Err(error) => Err(error)
    case Ok((path, host, port)) =>
      if path == "" then Err(MissingSocketPath)
      else if host == "" || !e.isHost(host) then Err(InvalidHost)
      else if !IsPort(port) then Err(MissingPorts)
      else Ok(SocketRemote(mode, path, host, port))
  }

  function SocketRemote(mode: string, path: string, host: string, port: string): Remote {
    Remote("", "", "unix", host, port, "tcp", false, true, false, mode, path)
  }

  /** Which part of the decoder a string is for. */
  datatype Route = SocketRoute(text: string, reverse: bool) | BadSocketRoute | TokenRoute(text: string, reverse: bool)

  predicate AsksForSocket(t: string) {
    HasPrefix(t, UDS_LISTEN + ":") || HasPrefix(t, UDS_PAIR + ":")
  }

  function RouteOf(s: string): Route {
    var reverse := HasPrefix(s, REV_PREFIX);
    var t := if reverse then s[|REV_PREFIX|..] else s;
    if AsksForSocket(t) then SocketRoute(t, reverse)
    else if reverse && HasPrefix(t, "uds-") then BadSocketRoute
    else TokenRoute(t, reverse)
  }

  function Decode(e: Platform, s: string): Result<Remote, DecodeError> {
    match RouteOf(s)
    case SocketRoute(t, reverse) => DecodeUds(e, t, reverse)
    case BadSocketRoute => Err(InvalidUnixMode)
    case TokenRoute(t, reverse) => DecodeParts(e, Tokens(t), reverse)
  }

  /** One iteration of the decoder's loop, as the assignments the program makes. */
  method AbsorbToken(e: Platform, token: string, last: bool, first: bool, before: Remote)
    returns (res: Result<Remote, DecodeError>)
    ensures res == Apply(Classify(e, token, last, first), before)
  {
    var r := before;
    if last && token == "socks" {
      return Ok(r.(socks := true));
    }
    if first && token == "stdio" {
      return Ok(r.(stdio := true));
    }
    var (p, proto) := L4Proto(e, token);
    res := AbsorbValue(e, p, proto, before);
  }

  /** A token that is no word: a port, or else a host. */
  method AbsorbValue(e: Platform, p: string, proto: string, before: Remote) returns (res: Result<Remote, DecodeError>)
    ensures res == Apply(if IsPort(p) then PortPiece(p, proto) else HostPiece(p, e.isHost(p), proto), before)
  {
    var r := before;
    if proto != "" {
      if r.remotePort == "" {
        r := r.(remoteProto := proto);
      } else if r.localProto == "" {
        r := r.(localProto := proto);
      }
    }
    assert r == NoteProto(proto, before);
    if IsPort(p) {
      if !r.socks && r.remotePort == "" {
        r := r.(remotePort := p);
      }
      return Ok(r.(localPort := p));
    }
    if !r.socks && r.remotePort == "" && r.localPort == "" {
      return Err(MissingPorts);
    }
    if !e.isHost(p) {
      return Err(InvalidHost);
    }
    if !r.socks && r.remoteHost == "" {
      r := r.(remoteHost := p);
    } else {
      r := r.(localHost := p);
    }
    return Ok(r);
  }

  method ApplyDefaults(scanned: Remote) returns (res: Result<Remote, DecodeError>)
    ensures res == Check(WithDefaults(scanned))
  {
    var r := scanned;
    if r.socks {
      if r.localHost == "" { r := r.(localHost := "127.0.0.1"); }
      if r.localPort == "" { r := r.(localPort := "1080"); }
    } else {
      if r.localHost == "" { r := r.(localHost := "0.0.0.0"); }
      if r.remoteHost == "" { r := r.(remoteHost := "127.0.0.1"); }
    }
    if r.remoteProto == "" { r := r.(remoteProto := "tcp"); }
    if r.localProto == "" { r := r.(localProto := r.remoteProto); }
    if r.localProto != r.remoteProto {
      return Err(CrossProtocol);
    }
    if r.socks && r.remoteProto != "tcp" {
      return Err(SocksNotTcp);
    }
    if r.stdio && r.reverse {
      return Err(StdioReversed);
    }
    return Ok(r);
  }

  /** The decoder as the program runs it. */
  method DecodeRemote(e: Platform, text: string) returns (res: Result<Remote, DecodeError>)
    ensures res == Decode(e, text)
  {
    var reverse := false;
    var s := text;
    if HasPrefix(s, REV_PREFIX) {
      s := s[|REV_PREFIX|..];
      reverse := true;
    }
    if HasPrefix(s, UDS_LISTEN + ":") || HasPrefix(s, UDS_PAIR + ":") {
      return DecodeUds(e, s, reverse);
    }
    if reverse && HasPrefix(s, "uds-") {
      return Err(InvalidUnixMode);
    }
    assert RouteOf(text) == TokenRoute(s, reverse);
    res := DecodeTokens(e, Tokens(s), reverse);
  }

  /** One pass over the tokens from the last to the first that updates the fields of r, then the
      defaults and the checks. */
  method DecodeTokens(e: Platform, parts: seq<string>, reverse: bool) returns (res: Result<Remote, DecodeError>)
    ensures res == DecodeParts(e, parts, reverse)
  {
    if |parts| <= 0 || |parts| >= 5 {
      return Err(InvalidRemote);
    }
    ghost var ks := Pieces(e, parts);
    var r := Blank(reverse);
    var i := |parts| - 1;
    while i >= 0
      invariant -1 <= i < |parts|
      invariant Scan(ks, i + 1, r) == Scan(ks, |ks|, Blank(reverse))
    {
      var absorbed := AbsorbToken(e, parts[i], i == |parts| - 1, i == 0, r);
      if absorbed.Err? {
        return absorbed;
      }
      r := absorbed.value;
      i := i - 1;
    }
    res := ApplyDefaults(r);
  }

  // ---- the encoder ----

  predicate IsUds(r: Remote) { r.udsMode == UDS_LISTEN || r.udsMode == UDS_PAIR }

  function LocalPart(r: Remote): string {
    if IsUds(r) then r.udsSocketPath
    else if r.stdio then "stdio"
    else (if r.localHost == "" then "0.0.0.0" else r.localHost) + ":" + r.localPort
  }

  function RemotePart(r: Remote): string {
    if r.socks then "socks"
    else (if r.remoteHost == "" then "127.0.0.1" else r.remoteHost) + ":" + r.remotePort
  }

  function Encode(r: Remote): string {
    if IsUds(r) then REV_PREFIX + (r.udsMode + ":" + r.udsSocketPath + ":" + RemotePart(r))
    else
      var r := if r.localPort == "" then r.(localPort := r.remotePort) else r;
      var remote := RemotePart(r) + (if r.remoteProto == "udp" then "/udp" else "");
      (if r.reverse then REV_PREFIX else "") + (LocalPart(r) + ":" + remote)
  }
}
