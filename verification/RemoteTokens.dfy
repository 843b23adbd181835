/** The tokenizer of remotes splits the colon-join of any list of well-formed tokens back into
    that list, and never produces anything but well-formed tokens. */
module RemoteTokens {
  import opened Text
  import opened RemoteGrammar

  predicate Bracketed(t: string) {
    |t| >= 3 && t[0] == '[' && t[|t| - 1] == ']' && forall i :: 1 <= i < |t| - 1 ==> Inside(t[i])
  }

  predicate AllPlain(t: string) { forall i :: 0 <= i < |t| ==> Plain(t[i]) }

  predicate IsToken(t: string) { t != "" && (AllPlain(t) || Bracketed(t)) }

  function Join(ts: seq<string>): string {
    if ts == [] then "" else if |ts| == 1 then ts[0] else ts[0] + ":" + Join(ts[1..])
  }

  lemma MatchToken(t: string, u: string)
    requires IsToken(t) && (u == "" || u[0] == ':')
    ensures MatchLength(t + u) == |t|
  {
    if AllPlain(t) {
      SpanIs(t + u, Plain, |t|);
    } else {
      SpanIs((t + u)[1..], Inside, |t| - 2);
    }
  }

  lemma TokensStep(t: string, u: string)
    requires IsToken(t) && (u == "" || u[0] == ':')
    ensures Tokens(t + u) == [t] + Tokens(SkipColon(u))
  {
    MatchToken(t, u);
    assert (t + u)[..|t|] == t && (t + u)[|t|..] == u;
  }

  lemma TokensColon(t: string, u: string)
    requires IsToken(t)
    ensures Tokens(t + ":" + u) == [t] + Tokens(u)
  {
    TokensStep(t, ":" + u);
    assert t + ":" + u == t + (":" + u);
    assert SkipColon(":" + u) == u;
  }

  lemma {:induction false} TokensOfJoin(ts: seq<string>)
    requires forall t :: t in ts ==> IsToken(t)
    ensures Tokens(Join(ts)) == ts
  {
    if |ts| == 1 {
      TokensStep(ts[0], "");
      assert ts[0] + "" == ts[0];
    } else if |ts| > 1 {
      TokensColon(ts[0], Join(ts[1..]));
      TokensOfJoin(ts[1..]);
    }
  }

  lemma {:induction false} TokensAreTokens(s: string)
    ensures forall t :: t in Tokens(s) ==> IsToken(t)
    decreases |s|
  {
    if s != "" {
      var n := MatchLength(s);
      if n == 0 {
        TokensAreTokens(s[1..]);
      } else {
        TokensAreTokens(SkipColon(s[n..]));
        if s[0] == '[' {
          assert forall i :: 1 <= i < n - 1 ==> s[i] == s[1..][i - 1];
          assert Bracketed(s[..n]);
        } else {
          assert AllPlain(s[..n]);
        }
      }
    }
  }
}
