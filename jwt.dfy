/** `getTokenFromRequest` of lib/jwt.js: the bearer token of the
    `authorization` header. Signing and verifying tokens are not part of this
    model; the auth module receives verification as an oracle. */
module Jwt {
  import opened Http

  const BearerPrefix := "Bearer "

  /** The header `req.headers.get('authorization') || ''`. */
  function AuthHeader(req: Request): string {
    HeaderOr(req, "authorization", "")
  }

  /** The text after a case-sensitive `"Bearer "` prefix, or `None` (the
      source's `null`) when the header does not start with it. */
  function GetTokenFromRequest(req: Request): (token: Option<string>)
    ensures token.Some? <==> |AuthHeader(req)| >= 7 && AuthHeader(req)[..7] == BearerPrefix
    ensures token.Some? ==> AuthHeader(req) == BearerPrefix + token.value
    ensures token.Some? ==> |token.value| == |AuthHeader(req)| - 7
  {
    var header := AuthHeader(req);
    if |header| >= 7 && header[..7] == BearerPrefix then
      assert header == header[..7] + header[7..];
      Some(header[7..])
    else None
  }

  /** Prefixing and extracting are inverse: the header `"Bearer " + t` yields
      exactly `t`, and nothing else yields `t`. */
  lemma BearerRoundTrip(req: Request, t: string)
    ensures GetTokenFromRequest(req) == Some(t) <==> AuthHeader(req) == BearerPrefix + t
  {
    var h := AuthHeader(req);
    if h == BearerPrefix + t {
      assert h[..7] == BearerPrefix;
      assert h[7..] == t;
    }
  }

  /** A missing or empty header yields no token. */
  lemma NoHeaderNoToken(req: Request)
    requires !Present(req, "authorization")
    ensures GetTokenFromRequest(req) == None
  {
  }

  /** The prefix test is case-sensitive and needs the space; the bare prefix
      yields the empty token rather than none. */
  lemma PrefixExamples()
    ensures GetTokenFromRequest(Request(map["authorization" := "bearer x"])) == None
    ensures GetTokenFromRequest(Request(map["authorization" := "Bearerx"])) == None
    ensures GetTokenFromRequest(Request(map["authorization" := "Bearer "])) == Some("")
    ensures GetTokenFromRequest(Request(map["authorization" := "Bearer abc"])) == Some("abc")
  {
    assert "bearer x"[..7] != BearerPrefix by { assert "bearer x"[0] == 'b'; }
    assert "Bearerx"[..7] != BearerPrefix by { assert "Bearerx"[6] == 'x'; }
    assert "Bearer "[..7] == BearerPrefix;
    assert "Bearer abc"[..7] == BearerPrefix;
    assert "Bearer abc"[7..] == "abc";
  }
}
