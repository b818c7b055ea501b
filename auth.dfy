/** The `require_auth` helper of the API views: a simplified form of the
    Bearer scheme of section 2.1 of RFC 6750. The header must start with
    "Bearer "; the token is the second piece of the header split on single
    spaces, as Python's `str.split(" ")` splits it. Decoding the JWT (HS256,
    with its expiry check against the clock) is a foreign library call and is
    a parameter here. */
module Auth {
  import opened Common
  import opened Responses

  const BEARER_PREFIX := "Bearer "

  const MSG_HEADER_INVALID := "Authorization header missing or invalid."
  const MSG_TOKEN_EXPIRED := "Token expired."
  const MSG_TOKEN_INVALID := "Invalid token."

  /** The claims the views read from a decoded token. */
  datatype Payload = Payload(userId: string, email: string)

  /** What the JWT library reports for a token: its payload, or which of the
      two exceptions it raised. */
  datatype DecodeOutcome = Decoded(payload: Payload) | ExpiredSignature | InvalidToken

  /** Either the caller's claims, or the 401 response the view hands back unchanged. */
  datatype AuthResult = Authorized(payload: Payload) | Refused(response: Response)

  predicate StartsWith(s: string, prefix: string)
  {
    |prefix| <= |s| && s[..|prefix|] == prefix
  }

  function SpaceCount(s: string): nat
  {
    if s == [] then 0 else (if s[0] == ' ' then 1 else 0) + SpaceCount(s[1..])
  }

  /** Python's `s.split(" ")`: the pieces between single spaces, empty pieces kept. */
  function SplitOnSpace(s: string): (pieces: seq<string>)
    ensures |pieces| == SpaceCount(s) + 1
    ensures forall k :: 0 <= k < |pieces| ==> ' ' !in pieces[k]
  {
    if s == [] then [""]
    else
      var rest := SplitOnSpace(s[1..]);
      if s[0] == ' ' then [""] + rest
      else [[s[0]] + rest[0]] + rest[1..]
  }

  /** Python's `" ".join(pieces)`, the inverse of SplitOnSpace. */
  function JoinOnSpace(pieces: seq<string>): string
    requires |pieces| >= 1
  {
    if |pieces| == 1 then pieces[0] else pieces[0] + " " + JoinOnSpace(pieces[1..])
  }

  /** The text of `s` up to, not including, its first space. */
  function TakeUntilSpace(s: string): string
  {
    if s == [] || s[0] == ' ' then "" else [s[0]] + TakeUntilSpace(s[1..])
  }

  /** Splitting loses nothing: joining the pieces again gives back the header. */
  lemma {:induction false} JoinSplit(s: string)
    ensures JoinOnSpace(SplitOnSpace(s)) == s
  {
    if s != [] {
      var rest := SplitOnSpace(s[1..]);
      JoinSplit(s[1..]);
      if s[0] == ' ' {
        assert ([""] + rest)[1..] == rest;
      } else {
        var p := [[s[0]] + rest[0]] + rest[1..];
        assert p[1..] == rest[1..];
        if |rest| > 1 {
          assert JoinOnSpace(rest) == rest[0] + " " + JoinOnSpace(rest[1..]);
        }
      }
    }
  }

  /** The first piece of a split is the text before the first space. */
  lemma {:induction false} SplitHead(s: string)
    ensures SplitOnSpace(s)[0] == TakeUntilSpace(s)
  {
    if s != [] && s[0] != ' ' {
      SplitHead(s[1..]);
    }
  }

  /** Text without a space is taken whole. */
  lemma {:induction false} TakeUntilSpaceWhole(s: string)
    requires ' ' !in s
    ensures TakeUntilSpace(s) == s
  {
    if s != [] {
      assert forall c :: c in s[1..] ==> c in s;
      TakeUntilSpaceWhole(s[1..]);
    }
  }

  /** A space-free word followed by a space splits off as the first piece. */
  lemma {:induction false} SplitAfterWord(w: string, rest: string)
    requires ' ' !in w
    ensures SplitOnSpace(w + " " + rest) == [w] + SplitOnSpace(rest)
  {
    if w == [] {
      assert w + " " + rest == [' '] + rest;
      assert ([' '] + rest)[1..] == rest;
    } else {
      var s := w + " " + rest;
      assert s[0] == w[0] && s[1..] == w[1..] + " " + rest;
      SplitAfterWord(w[1..], rest);
      assert [w[0]] + w[1..] == w;
    }
  }

  /** The token `require_auth` extracts, or None when the header does not
      start with "Bearer ". */
  function BearerToken(header: string): (token: Option<string>)
    ensures token.None? <==> !StartsWith(header, BEARER_PREFIX)
    ensures token.Some? ==> token.value == TakeUntilSpace(header[|BEARER_PREFIX|..])
    ensures token.Some? ==> ' ' !in token.value
    ensures header == BEARER_PREFIX ==> token == Some("")
  {
    if !StartsWith(header, BEARER_PREFIX) then None
    else
      var rest := header[|BEARER_PREFIX|..];
      assert header == "Bearer" + " " + rest;
      SplitAfterWord("Bearer", rest);
      SplitHead(rest);
      Some(SplitOnSpace(header)[1])
  }

  /** `require_auth(request)`: the decoded payload, or a 401 response. A missing
      header reads as the empty string. */
  function RequireAuth(authorization: Option<string>, decode: string -> DecodeOutcome): (r: AuthResult)
    ensures var header := if authorization.Some? then authorization.value else "";
      && (r.Authorized? <==>
           StartsWith(header, BEARER_PREFIX) && decode(TakeUntilSpace(header[|BEARER_PREFIX|..])).Decoded?)
      && (r.Authorized? ==> r.payload == decode(TakeUntilSpace(header[|BEARER_PREFIX|..])).payload)
      && (!StartsWith(header, BEARER_PREFIX) ==> r == Refused(Error(HTTP_401_UNAUTHORIZED, MSG_HEADER_INVALID)))
      && (StartsWith(header, BEARER_PREFIX) && decode(TakeUntilSpace(header[|BEARER_PREFIX|..])).ExpiredSignature? ==>
           r == Refused(Error(HTTP_401_UNAUTHORIZED, MSG_TOKEN_EXPIRED)))
      && (StartsWith(header, BEARER_PREFIX) && decode(TakeUntilSpace(header[|BEARER_PREFIX|..])).InvalidToken? ==>
           r == Refused(Error(HTTP_401_UNAUTHORIZED, MSG_TOKEN_INVALID)))
    ensures r.Refused? ==> r.response.status == HTTP_401_UNAUTHORIZED && r.response.body.ErrorBody?
  {
    var header := if authorization.Some? then authorization.value else "";
    match BearerToken(header)
    case None => Refused(Error(HTTP_401_UNAUTHORIZED, MSG_HEADER_INVALID))
    case Some(token) =>
      match decode(token)
      case Decoded(payload) => Authorized(payload)
      case ExpiredSignature => Refused(Error(HTTP_401_UNAUTHORIZED, MSG_TOKEN_EXPIRED))
      case InvalidToken => Refused(Error(HTTP_401_UNAUTHORIZED, MSG_TOKEN_INVALID))
  }
}
