/** The client builds its Authorization header as `"Bearer " + token`. This
    module proves a property of that header format: were such a header checked
    by the API's `require_auth`, it would be parsed back to the token. */
module BearerHeader {
  import opened Common
  import opened Auth
  import GameScreen

  /** A stored token without spaces comes back out of the header unchanged,
      and a missing token travels as the text "null". */
  lemma {:induction false} ClientHeaderRoundTrip(token: Option<string>)
    requires token.Some? ==> ' ' !in token.value
    ensures BearerToken(GameScreen.AuthHeader(token)) ==
      Some(if token.Some? then token.value else "null")
  {
    var text := if token.Some? then token.value else "null";
    var header := GameScreen.AuthHeader(token);
    assert header[..|BEARER_PREFIX|] == BEARER_PREFIX;
    assert header[|BEARER_PREFIX|..] == text;
    TakeUntilSpaceWhole(text);
  }

  /** Were the client's header checked by `require_auth`, it would authorize
      exactly when the JWT library decodes the token, with that token's
      payload. */
  lemma ClientRequestAuthorization(token: string, decode: string -> DecodeOutcome)
    requires ' ' !in token
    ensures var r := RequireAuth(Some(GameScreen.AuthHeader(Some(token))), decode);
      && (r.Authorized? <==> decode(token).Decoded?)
      && (r.Authorized? ==> r.payload == decode(token).payload)
  {
    ClientHeaderRoundTrip(Some(token));
  }
}
