/** backend/app/models/auth.py: `Token`, the data carried by a login JWT, and its
    translation to and from the JWT payload dict. */
module AuthTokens {
  import opened Wrappers
  import opened Values

  /** `Token`: the user a JWT speaks for. */
  datatype Token = Token(username: string)

  const Malformed := Raised("JWT Payload is malformed")

  /** `Token.from_jwt_payload(jwt_payload)`: the username is the `"sub"` entry, which
      must be present and a string. */
  function FromJwtPayload(payload: map<string, Value>): (r: Outcome<Token>)
    ensures r.Ok? <==> "sub" in payload && payload["sub"].VStr?
    ensures r.Ok? ==> payload["sub"] == VStr(r.value.username)
    ensures r.Err? ==> r.error == Malformed
  {
    var username := if "sub" in payload then payload["sub"] else VNone;
    if !username.VStr? then Err(Malformed) else Ok(Token(username.s))
  }

  /** `token.to_jwt_payload(exp)` */
  function ToJwtPayload(t: Token, exp: Instant): (payload: map<string, Value>)
    ensures payload.Keys == {"sub", "exp"}
    ensures payload["sub"] == VStr(t.username) && payload["exp"] == VTime(exp)
  {
    map["sub" := VStr(t.username), "exp" := VTime(exp)]
  }

  // ------------------------------------------------------------ properties

  /** Decoding the payload of a token gives the token back, whatever its expiry. */
  lemma DecodeEncode(t: Token, exp: Instant)
    ensures FromJwtPayload(ToJwtPayload(t, exp)) == Ok(t)
  {
  }

  /** A payload that decodes is re-encoded with the same `"sub"` entry. */
  lemma EncodeDecode(payload: map<string, Value>, exp: Instant)
    requires FromJwtPayload(payload).Ok?
    ensures ToJwtPayload(FromJwtPayload(payload).value, exp)["sub"] == payload["sub"]
  {
  }

  /** Only `"sub"` matters: two payloads that agree on it decode alike, whatever
      their `"exp"` and other keys. */
  lemma OnlySubMatters(p: map<string, Value>, q: map<string, Value>)
    requires ("sub" in p <==> "sub" in q) && ("sub" in p ==> p["sub"] == q["sub"])
    ensures FromJwtPayload(p) == FromJwtPayload(q)
  {
  }

  /** A payload without a string `"sub"` is refused, whatever else it holds. */
  lemma MissingSubRaises(payload: map<string, Value>, exp: Instant)
    requires "sub" !in payload || !payload["sub"].VStr?
    ensures FromJwtPayload(payload) == Err(Malformed)
    ensures FromJwtPayload(payload["exp" := VTime(exp)]) == Err(Malformed)
  {
    assert "exp" != "sub";
  }
}
