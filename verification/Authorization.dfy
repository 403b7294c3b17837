/** The two parsers of the `Authorization` header and the gate in front of every protected handler. */
module Authorization {
  import opened Prelude
  import opened Text

  datatype AuthFailure = Missing | Invalid | Unavailable

  /** What the introspection client reports when it fails, as far as the gate tells cases apart. */
  datatype ClientError = RejectedToken | OtherFailure

  datatype Claims = Claims(active: bool, aud: Option<string>, sub: Option<string>)

  datatype Header = Header(name: string, value: string)

  /** `HeaderMap::get`: the first value under a name; header names are stored in lower case. */
  function Get(headers: seq<Header>, name: string): Option<string> {
    if headers == [] then None
    else if headers[0].name == name then Some(headers[0].value)
    else Get(headers[1..], name)
  }

  /** `HeaderValue::to_str` succeeds on visible ASCII, space and tab. */
  predicate Decodable(value: string) {
    forall c :: c in value ==> c == '\t' || 0x20 <= c as int <= 0x7E
  }

  /** The `authorization` helper of the routes: the raw header both paths read. */
  function RawAuthorization(headers: seq<Header>): Option<string> {
    match Get(headers, "authorization")
    case Some(value) => if Decodable(value) then Some(value) else None
    case None => None
  }

  /** `bearer_token`. */
  function BearerToken(headers: seq<Header>): Result<string, AuthFailure> {
    match RawAuthorization(headers)
    case None => Err(Missing)
    case Some(raw) => ParseBearer(raw)
  }

  function ParseBearer(raw: string): Result<string, AuthFailure> {
    var space := Find(raw, ' ');
    if space == |raw| then Err(Invalid)
    else
      var scheme, token := raw[..space], raw[space + 1..];
      if LowerAscii(scheme) != "bearer" || token == "" || Trim(token) != token || !NoWhitespace(token)
      then Err(Invalid)
      else Ok(token)
  }

  /** `validate_authorization`, with the length cap of the transport crate as a parameter. */
  predicate ValidAuthorization(value: string, cap: nat) {
    && StartsWith(value, "Bearer ")
    && var token := value[7..];
       ByteLength(value) <= cap && token != "" && Trim(token) == token && NoWhitespace(token)
  }

  /** The grammar of a bearer credential: a scheme that reads `bearer` in any case, one space, and a
      non-empty token without white space (RFC 6750 section 2.1, RFC 9110 section 11.1). */
  ghost predicate IsCredential(raw: string, scheme: string, token: string) {
    && raw == scheme + " " + token
    && LowerAscii(scheme) == "bearer"
    && token != ""
    && NoWhitespace(token)
  }

  /** A scheme equal to `bearer` up to case holds six letters and no space. */
  lemma SchemeHasNoSpace(scheme: string)
    requires LowerAscii(scheme) == "bearer"
    ensures |scheme| == 6 && ' ' !in scheme
  {
    assert |LowerAscii(scheme)| == |scheme|;
    forall i | 0 <= i < |scheme| ensures scheme[i] != ' ' {
      assert LowerAscii(scheme)[i] == "bearer"[i];
    }
  }

  /** The introspection parser accepts exactly the credentials of the grammar and returns their token. */
  lemma ParseBearerExact(raw: string, token: string)
    ensures ParseBearer(raw) == Ok(token) <==> exists scheme :: IsCredential(raw, scheme, token)
  {
    var space := Find(raw, ' ');
    if ParseBearer(raw) == Ok(token) {
      assert raw == raw[..space] + " " + raw[space + 1..];
      assert IsCredential(raw, raw[..space], token);
    }
    if scheme :| IsCredential(raw, scheme, token) {
      SchemeHasNoSpace(scheme);
      TrimNoWhitespace(token);
      assert raw[6] == ' ';
      assert raw == raw[..space] + [' '] + raw[space + 1..];
      SplitUnique(scheme, token, raw[..space], raw[space + 1..], ' ');
    }
  }

  /** On a header that decodes, the gateway's parser accepts exactly when the introspection parser does, the
      scheme is spelled `Bearer`, and the length is within the cap; both then see the same token. */
  lemma ParsersAgree(raw: string, cap: nat)
    requires Decodable(raw)
    ensures ValidAuthorization(raw, cap)
       <==> ParseBearer(raw).Ok? && raw[..6] == "Bearer" && |raw| <= cap
    ensures ValidAuthorization(raw, cap) ==> ParseBearer(raw) == Ok(raw[7..])
  {
    AsciiByteLength(raw);
    if StartsWith(raw, "Bearer ") {
      assert raw == "Bearer" + [' '] + raw[7..] && LowerAscii("Bearer") == "bearer";
      if ValidAuthorization(raw, cap) {
        assert IsCredential(raw, "Bearer", raw[7..]);
        ParseBearerExact(raw, raw[7..]);
      }
    }
    if ParseBearer(raw).Ok? {
      var token := ParseBearer(raw).value;
      ParseBearerExact(raw, token);
      var scheme :| IsCredential(raw, scheme, token);
      SchemeHasNoSpace(scheme);
      TrimNoWhitespace(token);
      assert raw[..6] == scheme && raw[7..] == token;
      if raw[..6] == "Bearer" { assert raw[..7] == "Bearer " <= raw; }
    }
  }

  /** `SharedAuthVerifier::verify`; `introspect` stands for the introspection service. */
  function Verify(headers: seq<Header>, introspect: string -> Result<Claims, ClientError>, audience: string)
    : Result<string, AuthFailure>
  {
    match BearerToken(headers)
    case Err(failure) => Err(failure)
    case Ok(token) =>
      match introspect(token)
      case Err(RejectedToken) => Err(Invalid)
      case Err(OtherFailure) => Err(Unavailable)
      case Ok(claims) =>
        if !claims.active || claims.aud != Some(audience) then Err(Invalid)
        else if claims.sub.None? || Trim(claims.sub.value) == "" then Err(Invalid)
        else Ok(claims.sub.value)
  }

  datatype Admission = Handler(subject: string) | Refused(status: nat)

  /** `require_auth`: what the request meets before any protected handler runs. */
  function RequireAuth(verifier: Option<string>, headers: seq<Header>,
                       introspect: string -> Result<Claims, ClientError>): Admission
  {
    match verifier
    case None => Refused(503)
    case Some(audience) =>
      match Verify(headers, introspect, audience)
      case Ok(subject) => Handler(subject)
      case Err(Unavailable) => Refused(503)
      case Err(_) => Refused(401)
  }

  /** A handler runs for a subject exactly when the header carries a credential whose token the service
      declares active, for this audience and for that non-blank subject.  The header the handler forwards
      upstream is then present and parses to that very token. */
  lemma GateExact(verifier: Option<string>, headers: seq<Header>,
                  introspect: string -> Result<Claims, ClientError>, subject: string)
    ensures RequireAuth(verifier, headers, introspect) == Handler(subject)
       <==> && verifier.Some?
            && exists raw, scheme, token ::
                && RawAuthorization(headers) == Some(raw)
                && IsCredential(raw, scheme, token)
                && introspect(token) == Ok(Claims(true, verifier, Some(subject)))
                && Trim(subject) != ""
    ensures RequireAuth(verifier, headers, introspect).Handler?
        ==> && RawAuthorization(headers).Some?
            && ParseBearer(RawAuthorization(headers).value).Ok?
            && introspect(ParseBearer(RawAuthorization(headers).value).value).Ok?
  {
    if RequireAuth(verifier, headers, introspect) == Handler(subject) {
      var raw := RawAuthorization(headers).value;
      var token := ParseBearer(raw).value;
      ParseBearerExact(raw, token);
      var scheme :| IsCredential(raw, scheme, token);
      assert introspect(token).value == Claims(true, verifier, Some(subject));
    }
    if raw, scheme, token :| && RawAuthorization(headers) == Some(raw) && IsCredential(raw, scheme, token)
                             && verifier.Some? && introspect(token) == Ok(Claims(true, verifier, Some(subject)))
                             && Trim(subject) != "" {
      ParseBearerExact(raw, token);
    }
  }

  /** The header both parsers read is the first of its name, if it decodes: visible ASCII, spaces and tabs. */
  lemma RawExact(headers: seq<Header>, value: string)
    ensures RawAuthorization(headers) == Some(value)
       <==> && (forall c :: c in value ==> c == '\t' || 0x20 <= c as int <= 0x7E)
            && exists i :: 0 <= i < |headers| && headers[i] == Header("authorization", value)
                 && forall k :: 0 <= k < i ==> headers[k].name != "authorization"
  {
    FirstNamed(headers, "authorization");
  }

  lemma {:induction false} FirstNamed(headers: seq<Header>, name: string)
    ensures match Get(headers, name)
            case None => forall k :: 0 <= k < |headers| ==> headers[k].name != name
            case Some(value) =>
              exists i :: 0 <= i < |headers| && headers[i] == Header(name, value)
                && forall k :: 0 <= k < i ==> headers[k].name != name
  {
    if headers != [] {
      if headers[0].name == name {
        assert headers[0] == Header(name, headers[0].value);
      } else {
        FirstNamed(headers[1..], name);
        if Get(headers, name).Some? {
          var i :| 0 <= i < |headers| - 1 && headers[1..][i] == Header(name, Get(headers, name).value)
            && forall k :: 0 <= k < i ==> headers[1..][k].name != name;
          assert headers[i + 1] == Header(name, Get(headers, name).value);
          assert forall k :: 0 < k < i + 1 ==> headers[k] == headers[1..][k - 1];
        } else {
          assert forall k :: 0 < k < |headers| ==> headers[k] == headers[1..][k - 1];
        }
      }
    }
  }

  /** Which status a refusal carries: 503 without a verifier, or when introspection of a well-formed credential
      failed for another reason than the token; 401 for everything else. */
  lemma RefusalExact(verifier: Option<string>, headers: seq<Header>, introspect: string -> Result<Claims, ClientError>)
    ensures var admission := RequireAuth(verifier, headers, introspect);
            admission.Refused? ==>
              admission.status ==
                if verifier.None? then 503
                else if (match RawAuthorization(headers)
                         case Some(raw) =>
                           ParseBearer(raw).Ok? && introspect(ParseBearer(raw).value) == Err(OtherFailure)
                         case None => false)
                then 503 else 401
  {
  }
}
