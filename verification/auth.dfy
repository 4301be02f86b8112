/** The pluggable authentication of `src/api/auth.py`: a provider chosen from
    the `AUTH_TYPE` setting, and each provider's decision on the credentials
    or token a request presents. */
module Auth {
  import opened Wrappers
  import opened Json
  import opened Text

  datatype Provider = Basic | Cognito | Iam | Lambda | NoAuth

  /** `os.getenv("AUTH_TYPE", "basic").lower()` */
  function AuthType(setting: Option<string>): (t: string)
    ensures setting.None? ==> t == "basic"
    ensures setting.Some? ==> t == Lower(setting.value)
  {
    match setting
    case None => "basic"
    case Some(s) => Lower(s)
  }

  /** `get_auth_provider`: the four keywords pick their providers; any other
      value, and an unset variable, pick Basic. */
  function SelectProvider(setting: Option<string>): (p: Provider)
    ensures var t := AuthType(setting);
      && (p == Cognito <==> t == "cognito")
      && (p == Iam <==> t == "iam")
      && (p == Lambda <==> t == "lambda")
      && (p == NoAuth <==> t == "none")
      && (p == Basic <==> t !in {"cognito", "iam", "lambda", "none"})
  {
    var t := AuthType(setting);
    if t == "cognito" then Cognito
    else if t == "iam" then Iam
    else if t == "lambda" then Lambda
    else if t == "none" then NoAuth
    else Basic
  }

  /** The keyword that selects each provider. */
  function Keyword(p: Provider): string
  {
    match p
    case Basic => "basic"
    case Cognito => "cognito"
    case Iam => "iam"
    case Lambda => "lambda"
    case NoAuth => "none"
  }

  /** Lower-casing is idempotent. */
  lemma LowerIdempotent(s: string)
    ensures Lower(Lower(s)) == Lower(s)
  {
    assert forall i :: 0 <= i < |s| ==> LowerChar(LowerChar(s[i])) == LowerChar(s[i]);
  }

  /** Selection ignores letter case: a setting and its lower-case form pick the same provider. */
  lemma SelectionIgnoresCase(s: string)
    ensures SelectProvider(Some(s)) == SelectProvider(Some(Lower(s)))
  {
    LowerIdempotent(s);
  }

  /** Every provider is selected by its keyword, so the keywords and the
      providers correspond one to one. */
  lemma KeywordSelects(p: Provider)
    ensures SelectProvider(Some(Keyword(p))) == p
  {
    var k := Keyword(p);
    assert Lower(k) == k by {
      assert forall i :: 0 <= i < |k| ==> !('A' <= k[i] <= 'Z');
    }
  }

  /** HTTP Basic credentials as the security scheme parses them. */
  datatype Credentials = Credentials(username: string, password: string)

  /** The result of decoding a bearer token without verifying its signature:
      its claims, or the decoder's `JWTError`. */
  datatype Decoded = Claims(claims: map<string, Json>) | DecodeError

  /** A provider's decision: an authenticated principal, or an `HTTPException`
      with its status, detail and optional `WWW-Authenticate` challenge. */
  datatype Decision =
    | Principal(name: Json)
    | Rejected(status: int, detail: string, challenge: Option<string>)

  const ADMIN_USERNAME := "admin"
  const ADMIN_PASSWORD := "password123"

  /** `if not token`: an absent or empty token. */
  predicate NoToken(token: Option<string>)
  {
    token.None? || token.value == ""
  }

  /** `AuthProvider.authenticate` for each provider. Basic checks the one fixed
      account; Cognito decodes the token (the decoder is a parameter) and takes
      its `username` claim, defaulting to "cognito_user" when absent and refusing
      a falsy one; IAM and Lambda accept any token; NoAuth accepts everything. */
  function Authenticate(p: Provider, credentials: Option<Credentials>, token: Option<string>, decode: string -> Decoded): (d: Decision)
    ensures p == NoAuth ==> d == Principal(JStr("anonymous"))
    ensures d.Rejected? ==> d.status in {401, 403}
    ensures d.Rejected? && d.status == 403 ==> p in {Basic, Cognito}
  {
    match p
    case Basic =>
      if credentials.None? then Rejected(401, "No credentials provided", Some("Basic"))
      else if credentials.value.username != ADMIN_USERNAME || credentials.value.password != ADMIN_PASSWORD then
        Rejected(403, "Incorrect username or password", Some("Basic"))
      else Principal(JStr(credentials.value.username))
    case Cognito =>
      if NoToken(token) then Rejected(401, "No token provided", Some("Bearer"))
      else (
        match decode(token.value)
        case DecodeError => Rejected(403, "Invalid token", None)
        case Claims(claims) =>
          var username := if "username" in claims then claims["username"] else JStr("cognito_user");
          if !Truthy(username) then Rejected(403, "Invalid token", None)
          else Principal(username))
    case Iam =>
      if NoToken(token) then Rejected(401, "No IAM credentials provided", None)
      else Principal(JStr("iam_user"))
    case Lambda =>
      if NoToken(token) then Rejected(401, "No token provided", None)
      else Principal(JStr("lambda_user"))
    case NoAuth => Principal(JStr("anonymous"))
  }

  /** What a provider needs to see at all: credentials for Basic, a token for
      the bearer providers, nothing for NoAuth. */
  predicate Missing(p: Provider, credentials: Option<Credentials>, token: Option<string>)
  {
    match p
    case Basic => credentials.None?
    case Cognito => NoToken(token)
    case Iam => NoToken(token)
    case Lambda => NoToken(token)
    case NoAuth => false
  }

  /** For every provider, 401 means exactly that nothing was presented. */
  lemma UnauthorizedIffMissing(p: Provider, credentials: Option<Credentials>, token: Option<string>, decode: string -> Decoded)
    ensures var d := Authenticate(p, credentials, token, decode);
      (d.Rejected? && d.status == 401) <==> Missing(p, credentials, token)
  {
  }

  /** Basic accepts exactly the one fixed account and names it as the principal. */
  lemma BasicAcceptsOnlyAdmin(credentials: Option<Credentials>, token: Option<string>, decode: string -> Decoded)
    ensures Authenticate(Basic, credentials, token, decode).Principal? <==>
      credentials == Some(Credentials(ADMIN_USERNAME, ADMIN_PASSWORD))
    ensures Authenticate(Basic, credentials, token, decode).Principal? ==>
      Authenticate(Basic, credentials, token, decode).name == JStr(ADMIN_USERNAME)
  {
  }

  /** Cognito's principal is the token's `username` claim when it is truthy,
      "cognito_user" when the claim is absent, and any falsy claim or
      undecodable token is refused with 403. */
  lemma CognitoPrincipal(token: string, decode: string -> Decoded)
    requires token != ""
    ensures var d := Authenticate(Cognito, None, Some(token), decode);
      match decode(token)
      case DecodeError => d == Rejected(403, "Invalid token", None)
      case Claims(claims) =>
        if "username" !in claims then d == Principal(JStr("cognito_user"))
        else if Truthy(claims["username"]) then d == Principal(claims["username"])
        else d == Rejected(403, "Invalid token", None)
  {
  }

  /** IAM and Lambda never refuse with 403: a present token always yields their placeholder principal. */
  lemma PlaceholderProvidersNeverForbid(credentials: Option<Credentials>, token: Option<string>, decode: string -> Decoded)
    ensures !NoToken(token) ==> Authenticate(Iam, credentials, token, decode) == Principal(JStr("iam_user"))
    ensures !NoToken(token) ==> Authenticate(Lambda, credentials, token, decode) == Principal(JStr("lambda_user"))
    ensures Authenticate(Iam, credentials, token, decode).Rejected? ==> Authenticate(Iam, credentials, token, decode).status == 401
  {
  }
}
