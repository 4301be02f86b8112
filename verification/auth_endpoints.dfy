/** `src/api/endpoints.py`: the authenticated boarding-pass route. The security
    scheme that extracts credentials from the request and the provider that
    judges them are both chosen from the `AUTH_TYPE` setting, but by two
    different rules. */
module AuthEndpoints {
  import opened Wrappers
  import opened Json
  import opened Http
  import opened Text
  import opened Auth
  import Bookings

  /** The FastAPI security dependency that reads the `Authorization` header. */
  datatype Scheme = BasicScheme | BearerScheme | NoScheme

  /** The request's `Authorization` header, as far as the schemes tell it apart. */
  datatype Header = NoHeader | BasicHeader(credentials: Credentials) | BearerHeader(token: string) | OtherHeader

  /** `get_security_dependency` as written: "basic" gives the Basic scheme, the
      three token providers the Bearer scheme, and every other value none. */
  function SecurityScheme(setting: Option<string>): (s: Scheme)
    ensures var t := AuthType(setting);
      && (s == BasicScheme <==> t == "basic")
      && (s == BearerScheme <==> t in {"cognito", "iam", "lambda"})
  {
    var t := AuthType(setting);
    if t == "basic" then BasicScheme
    else if t in ["cognito", "iam", "lambda"] then BearerScheme
    else NoScheme
  }

  /** The scheme each provider reads its credentials from. */
  function SchemeFor(p: Provider): Scheme
  {
    match p
    case Basic => BasicScheme
    case Cognito => BearerScheme
    case Iam => BearerScheme
    case Lambda => BearerScheme
    case NoAuth => NoScheme
  }

  /** What the provider receives from the two dependencies, or the scheme's own
      refusal when the header does not carry what it expects: HTTP Basic answers
      401 and HTTP Bearer 403, both before any provider runs. */
  function Extract(scheme: Scheme, header: Header): (r: Result<(Option<Credentials>, Option<string>), Decision>)
    ensures scheme == NoScheme ==> r == Ok((None, None))
    ensures scheme == BasicScheme ==>
      (if header.BasicHeader? then r == Ok((Some(header.credentials), None))
       else r == Err(Rejected(401, "Not authenticated", Some("Basic"))))
    ensures scheme == BearerScheme ==>
      (if header.BearerHeader? && header.token != "" then r == Ok((None, Some(header.token)))
       else r.Err? && r.error.Rejected? && r.error.status == 403)
  {
    match scheme
    case NoScheme => Ok((None, None))
    case BasicScheme =>
      if header.BasicHeader? then Ok((Some(header.credentials), None))
      else Err(Rejected(401, "Not authenticated", Some("Basic")))
    case BearerScheme =>
      match header
      case BearerHeader(token) =>
        if token == "" then Err(Rejected(403, "Not authenticated", None))
        else Ok((None, Some(token)))
      case NoHeader => Err(Rejected(403, "Not authenticated", None))
      case _ => Err(Rejected(403, "Invalid authentication credentials", None))
  }

  /** `get_current_user` with a given scheme: extract, then authenticate with
      the provider the setting selects. */
  function CurrentUserWith(scheme: Scheme, setting: Option<string>, header: Header, decode: string -> Decoded): (d: Decision)
  {
    match Extract(scheme, header)
    case Err(refusal) => refusal
    case Ok(presented) => Authenticate(SelectProvider(setting), presented.0, presented.1, decode)
  }

  /** `get_current_user` with the scheme chosen as written. Under the Bearer
      scheme the source hands the provider FastAPI's credentials object, not
      the token inside it; the model hands over the token, so the Cognito
      outcomes here are those of decoding the presented token. */
  function CurrentUser(setting: Option<string>, header: Header, decode: string -> Decoded): (d: Decision)
    ensures AuthType(setting) == "none" ==> d == Principal(JStr("anonymous"))
    ensures d.Rejected? ==> d.status in {401, 403}
  {
    CurrentUserWith(SecurityScheme(setting), setting, header, decode)
  }

  /** An unrecognised `AUTH_TYPE` gives no scheme, so nothing is extracted, yet
      the provider falls back to Basic, which refuses the missing credentials:
      every request is 401, whatever it presents. */
  lemma UnrecognisedTypeRejectsEveryone(setting: Option<string>, header: Header, decode: string -> Decoded)
    requires AuthType(setting) !in {"basic", "cognito", "iam", "lambda", "none"}
    ensures CurrentUser(setting, header, decode) == Rejected(401, "No credentials provided", Some("Basic"))
  {
  }

  /** A concrete instance: with `AUTH_TYPE=oauth` even the admin account is refused. */
  lemma OauthRefusesAdmin(decode: string -> Decoded)
    ensures CurrentUser(Some("oauth"), BasicHeader(Credentials(ADMIN_USERNAME, ADMIN_PASSWORD)), decode).Rejected?
  {
    assert Lower("oauth") == "oauth";
    UnrecognisedTypeRejectsEveryone(Some("oauth"), BasicHeader(Credentials(ADMIN_USERNAME, ADMIN_PASSWORD)), decode);
  }

  /** The scheme chosen by the same fallback as the provider: unrecognised
      values read HTTP Basic credentials, as the Basic provider expects. */
  function SecuritySchemeFixed(setting: Option<string>): (s: Scheme)
    ensures s == SchemeFor(SelectProvider(setting))
    ensures AuthType(setting) != "none" ==> s != NoScheme
  {
    var t := AuthType(setting);
    if t in ["cognito", "iam", "lambda"] then BearerScheme
    else if t == "none" then NoScheme
    else BasicScheme
  }

  /** `get_current_user` with the fixed scheme. */
  function CurrentUserFixed(setting: Option<string>, header: Header, decode: string -> Decoded): (d: Decision)
    ensures AuthType(setting) == "none" ==> d == Principal(JStr("anonymous"))
    ensures d.Rejected? ==> d.status in {401, 403}
  {
    CurrentUserWith(SecuritySchemeFixed(setting), setting, header, decode)
  }

  /** Wherever the setting is recognised the fix changes nothing. */
  lemma FixedAgreesOnRecognisedTypes(setting: Option<string>, header: Header, decode: string -> Decoded)
    requires AuthType(setting) in {"basic", "cognito", "iam", "lambda", "none"}
    ensures CurrentUserFixed(setting, header, decode) == CurrentUser(setting, header, decode)
  {
  }

  /** Under the fix, every setting that selects the Basic provider admits the
      admin account, the unrecognised ones included. */
  lemma FixedAdmitsAdminUnderBasic(setting: Option<string>, decode: string -> Decoded)
    requires SelectProvider(setting) == Basic
    ensures CurrentUserFixed(setting, BasicHeader(Credentials(ADMIN_USERNAME, ADMIN_PASSWORD)), decode) == Principal(JStr(ADMIN_USERNAME))
  {
  }

  /** The response when the user dependency refuses: FastAPI answers the
      exception's status and detail before the handler runs. */
  function Refusal(d: Decision): (r: Response)
    requires d.Rejected?
    ensures r == Raise(d.status, d.detail)
  {
    Raise(d.status, d.detail)
  }

  /** The boarding-pass object of this route: eight columns of the join, the
      boarding time through `isoformat` (a parameter) and `null` when falsy. */
  function PassObject(v: Bookings.PassView, isoformat: Json -> string): (o: Json)
    ensures o.JObj? && |o.fields| == 8
    ensures Field(o, "gate") == Some(JStr(v.pass.gate))
    ensures Field(o, "boarding_time") == Some(if Truthy(v.pass.boardingTime) then JStr(isoformat(v.pass.boardingTime)) else JNull)
  {
    var row := Bookings.PassColumns(v);
    var fields := [("booking_id", row[0]), ("passenger_name", row[1]), ("flight_number", row[2]),
                   ("departure", row[3]), ("destination", row[4]), ("gate", row[5]), ("seat", row[6]),
                   ("boarding_time", if Truthy(row[7]) then JStr(isoformat(row[7])) else JNull)];
    assert FieldIn(fields, "gate") == Some(fields[5].1);
    assert FieldIn(fields, "boarding_time") == Some(fields[7].1);
    JObj(fields)
  }

  /** `GET /api/v1/boarding-pass/{booking_id}` as written: the 404 raised inside
      the `try` is caught by `except Exception` and re-raised as a 500 whose
      detail is the 404's string form. */
  function BoardingPassAsWritten(user: Decision, found: Option<Bookings.PassView>, isoformat: Json -> string): (r: Response)
    ensures !r.committed
    ensures user.Rejected? ==> r == Raise(user.status, user.detail)
    ensures user.Principal? && found.None? ==> r == Raise(500, "404: Booking not found")
    ensures user.Principal? && found.Some? ==>
      && r.status == OK
      && Field(r.body, "boarding_pass") == Some(PassObject(found.value, isoformat))
      && Field(r.body, "user") == Some(user.name)
  {
    if user.Rejected? then Refusal(user)
    else
      match found
      case None => Raise(500, "404: Booking not found")
      case Some(v) =>
        var fields := [("boarding_pass", PassObject(v, isoformat)), ("user", user.name)];
        assert FieldIn(fields, "user") == Some(fields[1].1);
        Success(fields, false)
  }

  /** The route with the 404 re-raised unchanged, as its not-found branch intends. */
  function BoardingPassFixed(user: Decision, found: Option<Bookings.PassView>, isoformat: Json -> string): (r: Response)
    ensures !r.committed
    ensures user.Rejected? ==> r == Raise(user.status, user.detail)
    ensures user.Principal? && found.None? ==> r == Raise(404, "Booking not found")
    ensures found.Some? || user.Rejected? ==> r == BoardingPassAsWritten(user, found, isoformat)
  {
    if user.Rejected? then Refusal(user)
    else
      match found
      case None => Raise(404, "Booking not found")
      case Some(v) => BoardingPassAsWritten(user, found, isoformat)
  }

  /** As written, an authenticated request for a missing booking is a server
      error, never a 404. */
  lemma MissingBookingIsServerError(user: Decision, isoformat: Json -> string)
    requires user.Principal?
    ensures BoardingPassAsWritten(user, None, isoformat).status == 500
    ensures BoardingPassFixed(user, None, isoformat).status == 404
  {
  }
}
