/**
 * The request context shared by the authorization checks and the handlers,
 * and the replies the handlers write through the hret helpers.
 *
 * What a request consults outside this model is carried on the request as an
 * oracle: the outcome of parsing its `Authorization` cookie (jwt.ParseJwt),
 * the grant count that the per-API query returns for a user and a path, and
 * the grant level that the per-domain lookup returns for a domain.
 */
module Http {
  import opened Wrappers

  /** One spreadsheet row: its cells as text, in column order. */
  type Row = seq<string>

  /** The session claim carried by a valid token. */
  datatype Claim = Claim(userId: string, domainId: string, orgUnitId: string, authorities: string)

  /** What jwt.ParseJwt makes of the `Authorization` cookie. */
  datatype Token = Valid(claim: Claim) | Invalid

  /** What the grant-count query returns. */
  datatype Count = Counted(n: nat) | QueryFailed

  /**
   * One request and the oracles it is judged by. `token` is the result of
   * every parse of the cookie during this request: BasicAuth and the
   * handler see the same token, so expiry between two parses is not modelled.
   */
  datatype Request = Request(
    token: Token,
    path: string,
    form: map<string, string>,
    grantCount: (string, string) -> Count,
    domainLevel: string -> int)

  /** Request.FormValue and url.Values.Get: a missing field reads as the empty string. */
  function FormValue(form: map<string, string>, key: string): string {
    if key in form then form[key] else ""
  }

  /** validator.IsEmpty, taken to be the empty-string test. */
  predicate IsEmpty(s: string) {
    |s| == 0
  }

  /**
   * The domain a read handler works in: the `domain_id` form field, or, when
   * that is empty, the domain of the caller's claim. None stands for a token
   * that cannot be parsed at that point.
   */
  function ScopeOf(req: Request): (scope: Option<string>)
    ensures !IsEmpty(FormValue(req.form, "domain_id")) ==> scope == Some(FormValue(req.form, "domain_id"))
    ensures IsEmpty(FormValue(req.form, "domain_id")) && req.token.Valid? ==> scope == Some(req.token.claim.domainId)
    ensures IsEmpty(FormValue(req.form, "domain_id")) && req.token.Invalid? ==> scope == None
  {
    var domainId := FormValue(req.form, "domain_id");
    if !IsEmpty(domainId) then Some(domainId)
    else match req.token
      case Invalid => None
      case Valid(claim) => Some(claim.domainId)
  }

  /** The text of a reply; `Key` names an i18n message, `FromModel` is the message a model call returned. */
  datatype Message =
    | NoAuth
    | Disconnect
    | NoSeparator(id: string)
    | WriteDomain(domainId: string)
    | Succeeded
    | FromModel
    | Key(name: string)

  /** The i18n keys both controllers use for a domain they may not read or write. */
  const DeniedRead: Message := Key("as_of_date_domain_permission_denied")
  const DeniedWrite: Message := Key("as_of_date_domain_permission_denied_modify")

  /** hret.Success (code 200), hret.Json, a written workbook, and hret.Error with its status code. */
  datatype Reply =
    | Success(message: Message)
    | Json
    | Sheet(rows: seq<Row>)
    | Error(code: int, message: Message)

  /**
   * What a handler did: the replies it wrote, in order (the first decides the
   * HTTP status), and the persistence call it made, if any.
   */
  datatype Outcome<C> = Outcome(writes: seq<Reply>, call: Option<C>)

  /** A handler that writes one error and calls nothing. */
  function Refuse<C>(code: int, message: Message): Outcome<C> {
    Outcome([Error(code, message)], None)
  }

  /** A handler that makes `call` and writes `success`, or the error `failCode` when the call fails. */
  function Persist<C>(call: C, ok: bool, success: Reply, failCode: int, failMessage: Message): Outcome<C> {
    Outcome([if ok then success else Error(failCode, failMessage)], Some(call))
  }
}
