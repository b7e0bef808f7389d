/**
 * The authorization decisions of core/hrpc/auth.go: the per-API check
 * (BasicAuth), the per-domain check (DomainAuth) and the root-domain test.
 */
module Hrpc {
  import opened Http

  /** The user that passes every per-API check. */
  const Admin: string := "admin"

  /** The sentinel id of the root domain. */
  const RootDomain: string := "vertex_root"

  /** Grant levels: no access, read only, read and write. */
  const NoAccess: int := -1
  const ReadOnly: int := 1
  const ReadWrite: int := 2

  /**
   * BasicAuth: may the caller use the API at `req.path`? The token must parse;
   * the admin user passes outright; anyone else needs a non-zero grant count.
   */
  function BasicAuth(req: Request): (granted: bool)
    ensures granted ==> req.token.Valid?
    ensures req.token.Valid? && req.token.claim.userId == Admin ==> granted
  {
    match req.token
    case Invalid => false
    case Valid(claim) =>
      if claim.userId == Admin then true
      else match req.grantCount(claim.userId, req.path)
        case QueryFailed => false
        case Counted(n) => n != 0
  }

  /**
   * DomainAuth: may the caller access `domainId` with `pattern` ("r" to read,
   * "w" to read and write)?
   */
  function DomainAuth(req: Request, domainId: string, pattern: string): (granted: bool)
    ensures granted ==> !IsEmpty(domainId) && req.domainLevel(domainId) != NoAccess
    ensures granted ==> pattern == "r" || pattern == "w"
  {
    if IsEmpty(domainId) then false
    else
      var level := req.domainLevel(domainId);
      match pattern
      case "r" => level != NoAccess
      case "w" => level == ReadWrite
      case _ => false
  }

  /** IsRoot: is `domainId` the root domain? */
  function IsRoot(domainId: string): (root: bool)
    ensures root <==> domainId == RootDomain
  {
    domainId == RootDomain
  }

  /** The admin user passes whatever the grant query would have said: it is never consulted. */
  lemma AdminSkipsGrantQuery(req: Request, otherCounts: (string, string) -> Count)
    requires req.token.Valid? && req.token.claim.userId == Admin
    ensures BasicAuth(req)
    ensures BasicAuth(req.(grantCount := otherCounts))
  {
  }

  /** BasicAuth fails closed: an unparsable token denies, whatever the grants. */
  lemma InvalidTokenDenied(req: Request)
    requires req.token.Invalid?
    ensures !BasicAuth(req)
  {
  }

  /** For anyone but admin, BasicAuth grants exactly when the query succeeds with a non-zero count. */
  lemma NonAdminNeedsGrant(req: Request)
    requires req.token.Valid? && req.token.claim.userId != Admin
    ensures var c := req.grantCount(req.token.claim.userId, req.path);
      BasicAuth(req) <==> c.Counted? && c.n > 0
  {
  }

  /** An empty domain is denied for every pattern, whatever level the lookup would give. */
  lemma EmptyDomainDenied(req: Request, pattern: string)
    ensures !DomainAuth(req, "", pattern)
  {
  }

  /** Reading is granted at every level except no-access, not only at 1 and 2. */
  lemma ReadGrantedUnlessNoAccess(req: Request, domainId: string)
    requires !IsEmpty(domainId)
    ensures DomainAuth(req, domainId, "r") <==> req.domainLevel(domainId) != NoAccess
  {
  }

  /** Writing is granted at level 2 and at no other level. */
  lemma WriteGrantedOnlyAtReadWrite(req: Request, domainId: string)
    requires !IsEmpty(domainId)
    ensures DomainAuth(req, domainId, "w") <==> req.domainLevel(domainId) == ReadWrite
  {
  }

  /** Any pattern other than "r" and "w" is denied. */
  lemma UnknownPatternDenied(req: Request, domainId: string, pattern: string)
    requires pattern != "r" && pattern != "w"
    ensures !DomainAuth(req, domainId, pattern)
  {
  }

  /** Write access implies read access for the same caller and domain. */
  lemma WriteImpliesRead(req: Request, domainId: string)
    ensures DomainAuth(req, domainId, "w") ==> DomainAuth(req, domainId, "r")
  {
  }

  /** The converse fails: a read-only grant reads but does not write. */
  lemma ReadOnlyDoesNotWrite(req: Request, domainId: string)
    requires !IsEmpty(domainId) && req.domainLevel(domainId) == ReadOnly
    ensures DomainAuth(req, domainId, "r") && !DomainAuth(req, domainId, "w")
  {
  }
}
