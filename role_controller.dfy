/**
 * The role handlers of core/controllers/roleControllers.go: the gate
 * sequences of Get, Post and Update, and Delete's check of every role.
 * The role model (models.RoleModel) is not part of this model; whether a
 * call on it succeeds is given as an oracle.
 */
module RoleCtl {
  import opened Wrappers
  import opened Codec
  import opened Http
  import opened Hrpc

  /** models.RoleInfo, reduced to the columns the handlers read. */
  datatype RoleInfo = RoleInfo(roleId: string, domainId: string)

  /** The calls a handler makes on the role model. */
  datatype RoleCall =
    | GetRoles(domainId: string)
    | PostRole(form: map<string, string>, userId: string)
    | DeleteRoles(roles: seq<RoleInfo>)
    | UpdateRole(form: map<string, string>, userId: string)

  /** Get: the roles of the requested (or the caller's own) domain, for a caller who may read it. */
  function Get(req: Request, accepts: RoleCall -> bool): (out: Outcome<RoleCall>)
    ensures !BasicAuth(req) ==> out == Refuse(403, NoAuth)
    ensures out.call.Some? <==>
      BasicAuth(req) && ScopeOf(req).Some? && DomainAuth(req, ScopeOf(req).value, "r")
    ensures out.call.Some? ==> out.call.value == GetRoles(ScopeOf(req).value)
    ensures out.call.Some? ==>
      out.writes == [if accepts(out.call.value) then Json else Error(421, Key("error_role_query"))]
    ensures BasicAuth(req) && ScopeOf(req).Some? && !DomainAuth(req, ScopeOf(req).value, "r") ==>
      out == Refuse(403, DeniedRead)
  {
    if !BasicAuth(req) then Refuse(403, NoAuth)
    else match ScopeOf(req)
      case None => Refuse(403, Disconnect)
      case Some(domainId) =>
        if !DomainAuth(req, domainId, "r") then Refuse(403, DeniedRead)
        else
          var call := GetRoles(domainId);
          Persist(call, accepts(call), Json, 421, Key("error_role_query"))
  }

  /** Post: a new role in the `domain_id` domain; write access is checked before the token is read. */
  function Post(req: Request, accepts: RoleCall -> bool): (out: Outcome<RoleCall>)
    ensures !BasicAuth(req) ==> out == Refuse(403, NoAuth)
    ensures var domainId := FormValue(req.form, "domain_id");
      out.call.Some? <==> BasicAuth(req) && DomainAuth(req, domainId, "w")
    ensures var domainId := FormValue(req.form, "domain_id");
      BasicAuth(req) && !DomainAuth(req, domainId, "w") ==> out == Refuse(421, DeniedRead)
    ensures out.call.Some? ==> out.call.value == PostRole(req.form, req.token.claim.userId)
    ensures out.call.Some? ==>
      out.writes == [if accepts(out.call.value) then Success(Succeeded) else Error(421, FromModel)]
  {
    if !BasicAuth(req) then Refuse(403, NoAuth)
    else
      var domainId := FormValue(req.form, "domain_id");
      if !DomainAuth(req, domainId, "w") then Refuse(421, DeniedRead)
      else match req.token
        case Invalid => Refuse(403, Disconnect)
        case Valid(claim) =>
          var call := PostRole(req.form, claim.userId);
          Persist(call, accepts(call), Success(Succeeded), 421, FromModel)
  }

  /** The caller may write the role's domain. */
  predicate Writable(req: Request, role: RoleInfo) {
    DomainAuth(req, role.domainId, "w")
  }

  /** Role `k` is the first of `roles` whose domain the caller may not write. */
  predicate FirstDenied(req: Request, roles: seq<RoleInfo>, k: int) {
    0 <= k < |roles| && !Writable(req, roles[k]) &&
    forall j :: 0 <= j < k ==> Writable(req, roles[j])
  }

  /**
   * Delete: `decoded` is the JSON form field as decoded (None: malformed).
   * Nothing is deleted unless the caller may write the domain of every role.
   */
  method Delete(req: Request, decoded: Option<seq<RoleInfo>>, accepts: RoleCall -> bool) returns (out: Outcome<RoleCall>)
    ensures !BasicAuth(req) ==> out == Refuse(403, NoAuth)
    ensures BasicAuth(req) && decoded.None? ==> out == Refuse(421, Key("error_role_json_failed"))
    ensures out.call.Some? <==>
      BasicAuth(req) && decoded.Some? && forall i :: 0 <= i < |decoded.value| ==> Writable(req, decoded.value[i])
    ensures out.call.Some? ==>
      out.call.value == DeleteRoles(decoded.value) &&
      out.writes == [if accepts(out.call.value) then Success(Succeeded) else Error(418, FromModel)]
    ensures BasicAuth(req) && decoded.Some? ==>
      forall k :: FirstDenied(req, decoded.value, k) ==> out == Refuse(403, WriteDomain(decoded.value[k].domainId))
  {
    if !BasicAuth(req) {
      return Refuse(403, NoAuth);
    }
    if decoded.None? {
      return Refuse(421, Key("error_role_json_failed"));
    }
    var allrole := decoded.value;
    for i := 0 to |allrole|
      invariant forall j :: 0 <= j < i ==> Writable(req, allrole[j])
    {
      if !DomainAuth(req, allrole[i].domainId, "w") {
        return Refuse(403, WriteDomain(allrole[i].domainId));
      }
    }
    var call := DeleteRoles(allrole);
    out := Persist(call, accepts(call), Success(Succeeded), 418, FromModel);
  }

  /**
   * Update, as written: a `Role_id` without a separator writes 423 and carries
   * on with an empty domain, which the write check then refuses as well.
   */
  function Update(req: Request, accepts: RoleCall -> bool): (out: Outcome<RoleCall>)
    ensures !BasicAuth(req) ==> out == Refuse(403, NoAuth)
    ensures var roleId := FormValue(req.form, "Role_id");
      BasicAuth(req) && SplitDomain(roleId).None? ==>
        out == Outcome([Error(423, NoSeparator(roleId)), Error(403, DeniedWrite)], None)
    ensures var roleId := FormValue(req.form, "Role_id");
      out.call.Some? <==> BasicAuth(req) && SplitDomain(roleId).Some? && DomainAuth(req, SplitDomain(roleId).value, "w")
    ensures var roleId := FormValue(req.form, "Role_id");
      BasicAuth(req) && SplitDomain(roleId).Some? && !DomainAuth(req, SplitDomain(roleId).value, "w") ==>
        out == Refuse(403, DeniedWrite)
    ensures out.call.Some? ==> out.call.value == UpdateRole(req.form, req.token.claim.userId)
    ensures out.call.Some? ==>
      out.writes == [if accepts(out.call.value) then Success(Succeeded) else Error(421, FromModel)]
  {
    if !BasicAuth(req) then Refuse(403, NoAuth)
    else
      var roleId := FormValue(req.form, "Role_id");
      var did := SplitDomain(roleId);
      var warned := if did.None? then [Error(423, NoSeparator(roleId))] else [];
      if !DomainAuth(req, did.GetOr(""), "w") then Outcome(warned + [Error(403, DeniedWrite)], None)
      else match req.token
        case Invalid => Outcome(warned + [Error(403, Disconnect)], None)
        case Valid(claim) =>
          var call := UpdateRole(req.form, claim.userId);
          var done := Persist(call, accepts(call), Success(Succeeded), 421, FromModel);
          Outcome(warned + done.writes, done.call)
  }

  /** Update as evidently intended: it stops after the 423 and so always writes exactly one reply. */
  function UpdateReturning(req: Request, accepts: RoleCall -> bool): (out: Outcome<RoleCall>)
    ensures |out.writes| == 1
    ensures var roleId := FormValue(req.form, "Role_id");
      BasicAuth(req) && SplitDomain(roleId).None? ==> out == Refuse(423, NoSeparator(roleId))
    ensures var roleId := FormValue(req.form, "Role_id");
      out.call.Some? <==> BasicAuth(req) && SplitDomain(roleId).Some? && DomainAuth(req, SplitDomain(roleId).value, "w")
    ensures var roleId := FormValue(req.form, "Role_id");
      BasicAuth(req) && SplitDomain(roleId).Some? && !DomainAuth(req, SplitDomain(roleId).value, "w") ==>
        out == Refuse(403, DeniedWrite)
    ensures out.call.Some? ==> out.call.value == UpdateRole(req.form, req.token.claim.userId)
    ensures out.call.Some? ==>
      out.writes == [if accepts(out.call.value) then Success(Succeeded) else Error(421, FromModel)]
  {
    if !BasicAuth(req) then Refuse(403, NoAuth)
    else
      var roleId := FormValue(req.form, "Role_id");
      match SplitDomain(roleId)
      case None => Refuse(423, NoSeparator(roleId))
      case Some(did) =>
        if !DomainAuth(req, did, "w") then Refuse(403, DeniedWrite)
        else match req.token
          case Invalid => Refuse(403, Disconnect)
          case Valid(claim) =>
            var call := UpdateRole(req.form, claim.userId);
            Persist(call, accepts(call), Success(Succeeded), 421, FromModel)
  }

  /** The two agree on every request except a `Role_id` without a separator. */
  lemma {:induction false} UpdateReturningAgrees(req: Request, accepts: RoleCall -> bool)
    requires SplitDomain(FormValue(req.form, "Role_id")).Some?
    ensures UpdateReturning(req, accepts) == Update(req, accepts)
  {
    var did := SplitDomain(FormValue(req.form, "Role_id"));
    assert did.GetOr("") == did.value;
  }

  /** An admin updating role "r1", which has no separator, gets two error replies written. */
  lemma UpdateWritesTwiceWithoutSeparator(accepts: RoleCall -> bool)
    ensures var req := Request(
        Valid(Claim(Admin, "d1", "o1", "")), "/v1/auth/role/put", map["Role_id" := "r1"],
        (user: string, path: string) => QueryFailed, (domainId: string) => ReadWrite);
      Update(req, accepts).writes == [Error(423, NoSeparator("r1")), Error(403, DeniedWrite)] &&
      UpdateReturning(req, accepts).writes == [Error(423, NoSeparator("r1"))]
  {
    var id := "r1";
    assert id[1..][1..] == [];
    assert Delimiter !in id;
  }
}
