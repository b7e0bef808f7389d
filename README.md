# hauth authorization core in Dafny

This project models the authorization core of the hauth backend and the
handlers that use it:

- the per-API check `BasicAuth` and the per-domain check `DomainAuth`, which
  maps a grant level (-1 none, 1 read, 2 read-write) and a pattern (`"r"` or
  `"w"`) to a decision, and the root-domain test `IsRoot`;
- the org-unit handlers. Most are a gate sequence: API check, token, domain
  resolution, domain check, then one call on the org model. `GetSubOrgInfo`
  checks only the id's separator, and `Upload` has no API check. A failure is
  identified by its status code together with its message key, since codes
  are shared (403 for both a denied API and an unparsable token, 421 for
  several gates of `Update`). The bulk `Upload` runs behind a single-flight slot:
  it skips the header row, turns each later row into a record with composite
  ids, and stops the whole import at the first self-parented or unwritable row;
- the role handlers, including `Delete`'s check that every role's domain is
  writable before anything is deleted;
- the application registry: `AppRegister` adds each name once, and
  `Bootstrap` invokes every registered callback exactly once.

Modules, one per source file or shared concern:

- `Codec` (`codec.dfy`): composite ids `<domain>#<code>` (utils.JoinCode, SplitDomain, SplitCode).
- `Http` (`http.dfy`): the request, its oracles, and the replies written through hret.
- `Hrpc` (`hrpc.dfy`): core/hrpc/auth.go.
- `OrgCtl` (`org_controller.dfy`): core/controllers/orgController.go. The class `OrgController` holds the upload slot as `busy`.
- `RoleCtl` (`role_controller.dfy`): core/controllers/roleControllers.go.
- `Service` (`service.dfy`): core/service/hauth_init.go. The class `AppRegistry` holds `regApp`.

A handler's result is an `Outcome`: the replies it wrote, in order, and the
model call it made, if any. So "the model is never called" reads as
`out.call == None`. Only role `Update` can write more than one reply.

Everything the core consults outside this model is an input:

- the parse of the `Authorization` cookie (`Token`);
- the grant count for a user and path (`grantCount`);
- the domain level (`domainLevel`);
- the success of each model call (`OrgStore`, `accepts`);
- the uploaded workbook (`UploadFile`) and the export template (`Template`).

Assumptions, for code that is not part of this model:

- `utils.JoinCode`, `utils.SplitDomain` and `utils.SplitCode` are modelled as concatenation around the one reserved character `#`. Splitting happens at the first `#`. A failed split yields the empty string together with the error.
- `validator.IsEmpty` is taken to be the empty-string test.
- The `Authorization` cookie is assumed present. Without it the source dereferences nil (core/hrpc/auth.go:24-25).
- An xlsx cell beyond the end of a row reads as the empty string.
- Every parse of the `Authorization` cookie within one request gives the same result: the request carries one `token`. The source parses the cookie in `BasicAuth` (core/hrpc/auth.go:25) and again in each handler (for example core/controllers/orgController.go:96), and each parse checks expiry against the clock. A token that expires between the two parses is not modelled, so the model never takes a handler's 403 "disconnect" branch after `BasicAuth` has passed. The "call made iff the gates pass" clauses of the handlers hold under this assumption.

## Model

| member | source | states |
|---|---|---|
| `Hrpc.BasicAuth` | core/hrpc/auth.go:23-44 | a grant needs a parsable token; the admin user with a valid token is always granted |
| `Hrpc.AdminSkipsGrantQuery` | core/hrpc/auth.go:30-32 | admin is granted whatever the grant-count query would answer, so the query is never consulted |
| `Hrpc.InvalidTokenDenied` | core/hrpc/auth.go:24-29 | a token that does not parse denies |
| `Hrpc.NonAdminNeedsGrant` | core/hrpc/auth.go:33-43 | for any other user: granted iff the query succeeds with a count above zero (query error or 0 denies) |
| `Hrpc.DomainAuth` | core/hrpc/auth.go:52-74 | a grant needs a non-empty domain, a level other than -1, and pattern "r" or "w" |
| `Hrpc.EmptyDomainDenied` | core/hrpc/auth.go:53-55 | an empty domain is denied for every pattern and every level |
| `Hrpc.ReadGrantedUnlessNoAccess` | core/hrpc/auth.go:59-64 | "r" is granted iff the level is not -1 (any other value, not only 1 and 2) |
| `Hrpc.WriteGrantedOnlyAtReadWrite` | core/hrpc/auth.go:65-70 | "w" is granted iff the level is exactly 2 |
| `Hrpc.UnknownPatternDenied` | core/hrpc/auth.go:71-72 | any pattern other than "r"/"w" is denied |
| `Hrpc.WriteImpliesRead` | core/hrpc/auth.go:59-70 | write access implies read access for the same request and domain |
| `Hrpc.ReadOnlyDoesNotWrite` | core/hrpc/auth.go:59-70 | the converse fails: at level 1 "r" is granted and "w" denied |
| `Hrpc.IsRoot` | core/hrpc/auth.go:76-81 | true iff the domain is the sentinel "vertex_root" |
| `Codec.JoinCode` | core/controllers/orgController.go:572-573 | a composite id is one character longer than its two parts and always carries the separator, so it always splits |
| `Codec.SplitDomain` | core/controllers/orgController.go:229-234 | fails iff the id has no separator; otherwise the domain part is a proper prefix of the id, holds no separator, and is followed by the separator |
| `Codec.SplitCode` | core/controllers/orgController.go:473 | fails iff the id has no separator; otherwise the code is a proper suffix of the id, preceded by the separator |
| `Codec.SplitJoin` | core/controllers/orgController.go:572-573 | splitting a joined id gives back its domain and its code, for a separator-free domain |
| `Codec.JoinSplit` | core/controllers/orgController.go:473 | joining the two parts of a splittable id rebuilds the id |
| `Codec.JoinCodeInjective` | core/controllers/orgController.go:572-576 | within one domain two ids are equal iff their codes are |
| `Codec.JoinCodeDeterminesParts` | core/controllers/orgController.go:572-573 | across separator-free domains an id determines its domain and its code |
| `Http.ScopeOf` | core/controllers/orgController.go:93-103 | the `domain_id` field when non-empty, else the claim's domain, else nothing (token does not parse) |
| `OrgCtl.Get` | core/controllers/orgController.go:86-117 | 403 without API grant; the domain query is made iff the resolved domain passes "r", otherwise 421; the query error is 417 |
| `OrgCtl.GetNeverDisconnects` | core/controllers/orgController.go:88-101 | under the one-parse-per-request assumption: after BasicAuth the token parses, so the 403 "disconnect" branch is never taken |
| `OrgCtl.Delete` | core/controllers/orgController.go:147-187 | malformed JSON is 421 before any domain check; the delete is made iff the resolved domain passes "w", else 403; a model error is 418 |
| `OrgCtl.Update` | core/controllers/orgController.go:211-248 | the domain comes from the `Id` field (no separator: 421); the update is made iff that domain passes "w", else 421 |
| `OrgCtl.Post` | core/controllers/orgController.go:290-319 | the insert is made iff `Domain_id` passes "w", else 421; it runs as the claim's user |
| `OrgCtl.GetSubOrgInfo` | core/controllers/orgController.go:349-368 | the query is made iff the id has a separator (else 421); there is no API or domain check; a query error is 419 |
| `OrgCtl.SubOrgInfoIgnoresCaller` | core/controllers/orgController.go:349-368 | two requests with the same form get the same outcome, whatever their tokens and grants |
| `OrgCtl.BaseSheet` | core/controllers/orgController.go:425-463 | no template: a fresh sheet with the 8-column header; a template: its org sheet unchanged; a template without that sheet is the only failure |
| `OrgCtl.ExportRowLayout` | core/controllers/orgController.go:464-488 | one cell per header column; cells 0, 1 and 3 are what an upload reads back as code, description and domain; the parent cell rejoined with the parent's domain gives back the parent id, and is empty when that id has no separator |
| `OrgCtl.Download` | core/controllers/orgController.go:392-493 | query made iff the resolved domain passes "r" (else 403); 417 and 421 for query and sheet errors; the sheet is the base rows followed by one 8-column row per org unit, in order |
| `OrgCtl.OrgController.constructor` | core/controllers/orgController.go:29-32 | the upload slot starts empty |
| `OrgCtl.OrgController.Upload` | core/controllers/orgController.go:519-598 | slot busy: a success-shaped "wait" and nothing else; bad token: 403 with the slot untouched; the slot is released on every exit; the batch is submitted iff every data row is admitted, so one refused row anywhere means nothing is written; all rows admitted: the batch is rows 1.. in order; first refused row: its 421/403 and the records before it |
| `OrgCtl.ScanRows` | core/controllers/orgController.go:563-589 | the row loop: header row skipped; no refusal anywhere iff no fault is returned, and then the records of all data rows in order; otherwise the reply of the first refused row and the records of exactly the rows before it |
| `OrgCtl.PrefixRecords` | core/controllers/orgController.go:563-587 | records appended one per data row of a prefix are the records of that prefix's body |
| `OrgCtl.ToRecord` | core/controllers/orgController.go:568-574 | the record takes code, description and domain from cells 0, 1 and 3 and the uploader as creator; both ids are composite ids carrying the separator |
| `OrgCtl.RecordFields` | core/controllers/orgController.go:571-573 | for a separator-free domain, the unit id splits back into the row's domain and code, and the parent id into the domain and parent code |
| `OrgCtl.RefusalIsRowFault` | core/controllers/orgController.go:576-584 | the loop's refusal, taken as the per-row check, stops exactly where the upload does and admits exactly the rows the upload admits |
| `OrgCtl.RowFault` | core/controllers/orgController.go:576-584 | a row is refused as its own parent (421) iff its code equals its parent code, whatever the grants, so this check comes first; it is admitted iff it is not its own parent and its domain passes "w"; any other refusal is the 403 |
| `OrgCtl.HeaderSkipped` | core/controllers/orgController.go:563-589 | the records number one less than the rows and record i comes from row i+1 |
| `OrgCtl.ExportThenImport` | core/controllers/orgController.go:464-476 | a downloaded row of a well-formed unit uploads back to the same code, description, domain, id and parent id |
| `OrgCtl.TwoLevelUpload` | core/controllers/orgController.go:563-589 | two rows in one writable domain, the second naming the first as parent, upload as a linked two-node tree |
| `RoleCtl.Get` | core/controllers/roleControllers.go:86-120 | the query is made iff the resolved domain passes "r", else 403; a query error is 421 |
| `RoleCtl.Post` | core/controllers/roleControllers.go:144-173 | the insert is made iff the form's `domain_id` passes "w", else 421 |
| `RoleCtl.Delete` | core/controllers/roleControllers.go:197-226 | malformed JSON is 421; the delete is made iff every role's domain passes "w"; the first refused role gives 403 naming its domain; a model error is 418 |
| `RoleCtl.Update` | core/controllers/roleControllers.go:250-286 | as written: no separator writes 423 and then the 403 of the write check, with no update; otherwise the update is made iff the domain passes "w" |
| `RoleCtl.UpdateReturning` | core/controllers/roleControllers.go:260-269 | corrected: always exactly one reply; no separator is 423 alone |
| `RoleCtl.UpdateReturningAgrees` | core/controllers/roleControllers.go:250-286 | the corrected handler agrees with the source on every id that has a separator |
| `RoleCtl.UpdateWritesTwiceWithoutSeparator` | core/controllers/roleControllers.go:260-269 | an admin updating role "r1" gets 423 and 403 written; the corrected handler writes 423 alone |
| `Service.Registered` | core/service/hauth_init.go:27-35 | a taken name is refused; a fresh one adds exactly that entry and keeps every other |
| `Service.RegistrationIsLocal` | core/service/hauth_init.go:27-35 | registration never adds, removes or changes an entry under another name |
| `Service.AppRegistry.constructor` | core/service/hauth_init.go:23 | the registry starts empty |
| `Service.AppRegistry.AppRegister` | core/service/hauth_init.go:27-35 | a taken name panics and leaves the map unchanged; a fresh name is added as `Registered` says |
| `Service.AppRegistry.Bootstrap` | core/service/hauth_init.go:56-59 | every registered callback is invoked, none twice, in an unspecified order |

## Left out

- Token issue and verification (utils/jwt/jwt.go: HMAC-SHA256 signing, expiry): the parse of the `Authorization` cookie is an input.
- The grant-count query and `checkDomainAuthLevel`: both are inputs. So is the ancestor-domain walk behind the level.
- The org and role models (`models.*`), including the transactional rollback inside `models.Upload`: each call's success is an input. The messages they return are `FromModel`.
- `utils.JoinCode`, `utils.SplitDomain`, `utils.SplitCode` and `validator.IsEmpty` are not part of this model. They are assumed as stated above.
- A missing `Authorization` cookie panics in the source. The model assumes the cookie is present.
- Excel and file I/O (`FormFile`, `ReadAll`, `OpenFile`, `Write`): the workbook and the template are inputs.
- A workbook that `xlsx.OpenBinary` fails to open is not modelled. The source discards that error (orgController.go:555).
- The `AddSheet` failure branch of `Download` (orgController.go:429-434) is not modelled. A fresh file with a fixed, short sheet name is taken not to fail there.
- `Download` also sets the Content-Type header. That is not modelled.
- Concurrency is not modelled; everything runs sequentially. This covers the race between the slot check (orgController.go:520) and the send (orgController.go:535), `regLock`, and `Bootstrap` reading the map without the lock.
- `Bootstrap`'s request filters (`WriteHandleLogs`, `CheckConnection`), `registerRouter` and `beego.Run`.
- What a registered callback does. `Bootstrap` returns the names whose callbacks it invokes.
- Logging (`logs.Error`, `logs.Info`, for example core/hrpc/auth.go:27 and core/service/hauth_init.go:57, and most error paths): it has no effect on replies or state.
- JSON encoding of replies, i18n lookup and panic recovery: a reply carries its status code and message key.
- The `Page` handlers, which serve cached static pages.
- `RoleInfo` columns other than the role id and the domain.
- RoleCtl.Post: the order "write check, then token" is not observable in the model, because under the one-parse-per-request assumption a request that passes `BasicAuth` always has a parsable token.
- OrgCtl.GetNeverDisconnects: the handlers' 403 "disconnect" branch after a passing `BasicAuth` is reachable in the source when the token expires between the two parses. The model gives one parse result per request and does not capture that case.

## Findings

| source | as written | input that shows it | evidently intended | confidence | as-written member | corrected member |
|---|---|---|---|---|---|---|
| core/controllers/roleControllers.go:260-264 | after writing 423 for a `Role_id` without separator the handler does not return. It runs the write check on the empty domain and writes a second error (403) into the same response. | admin caller, `Role_id` = "r1" (lemma `RoleCtl.UpdateWritesTwiceWithoutSeparator`) | return after the 423 reply, as every other error reply in both controllers does | not executed | `RoleCtl.Update` | `RoleCtl.UpdateReturning` |
