/**
 * The org-unit handlers of core/controllers/orgController.go: the gate
 * sequences of Get, Delete, Update, Post, GetSubOrgInfo and Download, and
 * the single-flight bulk Upload.
 *
 * Every handler returns an Outcome: the replies it wrote and the call it made
 * on the org model (models.OrgModel), whose own work is not part of this
 * model and is given as an OrgStore oracle.
 */
module OrgCtl {
  import opened Wrappers
  import opened Codec
  import opened Http
  import opened Hrpc

  /** The sheet that uploads are read from and downloads are written to. */
  const OrgSheet: string := "机构信息"

  /** Column titles of a freshly created download sheet, in column order. */
  const ExportHeader: Row := ["机构编码", "机构名称", "上级编码", "所属域", "创建日期", "创建人", "维护日期", "维护人"]

  const SelfParent: Message := Key("as_of_date_up_org_equal_org_id")
  const QueryFailedMessage: Message := Key("error_query_org_info")
  const NoSheet: Message := Key("error_org_sheet")
  const UnreadableUpload: Message := Key("error_org_read_upload_file")
  const UploadWait: Message := Key("error_org_upload_wait")

  /** models.SysOrgInfo. */
  datatype OrgInfo = OrgInfo(
    codeNumber: string,
    orgUnitDesc: string,
    upOrgId: string,
    domainId: string,
    orgUnitId: string,
    createDate: string,
    createUser: string,
    maintainDate: string,
    maintainUser: string)

  /** The calls a handler makes on the org model. */
  datatype OrgCall =
    | GetOrgs(domainId: string)
    | DeleteOrgs(orgs: seq<OrgInfo>, domainId: string)
    | UpdateOrg(form: map<string, string>, userId: string)
    | PostOrg(form: map<string, string>, userId: string)
    | SubOrgs(domainId: string, orgUnitId: string)
    | UploadOrgs(batch: seq<OrgInfo>)

  /** The org model's answers: the org units of a domain (None: query error), and whether another call succeeds. */
  datatype OrgStore = OrgStore(get: string -> Option<seq<OrgInfo>>, accepts: OrgCall -> bool)

  /** The uploaded form file: missing, unreadable, or a workbook of named sheets. */
  datatype UploadFile = NoFormFile | Unreadable | Workbook(sheets: map<string, seq<Row>>)

  /** The export template file: absent, or a workbook of named sheets. */
  datatype Template = NoTemplate | TemplateFile(sheets: map<string, seq<Row>>)

  // ---------------------------------------------------------------------------
  // Gate sequences
  // ---------------------------------------------------------------------------

  /** Get: the org units of the requested (or the caller's own) domain, for a caller who may read it. */
  function Get(req: Request, store: OrgStore): (out: Outcome<OrgCall>)
    ensures !BasicAuth(req) ==> out == Refuse(403, NoAuth)
    ensures out.call.Some? <==>
      BasicAuth(req) && ScopeOf(req).Some? && DomainAuth(req, ScopeOf(req).value, "r")
    ensures out.call.Some? ==> out.call.value == GetOrgs(ScopeOf(req).value)
    ensures out.call.Some? ==>
      out.writes == [if store.get(ScopeOf(req).value).Some? then Json else Error(417, QueryFailedMessage)]
    ensures BasicAuth(req) && ScopeOf(req).Some? && !DomainAuth(req, ScopeOf(req).value, "r") ==>
      out == Refuse(421, DeniedRead)
  {
    if !BasicAuth(req) then Refuse(403, NoAuth)
    else match ScopeOf(req)
      case None => Refuse(403, Disconnect)
      case Some(domainId) =>
        if !DomainAuth(req, domainId, "r") then Refuse(421, DeniedRead)
        else Persist(GetOrgs(domainId), store.get(domainId).Some?, Json, 417, QueryFailedMessage)
  }

  /**
   * Delete: `decoded` is the JSON form field as decoded (None: malformed).
   * The org units are deleted only for a caller who may write the domain.
   */
  function Delete(req: Request, decoded: Option<seq<OrgInfo>>, store: OrgStore): (out: Outcome<OrgCall>)
    ensures !BasicAuth(req) ==> out == Refuse(403, NoAuth)
    ensures BasicAuth(req) && decoded.None? ==> out == Refuse(421, Key("error_delete_org_info"))
    ensures out.call.Some? <==>
      BasicAuth(req) && decoded.Some? && ScopeOf(req).Some? && DomainAuth(req, ScopeOf(req).value, "w")
    ensures BasicAuth(req) && decoded.Some? && ScopeOf(req).Some? && !DomainAuth(req, ScopeOf(req).value, "w") ==>
      out == Refuse(403, DeniedWrite)
    ensures out.call.Some? ==> out.call.value == DeleteOrgs(decoded.value, ScopeOf(req).value)
    ensures out.call.Some? ==>
      out.writes == [if store.accepts(out.call.value) then Success(Succeeded) else Error(418, FromModel)]
  {
    if !BasicAuth(req) then Refuse(403, NoAuth)
    else match decoded
      case None => Refuse(421, Key("error_delete_org_info"))
      case Some(orgs) =>
        match ScopeOf(req)
        case None => Refuse(403, Disconnect)
        case Some(domainId) =>
          if !DomainAuth(req, domainId, "w") then Refuse(403, DeniedWrite)
          else
            var call := DeleteOrgs(orgs, domainId);
            Persist(call, store.accepts(call), Success(Succeeded), 418, FromModel)
  }

  /** Update: the domain is the one encoded in the `Id` field, and the caller must be able to write it. */
  function Update(req: Request, store: OrgStore): (out: Outcome<OrgCall>)
    ensures !BasicAuth(req) ==> out == Refuse(403, NoAuth)
    ensures var id := FormValue(req.form, "Id");
      BasicAuth(req) && SplitDomain(id).None? ==> out == Refuse(421, NoSeparator(id))
    ensures var id := FormValue(req.form, "Id");
      out.call.Some? <==> BasicAuth(req) && SplitDomain(id).Some? && DomainAuth(req, SplitDomain(id).value, "w")
    ensures var id := FormValue(req.form, "Id");
      BasicAuth(req) && SplitDomain(id).Some? && !DomainAuth(req, SplitDomain(id).value, "w") ==>
        out == Refuse(421, DeniedWrite)
    ensures out.call.Some? ==> out.call.value == UpdateOrg(req.form, req.token.claim.userId)
    ensures out.call.Some? ==>
      out.writes == [if store.accepts(out.call.value) then Success(Key("success")) else Error(421, FromModel)]
  {
    if !BasicAuth(req) then Refuse(403, NoAuth)
    else
      var id := FormValue(req.form, "Id");
      match req.token
      case Invalid => Refuse(403, Disconnect)
      case Valid(claim) =>
        match SplitDomain(id)
        case None => Refuse(421, NoSeparator(id))
        case Some(domainId) =>
          if !DomainAuth(req, domainId, "w") then Refuse(421, DeniedWrite)
          else
            var call := UpdateOrg(req.form, claim.userId);
            Persist(call, store.accepts(call), Success(Key("success")), 421, FromModel)
  }

  /** Post: a new org unit in the `Domain_id` domain, for a caller who may write it. */
  function Post(req: Request, store: OrgStore): (out: Outcome<OrgCall>)
    ensures !BasicAuth(req) ==> out == Refuse(403, NoAuth)
    ensures var domainId := FormValue(req.form, "Domain_id");
      out.call.Some? <==> BasicAuth(req) && DomainAuth(req, domainId, "w")
    ensures var domainId := FormValue(req.form, "Domain_id");
      BasicAuth(req) && !DomainAuth(req, domainId, "w") ==> out == Refuse(421, DeniedWrite)
    ensures out.call.Some? ==> out.call.value == PostOrg(req.form, req.token.claim.userId)
    ensures out.call.Some? ==>
      out.writes == [if store.accepts(out.call.value) then Success(Key("success")) else Error(421, FromModel)]
  {
    if !BasicAuth(req) then Refuse(403, NoAuth)
    else match req.token
      case Invalid => Refuse(403, Disconnect)
      case Valid(claim) =>
        var domainId := FormValue(req.form, "Domain_id");
        if !DomainAuth(req, domainId, "w") then Refuse(421, DeniedWrite)
        else
          var call := PostOrg(req.form, claim.userId);
          Persist(call, store.accepts(call), Success(Key("success")), 421, FromModel)
  }

  /** GetSubOrgInfo: the subordinates of `org_unit_id`; only the id's separator is checked. */
  function GetSubOrgInfo(req: Request, store: OrgStore): (out: Outcome<OrgCall>)
    ensures var id := FormValue(req.form, "org_unit_id");
      out.call.Some? <==> SplitDomain(id).Some?
    ensures var id := FormValue(req.form, "org_unit_id");
      out.call.Some? ==> out.call.value == SubOrgs(SplitDomain(id).value, id)
    ensures out.call.Some? ==>
      out.writes == [if store.accepts(out.call.value) then Json else Error(419, Key("error_org_sub_query"))]
    ensures var id := FormValue(req.form, "org_unit_id");
      out.call.None? ==> out == Refuse(421, NoSeparator(id))
  {
    var id := FormValue(req.form, "org_unit_id");
    match SplitDomain(id)
    case None => Refuse(421, NoSeparator(id))
    case Some(domainId) =>
      var call := SubOrgs(domainId, id);
      Persist(call, store.accepts(call), Json, 419, Key("error_org_sub_query"))
  }

  /** Once BasicAuth has passed, the token parses, so the read handlers never answer "disconnected". */
  lemma GetNeverDisconnects(req: Request, store: OrgStore)
    ensures Get(req, store).writes != [Error(403, Disconnect)]
  {
  }

  /** GetSubOrgInfo answers the same whoever asks: it consults neither token nor grants. */
  lemma SubOrgInfoIgnoresCaller(req1: Request, req2: Request, store: OrgStore)
    requires req1.form == req2.form
    ensures GetSubOrgInfo(req1, store) == GetSubOrgInfo(req2, store)
  {
  }

  // ---------------------------------------------------------------------------
  // Spreadsheet layout
  // ---------------------------------------------------------------------------

  /** xlsx Row.GetCell(i).String(): a cell beyond the end of the row reads as empty. */
  function Cell(row: Row, i: nat): string {
    if i < |row| then row[i] else ""
  }

  /** The rows after the header row. */
  function Body(rows: seq<Row>): seq<Row> {
    if rows == [] then [] else rows[1..]
  }

  /**
   * The record an upload builds from one sheet row, for the uploading user:
   * code, description and domain come from cells 0, 1 and 3, and both ids
   * are composite ids (RecordFields shows they split back).
   */
  function ToRecord(row: Row, userId: string): (r: OrgInfo)
    ensures r.codeNumber == Cell(row, 0) && r.orgUnitDesc == Cell(row, 1) && r.domainId == Cell(row, 3)
    ensures r.createUser == userId
    ensures Delimiter in r.orgUnitId && Delimiter in r.upOrgId
  {
    var domainId := Cell(row, 3);
    OrgInfo(
      codeNumber := Cell(row, 0),
      orgUnitDesc := Cell(row, 1),
      upOrgId := JoinCode(domainId, Cell(row, 2)),
      domainId := domainId,
      orgUnitId := JoinCode(domainId, Cell(row, 0)),
      createDate := "",
      createUser := userId,
      maintainDate := "",
      maintainUser := "")
  }

  /** The records of `rows`, in order. */
  function RecordsOf(rows: seq<Row>, userId: string): (records: seq<OrgInfo>)
    ensures |records| == |rows|
    ensures forall i :: 0 <= i < |rows| ==> records[i] == ToRecord(rows[i], userId)
  {
    seq(|rows|, i requires 0 <= i < |rows| => ToRecord(rows[i], userId))
  }

  /**
   * Why an upload stops at a data row: a unit that is its own parent (421),
   * checked first, or a domain the caller may not write (403). None: the row is admitted.
   */
  function RowFault(req: Request, row: Row): (r: Option<Reply>)
    ensures r == Some(Error(421, SelfParent)) <==> Cell(row, 0) == Cell(row, 2)
    ensures r.None? <==> Cell(row, 0) != Cell(row, 2) && DomainAuth(req, Cell(row, 3), "w")
    ensures r.Some? ==> r == Some(Error(421, SelfParent)) || r == Some(Error(403, DeniedWrite))
  {
    var domainId := Cell(row, 3);
    JoinCodeInjective(domainId, Cell(row, 0), Cell(row, 2));
    if JoinCode(domainId, Cell(row, 0)) == JoinCode(domainId, Cell(row, 2)) then Some(Error(421, SelfParent))
    else if !DomainAuth(req, domainId, "w") then Some(Error(403, DeniedWrite))
    else None
  }

  /** Row `k` is the first data row of `rows` that `refusal` refuses. */
  predicate FirstRefused(refusal: Row -> Option<Reply>, rows: seq<Row>, k: int) {
    1 <= k < |rows| && refusal(rows[k]).Some? &&
    forall j :: 1 <= j < k ==> refusal(rows[j]).None?
  }

  /**
   * Row `k` is the first data row an upload refuses: FirstRefused with
   * RowFault as the refusal, spelled out so that Upload's contract does not
   * go through a lambda (RefusalIsRowFault relates the two).
   */
  predicate FirstFault(req: Request, rows: seq<Row>, k: int) {
    1 <= k < |rows| && RowFault(req, rows[k]).Some? &&
    forall j :: 1 <= j < k ==> RowFault(req, rows[j]).None?
  }

  /** The download row of one org unit; the parent column holds the parent's local code. */
  function ExportRow(v: OrgInfo): Row {
    [v.codeNumber, v.orgUnitDesc, SplitCode(v.upOrgId).GetOr(""), v.domainId,
     v.createDate, v.createUser, v.maintainDate, v.maintainUser]
  }

  /** The sheet a download starts from: a header row of its own, or the template's org sheet. */
  function BaseSheet(template: Template): (r: Option<seq<Row>>)
    ensures r.None? <==> template.TemplateFile? && OrgSheet !in template.sheets
    ensures template.NoTemplate? ==> r == Some([ExportHeader]) && |ExportHeader| == 8
    ensures template.TemplateFile? && r.Some? ==> r.value == template.sheets[OrgSheet]
  {
    match template
    case NoTemplate => Some([ExportHeader])
    case TemplateFile(sheets) => if OrgSheet in sheets then Some(sheets[OrgSheet]) else None
  }

  /** `rows` is `base` followed by one download row per record, in order. */
  predicate Exports(base: seq<Row>, records: seq<OrgInfo>, rows: seq<Row>) {
    |rows| == |base| + |records| && rows[..|base|] == base &&
    forall i :: 0 <= i < |records| ==> rows[|base| + i] == ExportRow(records[i])
  }

  /** The upload sheet of a workbook, if the file could be read and holds one. */
  function SheetRows(file: UploadFile): Option<seq<Row>> {
    match file
    case Workbook(sheets) => if OrgSheet in sheets then Some(sheets[OrgSheet]) else None
    case _ => None
  }

  /**
   * Download: the caller's readable domain as a workbook, one row per org unit
   * appended after the template's (or a fresh header) rows.
   */
  method Download(req: Request, store: OrgStore, template: Template) returns (out: Outcome<OrgCall>)
    ensures !BasicAuth(req) ==> out == Refuse(403, NoAuth)
    ensures out.call.Some? <==>
      BasicAuth(req) && ScopeOf(req).Some? && DomainAuth(req, ScopeOf(req).value, "r")
    ensures BasicAuth(req) && ScopeOf(req).Some? && !DomainAuth(req, ScopeOf(req).value, "r") ==>
      out == Refuse(403, DeniedRead)
    ensures out.call.Some? ==> out.call.value == GetOrgs(ScopeOf(req).value) && |out.writes| == 1
    ensures out.call.Some? && store.get(ScopeOf(req).value).None? ==>
      out.writes == [Error(417, QueryFailedMessage)]
    ensures out.call.Some? && store.get(ScopeOf(req).value).Some? && BaseSheet(template).None? ==>
      out.writes == [Error(421, NoSheet)]
    ensures out.call.Some? && store.get(ScopeOf(req).value).Some? && BaseSheet(template).Some? ==>
      out.writes[0].Sheet? &&
      Exports(BaseSheet(template).value, store.get(ScopeOf(req).value).value, out.writes[0].rows)
  {
    if !BasicAuth(req) {
      return Refuse(403, NoAuth);
    }
    var scope := ScopeOf(req);
    if scope.None? {
      return Refuse(403, Disconnect);
    }
    var domainId := scope.value;
    if !DomainAuth(req, domainId, "r") {
      return Refuse(403, DeniedRead);
    }
    var rst := store.get(domainId);
    if rst.None? {
      return Outcome([Error(417, QueryFailedMessage)], Some(GetOrgs(domainId)));
    }
    var base := BaseSheet(template);
    if base.None? {
      return Outcome([Error(421, NoSheet)], Some(GetOrgs(domainId)));
    }
    var records := rst.value;
    var rows := base.value;
    for i := 0 to |records|
      invariant |rows| == |base.value| + i && rows[..|base.value|] == base.value
      invariant forall j :: 0 <= j < i ==> rows[|base.value| + j] == ExportRow(records[j])
    {
      rows := rows + [ExportRow(records[i])];
    }
    out := Outcome([Sheet(rows)], Some(GetOrgs(domainId)));
  }

  // ---------------------------------------------------------------------------
  // Bulk upload
  // ---------------------------------------------------------------------------

  /** orgController: its `upload` channel of capacity one is the single-flight slot. */
  class OrgController {
    /** The slot holds a token: an upload is running. */
    var busy: bool

    constructor ()
      ensures !busy
    {
      busy := false;
    }

    /**
     * Upload: import the org sheet of `file` as one batch. `data` is what the
     * handler had accumulated when it stopped.
     */
    method Upload(req: Request, file: UploadFile, store: OrgStore) returns (out: Outcome<OrgCall>, data: seq<OrgInfo>)
      modifies this
      ensures busy == old(busy)
      ensures old(busy) ==> out == Outcome([Success(UploadWait)], None) && data == []
      ensures !old(busy) && req.token.Invalid? ==> out == Refuse(403, Disconnect) && data == []
      ensures !old(busy) && req.token.Valid? && (file.NoFormFile? || file.Unreadable?) ==>
        out == Refuse(421, UnreadableUpload)
      ensures !old(busy) && req.token.Valid? && file.Workbook? && SheetRows(file).None? ==>
        out == Refuse(421, NoSheet)
      ensures !old(busy) && req.token.Valid? && SheetRows(file).Some? ==>
        var rows := SheetRows(file).value;
        (forall k :: 1 <= k < |rows| ==> RowFault(req, rows[k]).None?) ==>
          data == RecordsOf(Body(rows), req.token.claim.userId) &&
          out == Persist(UploadOrgs(data), store.accepts(UploadOrgs(data)), Success(Succeeded), 421, FromModel)
      ensures !old(busy) && req.token.Valid? && SheetRows(file).Some? ==>
        var rows := SheetRows(file).value;
        (out.call.Some? <==> forall k :: 1 <= k < |rows| ==> RowFault(req, rows[k]).None?)
      ensures !old(busy) && req.token.Valid? && SheetRows(file).Some? ==>
        var rows := SheetRows(file).value;
        forall k :: FirstFault(req, rows, k) ==>
          data == RecordsOf(Body(rows[..k]), req.token.claim.userId) &&
          out == Outcome([RowFault(req, rows[k]).value], None)
    {
      data := [];
      if busy {
        return Outcome([Success(UploadWait)], None), data;
      }
      if req.token.Invalid? {
        return Refuse(403, Disconnect), data;
      }
      var user := req.token.claim.userId;

      busy := true;
      // From here on, every exit releases the slot (the deferred receive).
      if !file.Workbook? {
        out := Refuse(421, UnreadableUpload);
        busy := false;
        return;
      }
      if OrgSheet !in file.sheets {
        out := Refuse(421, NoSheet);
        busy := false;
        return;
      }
      var refusal := row => RowFault(req, row);
      var fault;
      fault, data := ScanRows(refusal, file.sheets[OrgSheet], user);
      RefusalIsRowFault(req, refusal, file.sheets[OrgSheet]);
      if fault.Some? {
        out := Outcome([fault.value], None);
        busy := false;
        return;
      }
      var call := UploadOrgs(data);
      out := Persist(call, store.accepts(call), Success(Succeeded), 421, FromModel);
      busy := false;
    }
  }

  /**
   * Upload's loop over the sheet: row 0 is the header; each later row becomes
   * a record unless `refusal` gives a reply for it, which stops the loop with
   * that reply. Upload passes RowFault for the requesting caller.
   */
  method ScanRows(refusal: Row -> Option<Reply>, rows: seq<Row>, user: string)
    returns (fault: Option<Reply>, data: seq<OrgInfo>)
    ensures fault.None? <==> forall k :: 1 <= k < |rows| ==> refusal(rows[k]).None?
    ensures fault.None? ==> data == RecordsOf(Body(rows), user)
    ensures forall k :: FirstRefused(refusal, rows, k) ==>
      fault == refusal(rows[k]) && data == RecordsOf(Body(rows[..k]), user)
  {
    data := [];
    var index := 0;
    while index < |rows|
      invariant 0 <= index <= |rows|
      invariant forall j :: 1 <= j < index ==> refusal(rows[j]).None?
      invariant |data| == if index == 0 then 0 else index - 1
      invariant forall i :: 0 <= i < |data| ==> data[i] == ToRecord(rows[i + 1], user)
    {
      if index > 0 {
        fault := refusal(rows[index]);
        if fault.Some? {
          PrefixRecords(rows, index, user, data);
          return;
        }
        data := data + [ToRecord(rows[index], user)];
      }
      index := index + 1;
    }
    PrefixRecords(rows, index, user, data);
    assert rows[..index] == rows;
    fault := None;
  }

  /** A scan with RowFault as its refusal stops exactly where an upload does. */
  lemma RefusalIsRowFault(req: Request, refusal: Row -> Option<Reply>, rows: seq<Row>)
    requires forall row :: refusal(row) == RowFault(req, row)
    ensures (forall k :: 1 <= k < |rows| ==> refusal(rows[k]).None?) <==>
      (forall k :: 1 <= k < |rows| ==> RowFault(req, rows[k]).None?)
    ensures forall k :: FirstRefused(refusal, rows, k) <==> FirstFault(req, rows, k)
  {
  }

  /** Records built one by one from rows 1 .. n-1 are the records of that prefix's body. */
  lemma PrefixRecords(rows: seq<Row>, n: nat, user: string, data: seq<OrgInfo>)
    requires n <= |rows|
    requires |data| == if n == 0 then 0 else n - 1
    requires forall i :: 0 <= i < |data| ==> data[i] == ToRecord(rows[i + 1], user)
    ensures data == RecordsOf(Body(rows[..n]), user)
  {
    var body := Body(rows[..n]);
    assert |body| == |data|;
    forall i | 0 <= i < |data|
      ensures data[i] == RecordsOf(body, user)[i]
    {
      assert body[i] == rows[i + 1];
    }
  }

  // ---------------------------------------------------------------------------
  // Properties of the upload and of the download layout
  // ---------------------------------------------------------------------------

  /** The header never yields a record: record i of an upload is built from sheet row i + 1. */
  lemma HeaderSkipped(rows: seq<Row>, userId: string)
    requires rows != []
    ensures |RecordsOf(Body(rows), userId)| == |rows| - 1
    ensures forall i :: 0 <= i < |rows| - 1 ==> RecordsOf(Body(rows), userId)[i] == ToRecord(rows[i + 1], userId)
  {
  }

  /**
   * The download row has one cell per header column; the cells an upload
   * reads back are the code, description and domain, and the parent cell
   * rejoined with the parent's domain gives back the parent id (it is empty
   * when that id has no separator).
   */
  lemma ExportRowLayout(v: OrgInfo)
    ensures |ExportRow(v)| == |ExportHeader|
    ensures Cell(ExportRow(v), 0) == v.codeNumber && Cell(ExportRow(v), 1) == v.orgUnitDesc
    ensures Cell(ExportRow(v), 3) == v.domainId
    ensures Delimiter in v.upOrgId ==> JoinCode(SplitDomain(v.upOrgId).value, Cell(ExportRow(v), 2)) == v.upOrgId
    ensures Delimiter !in v.upOrgId ==> Cell(ExportRow(v), 2) == ""
    ensures ExportRow(v)[4..] == [v.createDate, v.createUser, v.maintainDate, v.maintainUser]
  {
    if Delimiter in v.upOrgId {
      JoinSplit(v.upOrgId);
    }
  }

  /**
   * For a delimiter-free domain, both ids of an uploaded record split back
   * into the row's domain and its code or parent code.
   */
  lemma RecordFields(row: Row, userId: string)
    requires Delimiter !in Cell(row, 3)
    ensures var r := ToRecord(row, userId);
      SplitDomain(r.orgUnitId) == Some(Cell(row, 3)) && SplitCode(r.orgUnitId) == Some(Cell(row, 0)) &&
      SplitDomain(r.upOrgId) == Some(Cell(row, 3)) && SplitCode(r.upOrgId) == Some(Cell(row, 2))
  {
    SplitJoin(Cell(row, 3), Cell(row, 0));
    SplitJoin(Cell(row, 3), Cell(row, 2));
  }

  /**
   * Download then upload: the row exported for a well-formed org unit (ids
   * joined from its domain, parent in the same domain) uploads back to the
   * same code, description, domain, id and parent id.
   */
  lemma {:induction false} ExportThenImport(v: OrgInfo, userId: string)
    requires Delimiter !in v.domainId
    requires v.orgUnitId == JoinCode(v.domainId, v.codeNumber)
    requires SplitDomain(v.upOrgId) == Some(v.domainId)
    ensures var r := ToRecord(ExportRow(v), userId);
      r.codeNumber == v.codeNumber && r.orgUnitDesc == v.orgUnitDesc && r.domainId == v.domainId &&
      r.orgUnitId == v.orgUnitId && r.upOrgId == v.upOrgId
  {
    JoinSplit(v.upOrgId);
  }

  /**
   * Two rows of one writable domain, the second naming the first as parent,
   * are both admitted and upload as a two-node tree linked child to parent.
   */
  lemma {:induction false} TwoLevelUpload(req: Request, header: Row, parent: Row, child: Row, userId: string)
    requires |parent| == 4 && |child| == 4
    requires parent[3] == child[3] && DomainAuth(req, parent[3], "w")
    requires parent[0] != parent[2] && child[2] == parent[0] && child[0] != parent[0]
    ensures forall k :: 1 <= k < 3 ==> RowFault(req, [header, parent, child][k]).None?
    ensures var data := RecordsOf(Body([header, parent, child]), userId);
      |data| == 2 && data[1].upOrgId == data[0].orgUnitId && data[0].orgUnitId != data[1].orgUnitId
  {
    JoinCodeInjective(parent[3], child[0], parent[0]);
  }
}
