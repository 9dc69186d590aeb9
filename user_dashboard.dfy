/**
 * The employee dashboard (`UserDashboard`): its record cache, its session
 * guard over `employeeToken` and `userData`, the create/update/delete
 * handlers, and the image gallery of the selected record.
 *
 * Each handler takes the server's response as a parameter and returns the
 * requests it issued, so that "no request" and "what was sent" are visible.
 */
module UserDashboardPage {
  import opened Wrappers
  import opened Calendar
  import opened Records
  import opened Session
  import opened RecordFilter
  import Seqs

  const RecordsPath := "/api/user/records"

  function RecordPath(id: string): string
  {
    RecordsPath + "/" + id
  }

  function ImagesPath(recordId: string): string
  {
    RecordsPath + "/" + recordId + "/images"
  }

  function ImagePath(imageId: string): string
  {
    "/api/user/images/" + imageId
  }

  /**
   * The second comma-separated piece of the data URL: the text between the
   * first comma and the next one (or the end); missing without a comma.
   */
  function UploadPayload(dataUrl: string): (r: Option<string>)
    ensures r.None? <==> ',' !in dataUrl
    ensures r.Some? ==> ',' !in r.value
  {
    Seqs.SplitSingle(dataUrl, ',');
    var parts := Seqs.Split(dataUrl, ',');
    if |parts| >= 2 then Some(parts[1]) else None
  }

  /** For a data URL `header,base64` the payload is exactly the base64 text after the comma. */
  lemma UploadPayloadAfterComma(header: string, data: string)
    requires ',' !in header && ',' !in data
    ensures UploadPayload(header + "," + data) == Some(data)
  {
    Seqs.SplitAfterFirst(header, ',', data);
    Seqs.SplitNoSeparator(data, ',');
  }

  /** The record the employee role sends: the draft, with the assignee forced to the signed-in employee. */
  function AssignToSelf(draft: Record, user: User): (sent: Record)
    ensures sent.biriktirilganXodim == user.name
    ensures sent.(biriktirilganXodim := draft.biriktirilganXodim) == draft
  {
    draft.(biriktirilganXodim := user.name)
  }

  class UserDashboard {
    var tableData: seq<Record>
    var storage: Storage
    var selectedRecord: Option<Record>
    var selectedImages: seq<Image>
    /** The chosen file, as the data URL `FileReader.readAsDataURL` yields for it. */
    var selectedFile: Option<string>
    var uploading: bool

    /** Between handlers no upload is in flight. */
    ghost predicate Valid()
      reads this
    {
      !uploading
    }

    constructor(store: Storage)
      ensures Valid()
      ensures tableData == [] && storage == store && selectedRecord == None
      ensures selectedImages == [] && selectedFile == None && !uploading
    {
      tableData := [];
      storage := store;
      selectedRecord := None;
      selectedImages := [];
      selectedFile := None;
      uploading := false;
    }

    /** `filteredTableData` */
    function View(cfg: FilterConfig, today: Date): (view: seq<Record>)
      reads this
      ensures Seqs.IsSubsequence(view, tableData)
      ensures forall x :: x in view <==> x in tableData && Matches(x, cfg, today)
      ensures forall x :: multiset(view)[x] == if Matches(x, cfg, today) then multiset(tableData)[x] else 0
    {
      FilterIsSubsequence(tableData, cfg, today);
      FilterMembership(tableData, cfg, today);
      FilterMultiset(tableData, cfg, today);
      FilterRecords(tableData, cfg, today)
    }

    /** The summary cards, over the unfiltered cache. */
    function Cards(): (c: Cards)
      reads this
      ensures c.total == |tableData| && c.inProgress + c.completed <= c.total
      ensures forall today: Date :: c.inProgress == |View(StatusOnly(InProgress), today)|
      ensures forall today: Date :: c.completed == |View(StatusOnly(Completed), today)|
      ensures forall cfg: FilterConfig, today: Date :: cfg.status == InProgress ==> |View(cfg, today)| <= c.inProgress
      ensures forall cfg: FilterConfig, today: Date :: cfg.status == Completed ==> |View(cfg, today)| <= c.completed
    {
      CardCounts(tableData)
    }

    /** The `useEffect` that loads the records on activation. */
    method Load(resp: Response<seq<Record>>) returns (req: Option<Request>, outcome: Outcome)
      requires Valid()
      modifies this`tableData, this`storage
      ensures Valid()
      ensures var session := ResolveEmployeeSession(old(storage));
        if session.None? then
          req == None && outcome == RedirectedToLogin(UserLoginPath)
          && tableData == old(tableData) && storage == old(storage)
        else
          req == Some(Request(Get, RecordsPath, Some(BearerHeader(Some(session.value.token))), NoBody))
          && if resp.Rejected() then
               outcome == SessionExpired(UserLoginPath) && tableData == old(tableData)
               && storage == old(storage) - {EmployeeTokenKey, UserDataKey}
             else if resp.Reply? && resp.body.Value? then
               outcome == Succeeded && tableData == resp.body.value && storage == old(storage)
             else
               outcome == Failed && tableData == old(tableData) && storage == old(storage)
    {
      var session := ResolveEmployeeSession(storage);
      if session.None? {
        return None, RedirectedToLogin(UserLoginPath);
      }
      req := Some(Request(Get, RecordsPath, Some(BearerHeader(Some(session.value.token))), NoBody));
      if resp.Rejected() {
        storage := storage - {EmployeeTokenKey};
        storage := storage - {UserDataKey};
        return req, SessionExpired(UserLoginPath);
      }
      if resp.Reply? && resp.body.Value? {
        tableData := resp.body.value;
        outcome := Succeeded;
      } else {
        outcome := Failed;
      }
    }

    /** `handleSubmit`: create a record. */
    method Create(formData: Record, resp: Response<Record>) returns (req: Option<Request>, outcome: Outcome)
      requires Valid()
      modifies this`tableData
      ensures Valid()
      ensures var session := ResolveEmployeeSession(storage);
        if session.None? then
          req == None && outcome == RedirectedToLogin(UserLoginPath) && tableData == old(tableData)
        else
          req == Some(Request(Post, RecordsPath, Some(BearerHeader(Some(session.value.token))),
                              RecordJson(AssignToSelf(formData, session.value.user))))
          && if resp.Ok() && resp.body.Value? then
               outcome == Succeeded && tableData == old(tableData) + [resp.body.value]
             else
               outcome == Failed && tableData == old(tableData)
    {
      var session := ResolveEmployeeSession(storage);
      if session.None? {
        return None, RedirectedToLogin(UserLoginPath);
      }
      var sent := AssignToSelf(formData, session.value.user);
      req := Some(Request(Post, RecordsPath, Some(BearerHeader(Some(session.value.token))), RecordJson(sent)));
      if resp.Ok() && resp.body.Value? {
        tableData := tableData + [resp.body.value];
        outcome := Succeeded;
      } else {
        outcome := Failed;
      }
    }

    /** `handleEditSubmit`: update a record; rows carrying the returned record's id are replaced. */
    method Update(editData: Record, resp: Response<Record>) returns (req: Option<Request>, outcome: Outcome)
      requires Valid()
      modifies this`tableData
      ensures Valid()
      ensures var session := ResolveEmployeeSession(storage);
        if session.None? then
          req == None && outcome == RedirectedToLogin(UserLoginPath) && tableData == old(tableData)
        else
          req == Some(Request(Put, RecordPath(editData.id), Some(BearerHeader(Some(session.value.token))),
                              RecordJson(AssignToSelf(editData, session.value.user))))
          && if resp.Ok() && resp.body.Value? then
               outcome == Succeeded && tableData == ReplaceById(old(tableData), resp.body.value)
             else
               outcome == Failed && tableData == old(tableData)
    {
      var session := ResolveEmployeeSession(storage);
      if session.None? {
        return None, RedirectedToLogin(UserLoginPath);
      }
      var sent := AssignToSelf(editData, session.value.user);
      req := Some(Request(Put, RecordPath(editData.id), Some(BearerHeader(Some(session.value.token))), RecordJson(sent)));
      if resp.Ok() && resp.body.Value? {
        tableData := ReplaceById(tableData, resp.body.value);
        outcome := Succeeded;
      } else {
        outcome := Failed;
      }
    }

    /** `handleShowDeleteModal` / `handleShowImageModal` choose the record the next action is about. */
    method SelectRecord(record: Record)
      modifies this`selectedRecord
      ensures selectedRecord == Some(record)
    {
      selectedRecord := Some(record);
    }

    /**
     * `handleDeleteRecord`: no session check; the header carries whatever
     * `employeeToken` holds. Without a selected record, reading its id throws
     * before any request and the handler reports a failure.
     */
    method DeleteRecord(resp: Response<()>) returns (req: Option<Request>, outcome: Outcome)
      requires Valid()
      modifies this`tableData, this`selectedRecord
      ensures Valid()
      ensures old(selectedRecord).None? ==>
        req == None && outcome == Failed && tableData == old(tableData) && selectedRecord == None
      ensures old(selectedRecord).Some? ==>
        var id := old(selectedRecord).value.id;
        req == Some(Request(Delete, RecordPath(id), Some(BearerHeader(GetItem(storage, EmployeeTokenKey))), NoBody))
        && if resp.Ok() then
             outcome == Succeeded && tableData == RemoveById(old(tableData), id) && selectedRecord == None
           else
             outcome == Failed && tableData == old(tableData) && selectedRecord == old(selectedRecord)
    {
      if selectedRecord.None? {
        return None, Failed;
      }
      var id := selectedRecord.value.id;
      req := Some(Request(Delete, RecordPath(id), Some(BearerHeader(GetItem(storage, EmployeeTokenKey))), NoBody));
      if resp.Ok() {
        tableData := RemoveById(tableData, id);
        selectedRecord := None;
        outcome := Succeeded;
      } else {
        outcome := Failed;
      }
    }

    // ---- the image gallery ----

    /** `fetchImages`: the list is replaced only by an ok response carrying a list. */
    method FetchImages(recordId: string, resp: Response<seq<Image>>) returns (req: Request)
      modifies this`selectedImages
      ensures req == Request(Get, ImagesPath(recordId), Some(BearerHeader(GetItem(storage, EmployeeTokenKey))), NoBody)
      ensures selectedImages == if resp.Ok() && resp.body.Value? then resp.body.value else old(selectedImages)
    {
      req := Request(Get, ImagesPath(recordId), Some(BearerHeader(GetItem(storage, EmployeeTokenKey))), NoBody);
      if resp.Ok() && resp.body.Value? {
        selectedImages := resp.body.value;
      }
    }

    /** `handleShowImageModal`: select the record and list its images. */
    method OpenGallery(record: Record, resp: Response<seq<Image>>) returns (req: Request)
      modifies this`selectedRecord, this`selectedImages
      ensures selectedRecord == Some(record)
      ensures req == Request(Get, ImagesPath(record.id), Some(BearerHeader(GetItem(storage, EmployeeTokenKey))), NoBody)
      ensures selectedImages == if resp.Ok() && resp.body.Value? then resp.body.value else old(selectedImages)
    {
      selectedRecord := Some(record);
      req := FetchImages(record.id, resp);
    }

    /** `handleCloseImageModal` */
    method CloseGallery()
      modifies this`selectedRecord, this`selectedImages, this`selectedFile
      ensures selectedRecord == None && selectedImages == [] && selectedFile == None
    {
      selectedRecord := None;
      selectedImages := [];
      selectedFile := None;
    }

    /** `handleFileSelect`: an empty choice keeps the previous file. */
    method SelectFile(file: Option<string>)
      modifies this`selectedFile
      ensures selectedFile == if file.Some? then file else old(selectedFile)
    {
      if file.Some? {
        selectedFile := file;
      }
    }

    /**
     * `handleImageUpload`: nothing happens without a file and a record;
     * otherwise the text after the data URL's first comma is posted and, on
     * success, the list is fetched again (`listResp` answers that second
     * request). The images are never appended locally, and `uploading` is
     * down again whichever way the upload ends.
     */
    method UploadImage(uploadResp: Response<()>, listResp: Response<seq<Image>>)
      returns (reqs: seq<Request>, outcome: Outcome)
      requires Valid()
      modifies this`uploading, this`selectedImages, this`selectedFile
      ensures Valid()
      ensures old(selectedFile).None? || selectedRecord.None? ==>
        reqs == [] && outcome == Skipped
        && selectedImages == old(selectedImages) && selectedFile == old(selectedFile)
      ensures old(selectedFile).Some? && selectedRecord.Some? ==>
        var bearer := Some(BearerHeader(GetItem(storage, EmployeeTokenKey)));
        var recordId := selectedRecord.value.id;
        var post := Request(Post, ImagesPath(recordId), bearer, ImageJson(UploadPayload(old(selectedFile).value)));
        if uploadResp.Ok() then
          reqs == [post, Request(Get, ImagesPath(recordId), bearer, NoBody)] && outcome == Succeeded
          && selectedImages == (if listResp.Ok() && listResp.body.Value? then listResp.body.value else old(selectedImages))
          && selectedFile == None
        else
          reqs == [post] && outcome == Failed
          && selectedImages == old(selectedImages) && selectedFile == old(selectedFile)
    {
      if selectedFile.None? || selectedRecord.None? {
        return [], Skipped;
      }
      var base64Data := UploadPayload(selectedFile.value);
      var recordId := selectedRecord.value.id;
      uploading := true;
      var post := Request(Post, ImagesPath(recordId), Some(BearerHeader(GetItem(storage, EmployeeTokenKey))), ImageJson(base64Data));
      if uploadResp.Ok() {
        var get := FetchImages(recordId, listResp);
        selectedFile := None;
        reqs, outcome := [post, get], Succeeded;
      } else {
        reqs, outcome := [post], Failed;
      }
      uploading := false;
    }

    /**
     * `handleDeleteImage`: on success the list of the selected record is
     * fetched again; without a selected record that refetch throws and the
     * handler reports a failure.
     */
    method DeleteImage(imageId: string, deleteResp: Response<()>, listResp: Response<seq<Image>>)
      returns (reqs: seq<Request>, outcome: Outcome)
      modifies this`selectedImages
      ensures var bearer := Some(BearerHeader(GetItem(storage, EmployeeTokenKey)));
        var del := Request(Delete, ImagePath(imageId), bearer, NoBody);
        if deleteResp.Ok() && selectedRecord.Some? then
          reqs == [del, Request(Get, ImagesPath(selectedRecord.value.id), bearer, NoBody)] && outcome == Succeeded
          && selectedImages == (if listResp.Ok() && listResp.body.Value? then listResp.body.value else old(selectedImages))
        else
          reqs == [del] && outcome == Failed && selectedImages == old(selectedImages)
    {
      var del := Request(Delete, ImagePath(imageId), Some(BearerHeader(GetItem(storage, EmployeeTokenKey))), NoBody);
      if deleteResp.Ok() && selectedRecord.Some? {
        var get := FetchImages(selectedRecord.value.id, listResp);
        reqs, outcome := [del, get], Succeeded;
      } else {
        reqs, outcome := [del], Failed;
      }
    }
  }

  // ---- properties of the employee role ----

  /** After a session-expired load the dashboard's guard refuses every later create, update and load. */
  lemma ExpiredSessionStaysClosed(store: Storage)
    ensures ResolveEmployeeSession(store - {EmployeeTokenKey, UserDataKey}).None?
  {
  }
}
