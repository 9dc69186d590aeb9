/**
 * The admin dashboard (`Dashboard`): the same filtered table over its own
 * record cache, a session guard over the unscoped `token` key that runs
 * before every request, and 401/403 handling on all four operations.
 * Unlike the employee dashboard it sends the form and edit data unchanged.
 */
module DashboardPage {
  import opened Wrappers
  import opened Calendar
  import opened Records
  import opened Session
  import opened RecordFilter
  import Seqs

  const RecordsPath := "/api/records"

  function RecordPath(id: string): string
  {
    RecordsPath + "/" + id
  }

  /**
   * How a create or update response changes the cache: 401/403 expire the
   * session, any other non-ok status or a body that is not a record fails,
   * and an ok response carrying a record is applied to the cache.
   */
  datatype Effect = Expire | Fail | Apply(record: Record)

  function Classify(resp: Response<Record>): (e: Effect)
    ensures e == Expire <==> resp.Rejected()
    ensures e.Apply? <==> resp.Ok() && resp.body.Value?
    ensures e.Apply? ==> e.record == resp.body.value
  {
    if resp.Rejected() then Expire
    else if resp.Ok() && resp.body.Value? then Apply(resp.body.value)
    else Fail
  }

  class Dashboard {
    var tableData: seq<Record>
    var storage: Storage
    var selectedRecord: Option<Record>

    constructor(store: Storage)
      ensures tableData == [] && storage == store && selectedRecord == None
    {
      tableData := [];
      storage := store;
      selectedRecord := None;
    }

    /** `filteredTableData` */
    function View(cfg: FilterConfig, today: Date): (view: seq<Record>)
      reads this
      ensures Seqs.IsSubsequence(view, tableData)
      ensures forall x :: x in view <==> x in tableData && Matches(x, cfg, today)
      ensures forall x :: multiset(view)[x] == if Matches(x, cfg, today) then multiset(tableData)[x] else 0
    {
      FilterIsSubsequence(tableData, cfg, today);
      FilterMembership(tableData, cfg, today);
      FilterMultiset(tableData, cfg, today);
      FilterRecords(tableData, cfg, today)
    }

    /** The summary cards, over the unfiltered cache. */
    function Cards(): (c: Cards)
      reads this
      ensures c.total == |tableData| && c.inProgress + c.completed <= c.total
      ensures forall today: Date :: c.inProgress == |View(StatusOnly(InProgress), today)|
      ensures forall today: Date :: c.completed == |View(StatusOnly(Completed), today)|
      ensures forall cfg: FilterConfig, today: Date :: cfg.status == InProgress ==> |View(cfg, today)| <= c.inProgress
      ensures forall cfg: FilterConfig, today: Date :: cfg.status == Completed ==> |View(cfg, today)| <= c.completed
    {
      CardCounts(tableData)
    }

    /** The `useEffect` that loads the records on activation. */
    method Load(resp: Response<seq<Record>>) returns (req: Option<Request>, outcome: Outcome)
      modifies this`tableData, this`storage
      ensures var token := ResolveAdminToken(old(storage));
        if token.None? then
          req == None && outcome == RedirectedToLogin(AdminLoginPath)
          && tableData == old(tableData) && storage == old(storage)
        else
          req == Some(Request(Get, RecordsPath, Some(BearerHeader(token)), NoBody))
          && if resp.Rejected() then
               outcome == SessionExpired(AdminLoginPath) && tableData == old(tableData) && storage == old(storage) - {TokenKey}
             else if resp.Reply? && resp.body.Value? then
               outcome == Succeeded && tableData == resp.body.value && storage == old(storage)
             else
               outcome == Failed && tableData == old(tableData) && storage == old(storage)
    {
      var token := ResolveAdminToken(storage);
      if token.None? {
        return None, RedirectedToLogin(AdminLoginPath);
      }
      req := Some(Request(Get, RecordsPath, Some(BearerHeader(token)), NoBody));
      if resp.Rejected() {
        storage := storage - {TokenKey};
        return req, SessionExpired(AdminLoginPath);
      }
      if resp.Reply? && resp.body.Value? {
        tableData := resp.body.value;
        outcome := Succeeded;
      } else {
        outcome := Failed;
      }
    }

    /** `handleSubmit`: the form data is sent unchanged and the returned record appended. */
    method Create(formData: Record, resp: Response<Record>) returns (req: Option<Request>, outcome: Outcome)
      modifies this`tableData, this`storage
      ensures var token := ResolveAdminToken(old(storage));
        if token.None? then
          req == None && outcome == RedirectedToLogin(AdminLoginPath)
          && tableData == old(tableData) && storage == old(storage)
        else
          req == Some(Request(Post, RecordsPath, Some(BearerHeader(token)), RecordJson(formData)))
          && match Classify(resp)
             case Expire =>
               outcome == SessionExpired(AdminLoginPath) && tableData == old(tableData) && storage == old(storage) - {TokenKey}
             case Fail =>
               outcome == Failed && tableData == old(tableData) && storage == old(storage)
             case Apply(record) =>
               outcome == Succeeded && tableData == old(tableData) + [record] && storage == old(storage)
    {
      var token := ResolveAdminToken(storage);
      if token.None? {
        return None, RedirectedToLogin(AdminLoginPath);
      }
      req := Some(Request(Post, RecordsPath, Some(BearerHeader(token)), RecordJson(formData)));
      match Classify(resp)
      case Expire =>
        storage := storage - {TokenKey};
        outcome := SessionExpired(AdminLoginPath);
      case Fail =>
        outcome := Failed;
      case Apply(record) =>
        tableData := tableData + [record];
        outcome := Succeeded;
    }

    /** `handleEditSubmit`: the edit data is sent unchanged; rows carrying the returned id are replaced. */
    method Update(editData: Record, resp: Response<Record>) returns (req: Option<Request>, outcome: Outcome)
      modifies this`tableData, this`storage
      ensures var token := ResolveAdminToken(old(storage));
        if token.None? then
          req == None && outcome == RedirectedToLogin(AdminLoginPath)
          && tableData == old(tableData) && storage == old(storage)
        else
          req == Some(Request(Put, RecordPath(editData.id), Some(BearerHeader(token)), RecordJson(editData)))
          && match Classify(resp)
             case Expire =>
               outcome == SessionExpired(AdminLoginPath) && tableData == old(tableData) && storage == old(storage) - {TokenKey}
             case Fail =>
               outcome == Failed && tableData == old(tableData) && storage == old(storage)
             case Apply(record) =>
               outcome == Succeeded && tableData == ReplaceById(old(tableData), record) && storage == old(storage)
    {
      var token := ResolveAdminToken(storage);
      if token.None? {
        return None, RedirectedToLogin(AdminLoginPath);
      }
      req := Some(Request(Put, RecordPath(editData.id), Some(BearerHeader(token)), RecordJson(editData)));
      match Classify(resp)
      case Expire =>
        storage := storage - {TokenKey};
        outcome := SessionExpired(AdminLoginPath);
      case Fail =>
        outcome := Failed;
      case Apply(record) =>
        tableData := ReplaceById(tableData, record);
        outcome := Succeeded;
    }

    /** `handleShowDeleteModal` chooses the record to delete. */
    method SelectRecord(record: Record)
      modifies this`selectedRecord
      ensures selectedRecord == Some(record)
    {
      selectedRecord := Some(record);
    }

    /**
     * `handleDeleteRecord`: a no-op without a selected record; otherwise the
     * session guard, then the rows with the selected id go only after an ok
     * response (whose body is not read).
     */
    method DeleteRecord(resp: Response<()>) returns (req: Option<Request>, outcome: Outcome)
      modifies this`tableData, this`storage, this`selectedRecord
      ensures old(selectedRecord).None? ==>
        req == None && outcome == Skipped
        && tableData == old(tableData) && storage == old(storage) && selectedRecord == None
      ensures old(selectedRecord).Some? && ResolveAdminToken(old(storage)).None? ==>
        req == None && outcome == RedirectedToLogin(AdminLoginPath)
        && tableData == old(tableData) && storage == old(storage) && selectedRecord == old(selectedRecord)
      ensures old(selectedRecord).Some? && ResolveAdminToken(old(storage)).Some? ==>
        var id := old(selectedRecord).value.id;
        req == Some(Request(Delete, RecordPath(id), Some(BearerHeader(ResolveAdminToken(old(storage)))), NoBody))
        && if resp.Rejected() then
             outcome == SessionExpired(AdminLoginPath) && tableData == old(tableData)
             && storage == old(storage) - {TokenKey} && selectedRecord == old(selectedRecord)
           else if resp.Ok() then
             outcome == Succeeded && tableData == RemoveById(old(tableData), id)
             && storage == old(storage) && selectedRecord == None
           else
             outcome == Failed && tableData == old(tableData)
             && storage == old(storage) && selectedRecord == old(selectedRecord)
    {
      if selectedRecord.None? {
        return None, Skipped;
      }
      var token := ResolveAdminToken(storage);
      if token.None? {
        return None, RedirectedToLogin(AdminLoginPath);
      }
      var id := selectedRecord.value.id;
      req := Some(Request(Delete, RecordPath(id), Some(BearerHeader(token)), NoBody));
      if resp.Rejected() {
        storage := storage - {TokenKey};
        outcome := SessionExpired(AdminLoginPath);
      } else if resp.Ok() {
        tableData := RemoveById(tableData, id);
        selectedRecord := None;
        outcome := Succeeded;
      } else {
        outcome := Failed;
      }
    }
  }
}
