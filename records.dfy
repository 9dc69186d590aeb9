/**
 * The entities the dashboards exchange with the backend, the abstract
 * requests and responses that stand for `fetch`, and the two cache
 * operations the handlers apply to `tableData` after a successful response:
 * every row carrying the returned record's id is replaced by it, and every
 * row carrying the deleted id is dropped.
 */
module Records {
  import opened Wrappers
  import Seqs

  /**
   * A citizen request. `id`, `status` and `createdAt` are assigned by the
   * server; a draft typed into the create form carries them empty. A record
   * without a `status` has `None`; a missing `createdAt` is the empty string,
   * which the source treats exactly like an absent one (both are falsy).
   */
  datatype Record = Record(
    id: string,
    mahallaNomi: string,
    ismFamilya: string,
    pasportSeriyasi: string,
    telefonRaqam: string,
    tugilganSanasi: string,
    malumotMutahassislik: string,
    qiziqishlari: string,
    biriktirilganXodim: string,
    amalgaOshirganIshi: string,
    status: Option<string>,
    createdAt: string)

  /** An image attached to a record; `imageData` is base64 text. */
  datatype Image = Image(id: string, imageData: string)

  /**
   * What `response.json()` yields: a value of the expected shape, an object
   * that only carries an `error` message (the empty string when it has none),
   * or a body that is not JSON at all (the promise rejects).
   */
  datatype Body<T> = Value(value: T) | ErrorJson(error: string) | NotJson

  /** The result of a `fetch`: an HTTP reply, or a transport failure (the promise rejects). */
  datatype Response<T> = Reply(status: int, body: Body<T>) | NetworkError
  {
    /** An ok reply: a status from 200 to 299. */
    predicate Ok()
    {
      Reply? && 200 <= status <= 299
    }

    /** The statuses the dashboards read as an ended session: 401 and 403. */
    predicate Rejected()
      ensures Rejected() ==> !Ok()
    {
      Reply? && (status == 401 || status == 403)
    }
  }

  datatype Verb = Get | Post | Put | Delete

  datatype RequestBody =
    | NoBody
    | RecordJson(record: Record)
    /** `{ imageData: base64Data }`; `None` when `base64Data` is undefined and the key is dropped. */
    | ImageJson(imageData: Option<string>)
    | CredentialsJson(fields: map<string, string>)

  /** A request as the handler issues it; `authorization` is the header value, if any. */
  datatype Request = Request(verb: Verb, path: string, authorization: Option<string>, body: RequestBody)

  /** How a handler ended. */
  datatype Outcome =
    | Skipped            // returned before issuing any request
    | RedirectedToLogin(page: string)  // the session guard found no session and navigated to `page`
    | SessionExpired(page: string)     // the server answered 401/403: session keys removed, navigated to `page`
    | Failed             // any other failure: reported with a toast, state untouched
    | Succeeded

  /** Every row whose id equals the updated record's id is replaced by it. */
  function ReplaceById(rows: seq<Record>, updated: Record): (r: seq<Record>)
    ensures |r| == |rows|
    ensures forall i :: 0 <= i < |rows| ==> r[i] == if rows[i].id == updated.id then updated else rows[i]
    decreases |rows|
  {
    if rows == [] then []
    else [if rows[0].id == updated.id then updated else rows[0]] + ReplaceById(rows[1..], updated)
  }

  /** Every row with the given id is dropped; the others keep their order. */
  function RemoveById(rows: seq<Record>, id: string): (r: seq<Record>)
    ensures forall x :: x in r <==> x in rows && x.id != id
    ensures forall x :: multiset(r)[x] == if x.id != id then multiset(rows)[x] else 0
    decreases |rows|
  {
    if rows == [] then []
    else
      assert rows == [rows[0]] + rows[1..];
      if rows[0].id == id then RemoveById(rows[1..], id)
    else [rows[0]] + RemoveById(rows[1..], id)
  }

  lemma {:induction false} RemoveByIdIsSubsequence(rows: seq<Record>, id: string)
    ensures Seqs.IsSubsequence(RemoveById(rows, id), rows)
    decreases |rows|
  {
    if rows != [] {
      RemoveByIdIsSubsequence(rows[1..], id);
      assert [rows[0]] + rows[1..] == rows;
      if rows[0].id == id {
        Seqs.SubsequenceSkip(rows[0], RemoveById(rows[1..], id), rows[1..]);
      } else {
        Seqs.SubsequenceCons(rows[0], RemoveById(rows[1..], id), rows[1..]);
      }
    }
  }

  /** Deleting an id that no row carries leaves the rows as they were. */
  lemma {:induction false} RemoveAbsentId(rows: seq<Record>, id: string)
    requires forall i :: 0 <= i < |rows| ==> rows[i].id != id
    ensures RemoveById(rows, id) == rows
    decreases |rows|
  {
    if rows != [] {
      RemoveAbsentId(rows[1..], id);
      assert [rows[0]] + rows[1..] == rows;
    }
  }

  /** Replacing by an id that no row carries leaves the rows as they were, so nothing is inserted. */
  lemma ReplaceAbsentId(rows: seq<Record>, updated: Record)
    requires forall i :: 0 <= i < |rows| ==> rows[i].id != updated.id
    ensures ReplaceById(rows, updated) == rows
  {
  }
}
