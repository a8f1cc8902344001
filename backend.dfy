/** The hosted record store as the service sees it. Every HTTP exchange with it
    is a pure function from what is sent to what comes back, passed to the
    operations as a parameter: the URL, the headers and the bearer token are
    not modelled. */
module Backend {
  import opened Wrappers
  import opened Json

  /** A record as the store returns it: `{ id, fields }`. */
  datatype RawRecord = RawRecord(id: string, fields: Record)

  /** One entry of the `sort` list parameter. */
  datatype SortSpec = SortSpec(field: string, direction: string)

  /** The query parameters of one listing request. `None` stands for a
      parameter left `undefined`, which axios does not send. */
  datatype ListRequest = ListRequest(
    sort: seq<SortSpec>,
    filterByFormula: Option<string>,
    offset: Option<string>)

  /** What a failed call carries: the store's own message
      (`error.response.data.error.message`), when it sent one, and the
      transport-level `error.message`. */
  datatype ApiError = ApiError(apiMessage: Option<string>, message: string)

  /** The answer to a listing request: a page of records and, when more pages
      exist, the continuation token `offset`. */
  datatype ListResponse =
    | ListFailed(error: ApiError)
    | ListPage(records: seq<RawRecord>, offset: Option<string>)

  /** The answer to creating or patching one record. */
  datatype WriteResponse =
    | WriteFailed(error: ApiError)
    | Written(record: RawRecord)

  /** One element of a batched patch: `{ id, fields }`. The id is whatever the
      caller put in the request body. */
  datatype UpdateEntry = UpdateEntry(id: Value, fields: Record)

  /** The answer to a batched patch of up to ten records. */
  datatype PatchResponse =
    | PatchFailed(error: ApiError)
    | Patched(records: seq<RawRecord>)

  /** `{ id: record.id, ...record.fields }`: the record's fields with the store's
      identifier under `id`, unless a field named `id` overrides it. */
  function Flatten(r: RawRecord): (flat: Record)
    ensures flat.Keys == r.fields.Keys + {"id"}
    ensures forall k :: k in r.fields ==> flat[k] == r.fields[k]
    ensures "id" !in r.fields ==> flat["id"] == Str(r.id)
  {
    map["id" := Str(r.id)] + r.fields
  }

  /** A whole page flattened, in the order the store sent it. */
  function FlattenPage(rs: seq<RawRecord>): (page: seq<Record>)
    ensures |page| == |rs|
    ensures forall i :: 0 <= i < |rs| ==> page[i] == Flatten(rs[i])
  {
    seq(|rs|, i requires 0 <= i < |rs| => Flatten(rs[i]))
  }

  /** `error.response?.data?.error?.message || error.message`: the store's
      message when it is a non-empty string, the transport message otherwise. */
  function ErrorMessage(e: ApiError): (m: string)
    ensures e.apiMessage.Some? && e.apiMessage.value != "" ==> m == e.apiMessage.value
    ensures !(e.apiMessage.Some? && e.apiMessage.value != "") ==> m == e.message
  {
    match e.apiMessage
    case Some(msg) => if msg != "" then msg else e.message
    case None => e.message
  }

  /** The result of a single-record write as the service hands it on: the
      flattened record, or an error carrying `ErrorMessage`. */
  function WriteOutcome(resp: WriteResponse): (r: Result<Record, string>)
    ensures r.Success? <==> resp.Written?
    ensures resp.Written? ==> r.value == Flatten(resp.record) && "id" in r.value
    ensures resp.WriteFailed? ==> r.error == ErrorMessage(resp.error)
  {
    match resp
    case Written(rec) => Success(Flatten(rec))
    case WriteFailed(e) => Failure(ErrorMessage(e))
  }
}
