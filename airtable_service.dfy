/** The service layer: pagination over the store's listing endpoint, the field
    shaping of create and update, the derived user and company views, the
    batched bulk reassignment and the inputs to the fuzzy searches. */
module AirtableService {
  import opened Wrappers
  import opened Json
  import opened Sequences
  import opened Backend

  // ---------------------------------------------------------------------------
  // Record identifiers
  // ---------------------------------------------------------------------------

  /** The characters a generated identifier draws from: the upper-case letters
      "A" to "Z" followed by the lower-case letters "a" to "z", 52 in all (no
      digits), in the order of the source's literal. */
  const Alphabet: string := LetterRange('A') + LetterRange('a')

  /** The 26 consecutive ASCII characters starting at `first`: "ABC...Z" for
      'A', "abc...z" for 'a'. */
  function LetterRange(first: char): (r: string)
    requires first as int + 26 <= 0x7F
    ensures |r| == 26
    ensures forall i :: 0 <= i < 26 ==> r[i] as int == first as int + i
  {
    seq(26, i requires 0 <= i < 26 => (first as int + i) as char)
  }

  /** The fixed prefix of a generated identifier. */
  const RecordIdPrefix := "rec"

  /** How many random characters follow the prefix. */
  const RecordIdLetters := 14

  predicate IsAsciiLetter(c: char)
  {
    'A' <= c <= 'Z' || 'a' <= c <= 'z'
  }

  /** The shape of every generated identifier: "rec" and fourteen ASCII letters. */
  predicate IsRecordId(s: string)
  {
    && |s| == |RecordIdPrefix| + RecordIdLetters
    && s[..|RecordIdPrefix|] == RecordIdPrefix
    && forall i :: |RecordIdPrefix| <= i < |s| ==> IsAsciiLetter(s[i])
  }

  /** A value `Math.random()` may return. */
  predicate IsRandomDraw(d: real)
  {
    0.0 <= d < 1.0
  }

  /** `Math.floor(d * characters.length)`: the index a draw selects. The
      product is taken exactly over the reals; JavaScript first rounds it to
      a double, which for a few draws just below a multiple of 1/52 gives the
      next index. */
  function DrawIndex(d: real): (k: nat)
    requires IsRandomDraw(d)
    ensures k < |Alphabet|
    ensures k as real <= d * |Alphabet| as real < k as real + 1.0
  {
    (d * |Alphabet| as real).Floor
  }

  /** The alphabet is exactly the 52 ASCII letters: every character in it is a
      letter, and every letter occurs in it. */
  lemma AlphabetIsAsciiLetters(c: char)
    ensures c in Alphabet ==> IsAsciiLetter(c)
    ensures IsAsciiLetter(c) ==> c in Alphabet
  {
    if 'A' <= c <= 'Z' {
      assert Alphabet[c as int - 'A' as int] == c;
    } else if 'a' <= c <= 'z' {
      assert Alphabet[26 + c as int - 'a' as int] == c;
    }
  }

  /** Every letter is selected by some draw, so every well-formed identifier
      can be generated. */
  lemma EveryLetterIsDrawn(c: char)
    requires IsAsciiLetter(c)
    ensures exists d :: IsRandomDraw(d) && Alphabet[DrawIndex(d)] == c
  {
    AlphabetIsAsciiLetters(c);
    var k :| 0 <= k < |Alphabet| && Alphabet[k] == c;
    var d := k as real / |Alphabet| as real;
    assert d * |Alphabet| as real == k as real;
    assert DrawIndex(d) == k;
  }

  /** `generateRecordId`: "rec" followed by one alphabet character per random
      draw. The fourteen `Math.random()` results are the parameter `draws`. */
  method GenerateRecordId(draws: seq<real>) returns (id: string)
    requires |draws| == RecordIdLetters
    requires forall i :: 0 <= i < |draws| ==> IsRandomDraw(draws[i])
    ensures IsRecordId(id)
    ensures forall i :: 0 <= i < RecordIdLetters ==>
      id[|RecordIdPrefix| + i] == Alphabet[DrawIndex(draws[i])]
  {
    id := RecordIdPrefix;
    for i := 0 to RecordIdLetters
      invariant |id| == |RecordIdPrefix| + i
      invariant id[..|RecordIdPrefix|] == RecordIdPrefix
      invariant forall j :: 0 <= j < i ==>
        id[|RecordIdPrefix| + j] == Alphabet[DrawIndex(draws[j])]
    {
      id := id + [Alphabet[DrawIndex(draws[i])]];
    }
    forall i | |RecordIdPrefix| <= i < |id|
      ensures IsAsciiLetter(id[i])
    {
      var j := i - |RecordIdPrefix|;
      assert id[|RecordIdPrefix| + j] == Alphabet[DrawIndex(draws[j])];
      AlphabetIsAsciiLetters(id[i]);
    }
  }

  // ---------------------------------------------------------------------------
  // Pagination: getRecords
  // ---------------------------------------------------------------------------

  /** The store's listing endpoint: one page for each request. */
  type Lister = ListRequest -> ListResponse

  /** Every paginated listing sorts by `updated_at`, newest first. */
  const NewestFirst := [SortSpec("updated_at", "desc")]

  /** The message every failed listing is reported with. */
  const FetchFailed := "Failed to fetch records"

  /** The `filterByFormula` parameter: sent only when `assignedTo` is truthy. */
  function FilterFormula(assignedTo: Option<string>): (f: Option<string>)
    ensures f.Some? <==> assignedTo.Some? && assignedTo.value != ""
    ensures f.Some? ==> f.value == "AND({assigned_to} = '" + assignedTo.value + "')"
  {
    match assignedTo
    case Some(who) =>
      if who != "" then Some("AND({assigned_to} = '" + who + "')") else None
    case None => None
  }

  /** `if (offset)`: a continuation token counts only when it is a non-empty
      string. */
  predicate IsToken(offset: Option<string>)
    ensures IsToken(offset) <==> offset.Some? && Truthy(Str(offset.value))
  {
    offset.Some? && offset.value != ""
  }

  /** The request for one page. The offset parameter is sent only when the
      previous response's token is truthy. */
  function PageRequest(formula: Option<string>, offset: Option<string>): (r: ListRequest)
    ensures r.sort == NewestFirst && r.filterByFormula == formula
    ensures r.offset.Some? <==> IsToken(offset)
    ensures r.offset.Some? ==> r.offset == offset
  {
    ListRequest(NewestFirst, formula, if IsToken(offset) then offset else None)
  }

  /** What the loop does after a response: it asks for the next page exactly
      when the response is a page that carries a token. */
  function NextRequest(formula: Option<string>, response: ListResponse): (next: Option<ListRequest>)
    ensures next.Some? <==> response.ListPage? && IsToken(response.offset)
    ensures next.Some? ==> next.value.offset == response.offset
  {
    if response.ListPage? && IsToken(response.offset)
    then Some(PageRequest(formula, response.offset))
    else None
  }

  /** The pages that start at `offset` come to an end (a failure or a page
      without a token) within `n` further requests. */
  ghost predicate EndsWithin(list: Lister, formula: Option<string>, offset: Option<string>, n: nat)
    decreases n
  {
    var response := list(PageRequest(formula, offset));
    NextRequest(formula, response).None? ||
    (n > 0 && EndsWithin(list, formula, response.offset, n - 1))
  }

  /** The store does not hand out continuation tokens forever. Without this the
      `do ... while (offset)` loop never returns. */
  ghost predicate PagesEnd(list: Lister, formula: Option<string>)
  {
    exists n: nat :: EndsWithin(list, formula, None, n)
  }

  /** The requests the loop issues, in order: the first carries no offset,
      every later one carries the token of the response before it, and the
      last response is a failure or a page without a token. */
  ghost predicate IsPageTrace(list: Lister, formula: Option<string>, requests: seq<ListRequest>)
  {
    && |requests| > 0
    && requests[0] == PageRequest(formula, None)
    && (forall i :: 0 <= i < |requests| - 1 ==> NextRequest(formula, list(requests[i])) == Some(requests[i + 1]))
    && NextRequest(formula, list(requests[|requests| - 1])).None?
  }

  /** The flattened records of the pages answered to `requests`, in fetch order. */
  function RecordsOf(list: Lister, requests: seq<ListRequest>): (records: seq<Record>)
  {
    if requests == [] then []
    else
      RecordsOf(list, requests[..|requests| - 1]) +
      match list(requests[|requests| - 1])
      case ListPage(rs, _) => FlattenPage(rs)
      case ListFailed(_) => []
  }

  /** What a finished trace yields: all records when its last response is a
      page, the fixed failure message when it is a failure. */
  function TraceOutcome(list: Lister, requests: seq<ListRequest>): (r: Result<seq<Record>, string>)
    requires |requests| > 0
    ensures r.Success? <==> list(requests[|requests| - 1]).ListPage?
    ensures r.Success? ==> r.value == RecordsOf(list, requests)
    ensures r.Failure? ==> r.error == FetchFailed
  {
    if list(requests[|requests| - 1]).ListPage?
    then Success(RecordsOf(list, requests))
    else Failure(FetchFailed)
  }

  /** A trace fails exactly when one of its pages fails: the records of the
      pages fetched before it are then discarded. */
  lemma TraceFailsIffSomePageFails(list: Lister, formula: Option<string>, requests: seq<ListRequest>)
    requires IsPageTrace(list, formula, requests)
    ensures TraceOutcome(list, requests).Failure? <==>
      exists i :: 0 <= i < |requests| && list(requests[i]).ListFailed?
  {
    PageTraceRequests(list, formula, requests);
  }

  /** `getRecords(filters)`: fetch pages while the previous response carried a
      token, appending each page's flattened records; any failed page discards
      what was gathered and reports "Failed to fetch records". Returns the
      requests issued as well as the outcome. */
  method GetRecords(list: Lister, assignedTo: Option<string>)
    returns (requests: seq<ListRequest>, result: Result<seq<Record>, string>)
    requires PagesEnd(list, FilterFormula(assignedTo))
    ensures IsPageTrace(list, FilterFormula(assignedTo), requests)
    ensures result == TraceOutcome(list, requests)
  {
    var formula := FilterFormula(assignedTo);
    var allRecords: seq<Record> := [];
    var offset: Option<string> := None;
    requests := [];
    ghost var fuel: nat :| EndsWithin(list, formula, None, fuel);
    var more := true;
    while more
      invariant requests == [] ==> more && offset == None
      invariant requests != [] ==> requests[0] == PageRequest(formula, None)
      invariant forall i :: 0 <= i < |requests| - 1 ==>
        NextRequest(formula, list(requests[i])) == Some(requests[i + 1])
      invariant requests != [] ==>
        && list(requests[|requests| - 1]).ListPage?
        && offset == list(requests[|requests| - 1]).offset
        && (more <==> IsToken(offset))
      invariant more ==> EndsWithin(list, formula, offset, fuel)
      invariant allRecords == RecordsOf(list, requests)
      decreases fuel, if more then 1 else 0
    {
      var request := PageRequest(formula, offset);
      var response := list(request);
      assert requests != [] ==>
        NextRequest(formula, list(requests[|requests| - 1])) == Some(request);
      requests := requests + [request];
      if response.ListFailed? {
        return requests, Failure(FetchFailed);
      }
      allRecords := allRecords + FlattenPage(response.records);
      offset := response.offset;
      more := IsToken(offset);
      if more {
        fuel := fuel - 1;
      }
    }
    result := Success(allRecords);
  }

  /** Every request of a trace asks for the same sort and filter; the first
      carries no offset; each later one carries a non-empty token and follows
      a page (never a failure). */
  lemma PageTraceRequests(list: Lister, formula: Option<string>, requests: seq<ListRequest>)
    requires IsPageTrace(list, formula, requests)
    ensures requests[0].offset == None
    ensures forall i :: 0 <= i < |requests| ==>
      requests[i].sort == NewestFirst && requests[i].filterByFormula == formula
    ensures forall i :: 0 < i < |requests| ==> IsToken(requests[i].offset)
    ensures forall i :: 0 <= i < |requests| - 1 ==> list(requests[i]).ListPage?
  {
    forall i | 0 < i < |requests|
      ensures IsToken(requests[i].offset)
      ensures requests[i].sort == NewestFirst && requests[i].filterByFormula == formula
    {
      var j := i - 1;
      assert NextRequest(formula, list(requests[j])) == Some(requests[j + 1]);
    }
    forall i | 0 <= i < |requests| - 1
      ensures list(requests[i]).ListPage?
    {
      assert NextRequest(formula, list(requests[i])) == Some(requests[i + 1]);
    }
  }

  /** In a trace, a response ends the loop exactly when it is the last one. */
  lemma PageTraceLast(list: Lister, formula: Option<string>, requests: seq<ListRequest>, i: nat)
    requires IsPageTrace(list, formula, requests) && i < |requests|
    ensures NextRequest(formula, list(requests[i])).None? <==> i == |requests| - 1
  {
    if i < |requests| - 1 {
      assert NextRequest(formula, list(requests[i])) == Some(requests[i + 1]);
    }
  }

  /** Two traces of the same store and filter agree up to the shorter length. */
  lemma {:induction false} PageTracesAgree(list: Lister, formula: Option<string>,
                                           r1: seq<ListRequest>, r2: seq<ListRequest>, i: nat)
    requires IsPageTrace(list, formula, r1) && IsPageTrace(list, formula, r2)
    requires i < |r1| && i < |r2|
    ensures r1[i] == r2[i]
  {
    if i > 0 {
      PageTracesAgree(list, formula, r1, r2, i - 1);
      assert NextRequest(formula, list(r1[i - 1])) == Some(r1[i]);
      assert NextRequest(formula, list(r2[i - 1])) == Some(r2[i]);
    }
  }

  /** The loop neither stops early nor runs on: for a given store and filter
      there is exactly one trace. */
  lemma PageTraceUnique(list: Lister, formula: Option<string>, r1: seq<ListRequest>, r2: seq<ListRequest>)
    requires IsPageTrace(list, formula, r1) && IsPageTrace(list, formula, r2)
    ensures r1 == r2
  {
    var n := if |r1| < |r2| then |r1| else |r2|;
    forall i | 0 <= i < n
      ensures r1[i] == r2[i]
    {
      PageTracesAgree(list, formula, r1, r2, i);
    }
    PageTraceLast(list, formula, r1, n - 1);
    PageTraceLast(list, formula, r2, n - 1);
  }

  /** A trace that repeats a request at positions `i < j` repeats it again
      `k` steps later: the store answers the same request the same way. */
  lemma {:induction false} PageTraceShift(list: Lister, formula: Option<string>, requests: seq<ListRequest>,
                                          i: nat, j: nat, k: nat)
    requires IsPageTrace(list, formula, requests)
    requires i < j && j + k < |requests| && requests[i] == requests[j]
    ensures requests[i + k] == requests[j + k]
  {
    if k > 0 {
      PageTraceShift(list, formula, requests, i, j, k - 1);
      assert NextRequest(formula, list(requests[i + k - 1])) == Some(requests[i + k]);
      assert NextRequest(formula, list(requests[j + k - 1])) == Some(requests[j + k]);
    }
  }

  /** No page is requested twice: a repeated request would make the rest of
      the trace repeat without end, so a finished trace has none. */
  lemma PageTraceDistinct(list: Lister, formula: Option<string>, requests: seq<ListRequest>)
    requires IsPageTrace(list, formula, requests)
    ensures forall i, j :: 0 <= i < j < |requests| ==> requests[i] != requests[j]
  {
    forall i, j | 0 <= i < j < |requests|
      ensures requests[i] != requests[j]
    {
      if requests[i] == requests[j] {
        var k := |requests| - 1 - j;
        PageTraceShift(list, formula, requests, i, j, k);
        PageTraceLast(list, formula, requests, i + k);
        PageTraceLast(list, formula, requests, j + k);
        assert false;
      }
    }
  }

  /** Fetching the requests `a` and then `b` gathers the records of `a`
      followed by those of `b`: pages are concatenated in fetch order. */
  lemma {:induction false} RecordsOfAppend(list: Lister, a: seq<ListRequest>, b: seq<ListRequest>)
    ensures RecordsOf(list, a + b) == RecordsOf(list, a) + RecordsOf(list, b)
    decreases |b|
  {
    if b != [] {
      var b' := b[..|b| - 1];
      assert (a + b)[..|a + b| - 1] == a + b';
      assert (a + b)[|a + b| - 1] == b[|b| - 1];
      RecordsOfAppend(list, a, b');
    } else {
      assert a + b == a;
    }
  }

  /** Every record handed to a caller carries an `id` field. */
  lemma {:induction false} RecordsOfHaveIds(list: Lister, requests: seq<ListRequest>)
    ensures forall k :: 0 <= k < |RecordsOf(list, requests)| ==> "id" in RecordsOf(list, requests)[k]
    decreases |requests|
  {
    if requests != [] {
      var prefix := requests[..|requests| - 1];
      RecordsOfHaveIds(list, prefix);
    }
  }

  // ---------------------------------------------------------------------------
  // Single-record writes: createRecord, updateRecord, deleteRecord
  // ---------------------------------------------------------------------------

  /** The fields the service sets itself on a new record. */
  const StampedKeys := {"record_id", "created_at", "updated_at"}

  /** The fields `createRecord` submits: the caller's data, then `record_id`,
      `created_at` and `updated_at`, which override any caller-supplied
      values. */
  function CreateFields(data: Record, recordId: string, now: string): (fields: Record)
    ensures fields.Keys == data.Keys + StampedKeys
    ensures fields["record_id"] == Str(recordId)
    ensures fields["created_at"] == fields["updated_at"] == Str(now)
    ensures forall k :: k in data && k !in StampedKeys ==> fields[k] == data[k]
  {
    data + map["record_id" := Str(recordId), "created_at" := Str(now), "updated_at" := Str(now)]
  }

  /** `createRecord(data)`: one timestamp `now` for both `created_at` and
      `updated_at`, a freshly generated `record_id`, one call to the store. */
  method CreateRecord(create: Record -> WriteResponse, data: Record, draws: seq<real>, now: string)
    returns (sent: Record, result: Result<Record, string>)
    requires |draws| == RecordIdLetters
    requires forall i :: 0 <= i < |draws| ==> IsRandomDraw(draws[i])
    ensures "record_id" in sent && sent["record_id"].Str? && IsRecordId(sent["record_id"].s)
    ensures sent == CreateFields(data, sent["record_id"].s, now)
    ensures result == WriteOutcome(create(sent))
  {
    var recordId := GenerateRecordId(draws);
    sent := CreateFields(data, recordId, now);
    result := WriteOutcome(create(sent));
  }

  /** The keys `updateRecord` refuses to forward. */
  const ProtectedKeys := {"id", "created_at"}

  /** The fields `updateRecord` submits: the caller's data without `id` and
      `created_at`, with a fresh `updated_at` overriding the caller's. */
  function UpdateFields(data: Record, now: string): (fields: Record)
    ensures "id" !in fields && "created_at" !in fields
    ensures fields.Keys == data.Keys - ProtectedKeys + {"updated_at"}
    ensures fields["updated_at"] == Str(now)
    ensures forall k :: k in data && k !in ProtectedKeys && k != "updated_at" ==> fields[k] == data[k]
  {
    (data - ProtectedKeys) + map["updated_at" := Str(now)]
  }

  /** The store merges a patch into the stored fields. Whatever `id` or
      `created_at` the caller sends, the stored `created_at` survives an
      update unchanged. */
  lemma UpdateKeepsCreatedAt(stored: Record, data: Record, now: string)
    ensures var after := stored + UpdateFields(data, now);
      && ("created_at" in after <==> "created_at" in stored)
      && ("created_at" in stored ==> after["created_at"] == stored["created_at"])
      && after["updated_at"] == Str(now)
  {
  }

  /** `updateRecord(id, data)`: one patch of the shaped fields; the flattened
      record the store returns, or its error message. */
  function UpdateRecord(patch: (string, Record) -> WriteResponse, id: string, data: Record, now: string)
    : (result: Result<Record, string>)
    ensures result.Success? <==> patch(id, UpdateFields(data, now)).Written?
    ensures result.Success? ==> result.value == Flatten(patch(id, UpdateFields(data, now)).record)
    ensures result.Failure? ==> result.error == ErrorMessage(patch(id, UpdateFields(data, now)).error)
  {
    WriteOutcome(patch(id, UpdateFields(data, now)))
  }

  /** The confirmation `deleteRecord` returns. */
  const DeletedMessage := "Record deleted successfully"

  /** `deleteRecord(id)`: the store either accepts the deletion or fails (for
      instance because the id does not exist), and the failure is reported,
      never turned into a success. */
  function DeleteRecord(remove: string -> Option<ApiError>, id: string): (result: Result<string, string>)
    ensures result.Success? <==> remove(id).None?
    ensures result.Success? ==> result.value == DeletedMessage
    ensures result.Failure? ==> result.error == ErrorMessage(remove(id).value)
  {
    match remove(id)
    case None => Success(DeletedMessage)
    case Some(e) => Failure(ErrorMessage(e))
  }

  // ---------------------------------------------------------------------------
  // Derived views: getUsers, getCompanyNameAndId
  // ---------------------------------------------------------------------------

  /** What one record adds to the user set: its truthy `created_by`, then its
      truthy `updated_by`. */
  function AuthorsOf(r: Record): (vs: seq<Value>)
    ensures forall v :: v in vs <==>
      (FieldTruthy(r, "created_by") && v == r["created_by"]) ||
      (FieldTruthy(r, "updated_by") && v == r["updated_by"])
  {
    (if FieldTruthy(r, "created_by") then [r["created_by"]] else []) +
    (if FieldTruthy(r, "updated_by") then [r["updated_by"]] else [])
  }

  /** Every value offered to the user set, in the order `forEach` offers them. */
  function Authors(records: seq<Record>): (vs: seq<Value>)
  {
    if records == [] then []
    else Authors(records[..|records| - 1]) + AuthorsOf(records[|records| - 1])
  }

  /** Every value offered to the user set comes from some record's
      `created_by` or `updated_by`. */
  lemma {:induction false} AuthorsSound(records: seq<Record>, v: Value)
    requires v in Authors(records)
    ensures exists i :: 0 <= i < |records| && v in AuthorsOf(records[i])
    decreases |records|
  {
    var n := |records| - 1;
    var prefix := records[..n];
    if v in Authors(prefix) {
      AuthorsSound(prefix, v);
      var i :| 0 <= i < |prefix| && v in AuthorsOf(prefix[i]);
      assert records[i] == prefix[i];
    } else {
      assert v in AuthorsOf(records[n]);
    }
  }

  /** Every truthy `created_by` or `updated_by` of every record is offered to
      the user set. */
  lemma {:induction false} AuthorsComplete(records: seq<Record>, v: Value, i: nat)
    requires i < |records| && v in AuthorsOf(records[i])
    ensures v in Authors(records)
    decreases |records|
  {
    var n := |records| - 1;
    var prefix := records[..n];
    assert Authors(records) == Authors(prefix) + AuthorsOf(records[n]);
    if i < n {
      assert records[i] == prefix[i];
      AuthorsComplete(prefix, v, i);
    }
  }

  /** A value is offered to the user set exactly when some record holds it,
      truthy, in `created_by` or `updated_by`. */
  lemma AuthorsExactly(records: seq<Record>, v: Value)
    ensures v in Authors(records) <==> exists i :: 0 <= i < |records| && v in AuthorsOf(records[i])
  {
    if v in Authors(records) {
      AuthorsSound(records, v);
    }
    if exists i :: 0 <= i < |records| && v in AuthorsOf(records[i]) {
      var i :| 0 <= i < |records| && v in AuthorsOf(records[i]);
      AuthorsComplete(records, v, i);
    }
  }

  /** The users of the records: each truthy `created_by` or `updated_by` value
      once, in the order first seen (`Array.from` of the `Set`). */
  function Users(records: seq<Record>): (users: seq<Value>)
    ensures Distinct(users)
    ensures forall v :: v in users <==> exists i :: 0 <= i < |records| && v in AuthorsOf(records[i])
  {
    var users := Dedup(Authors(records));
    forall v
      ensures v in users <==> exists i :: 0 <= i < |records| && v in AuthorsOf(records[i])
    {
      AuthorsExactly(records, v);
    }
    users
  }

  /** The users are listed in the order they were first offered: record by
      record, and within a record `created_by` before `updated_by`. */
  lemma UsersFirstSeenOrder(records: seq<Record>, i: nat, j: nat)
    requires i < j < |Users(records)|
    ensures Users(records)[i] in Authors(records) && Users(records)[j] in Authors(records)
    ensures FirstIndex(Authors(records), Users(records)[i]) < FirstIndex(Authors(records), Users(records)[j])
  {
    DedupKeepsFirstSeenOrder(Authors(records), i, j);
  }

  /** The `forEach` over the records that fills the user `Set`. */
  method CollectUsers(records: seq<Record>) returns (users: seq<Value>)
    ensures users == Users(records)
  {
    users := [];
    for i := 0 to |records|
      invariant users == Dedup(Authors(records[..i]))
    {
      var record := records[i];
      ghost var before := Authors(records[..i]);
      assert records[..i + 1][..i] == records[..i];
      assert Authors(records[..i + 1]) == before + AuthorsOf(record);
      ghost var seen := before;
      if FieldTruthy(record, "created_by") {
        DedupSnoc(seen, record["created_by"]);
        users := SetAdd(users, record["created_by"]);
        seen := seen + [record["created_by"]];
      }
      if FieldTruthy(record, "updated_by") {
        DedupSnoc(seen, record["updated_by"]);
        users := SetAdd(users, record["updated_by"]);
        seen := seen + [record["updated_by"]];
      }
      assert seen == before + AuthorsOf(record);
    }
    assert records[..|records|] == records;
  }

  /** The message `getUsers` reports any failure with. */
  const UsersFailed := "Failed to fetch users"

  /** `getUsers()`: every record (all pages, unfiltered), reduced to its users. */
  method GetUsers(list: Lister) returns (requests: seq<ListRequest>, result: Result<seq<Value>, string>)
    requires PagesEnd(list, None)
    ensures IsPageTrace(list, None, requests)
    ensures result.Success? <==> TraceOutcome(list, requests).Success?
    ensures result.Success? ==> result.value == Users(RecordsOf(list, requests))
    ensures result.Failure? ==> result.error == UsersFailed
  {
    var fetched;
    requests, fetched := GetRecords(list, None);
    if fetched.Failure? {
      return requests, Failure(UsersFailed);
    }
    var users := CollectUsers(fetched.value);
    result := Success(users);
  }

  /** One `{ company_id, company_name }` element of the companies view. */
  datatype CompanyPair = CompanyPair(companyId: Value, companyName: Value)

  /** A record takes part in the companies view when both its `company_id` and
      its `company_name` are truthy. */
  predicate NamesCompany(fields: Record)
  {
    FieldTruthy(fields, "company_id") && FieldTruthy(fields, "company_name")
  }

  /** The `company_id` of every taking-part record, in record order. */
  function CompanyIds(rs: seq<Record>): (ids: seq<Value>)
    ensures forall x :: x in ids <==>
      exists i :: 0 <= i < |rs| && NamesCompany(rs[i]) && rs[i]["company_id"] == x
  {
    if rs == [] then []
    else
      var n := |rs| - 1;
      var ids := CompanyIds(rs[..n]) + if NamesCompany(rs[n]) then [rs[n]["company_id"]] else [];
      assert forall i :: 0 <= i < n ==> rs[..n][i] == rs[i];
      ids
  }

  /** The position of the first taking-part record with company `id`. */
  function FirstNaming(rs: seq<Record>, id: Value): (i: nat)
    requires id in CompanyIds(rs)
    ensures i < |rs| && NamesCompany(rs[i]) && rs[i]["company_id"] == id
    ensures forall j :: 0 <= j < i ==> !(NamesCompany(rs[j]) && rs[j]["company_id"] == id)
  {
    var n := |rs| - 1;
    assert forall i :: 0 <= i < n ==> rs[..n][i] == rs[i];
    if id in CompanyIds(rs[..n]) then FirstNaming(rs[..n], id) else n
  }

  /** The companies view: one pair per distinct `company_id` among the
      taking-part records, in first-seen order, each named after the first
      record that has that id. */
  function Companies(rs: seq<Record>): (pairs: seq<CompanyPair>)
    ensures forall k :: 0 <= k < |pairs| ==>
      pairs[k].companyId in CompanyIds(rs) &&
      pairs[k].companyName == rs[FirstNaming(rs, pairs[k].companyId)]["company_name"]
    ensures forall k, l :: 0 <= k < l < |pairs| ==> pairs[k].companyId != pairs[l].companyId
    ensures forall x :: x in CompanyIds(rs) ==> exists k :: 0 <= k < |pairs| && pairs[k].companyId == x
  {
    var ids := Dedup(CompanyIds(rs));
    var pairs := seq(|ids|, k requires 0 <= k < |ids| => CompanyPair(ids[k], rs[FirstNaming(rs, ids[k])]["company_name"]));
    forall x | x in CompanyIds(rs)
      ensures exists k :: 0 <= k < |pairs| && pairs[k].companyId == x
    {
      var k :| 0 <= k < |ids| && ids[k] == x;
      assert pairs[k].companyId == x;
    }
    pairs
  }

  /** The companies are listed in the order their ids first appear among the
      taking-part records (the insertion order of the `Map`). */
  lemma CompaniesFirstSeenOrder(rs: seq<Record>, k: nat, l: nat)
    requires k < l < |Companies(rs)|
    ensures Companies(rs)[k].companyId in CompanyIds(rs) && Companies(rs)[l].companyId in CompanyIds(rs)
    ensures FirstIndex(CompanyIds(rs), Companies(rs)[k].companyId) < FirstIndex(CompanyIds(rs), Companies(rs)[l].companyId)
  {
    var ids := Dedup(CompanyIds(rs));
    assert Companies(rs)[k].companyId == ids[k] && Companies(rs)[l].companyId == ids[l];
    DedupKeepsFirstSeenOrder(CompanyIds(rs), k, l);
  }

  /** Looking at one more record extends the ids by that record's id (when it
      takes part) and does not move the first naming of an id already seen. */
  lemma CompaniesStep(rs: seq<Record>, i: nat)
    requires i < |rs|
    ensures CompanyIds(rs[..i + 1]) ==
      CompanyIds(rs[..i]) + if NamesCompany(rs[i]) then [rs[i]["company_id"]] else []
    ensures forall x :: x in CompanyIds(rs[..i]) ==> FirstNaming(rs[..i + 1], x) == FirstNaming(rs[..i], x)
    ensures NamesCompany(rs[i]) && rs[i]["company_id"] !in CompanyIds(rs[..i]) ==>
      FirstNaming(rs[..i + 1], rs[i]["company_id"]) == i
  {
    assert rs[..i + 1][..i] == rs[..i];
  }

  /** The `forEach` that fills the `Map` keyed by `company_id` (first one wins,
      insertion order kept) and the `Array.from` that turns it into pairs. The
      map is `names` with its insertion order in `order`. */
  method CollectCompanies(rs: seq<Record>) returns (pairs: seq<CompanyPair>)
    ensures pairs == Companies(rs)
  {
    var order: seq<Value> := [];
    var names: map<Value, Value> := map[];
    assert rs[..0] == [];
    for i := 0 to |rs|
      invariant order == Dedup(CompanyIds(rs[..i]))
      invariant forall x :: x in names <==> x in order
      invariant forall x :: x in order ==> names[x] == rs[FirstNaming(rs[..i], x)]["company_name"]
    {
      var fields := rs[i];
      CompaniesStep(rs, i);
      ghost var ids := CompanyIds(rs[..i]);
      if NamesCompany(fields) {
        DedupSnoc(ids, fields["company_id"]);
      } else {
        assert CompanyIds(rs[..i + 1]) == ids;
      }
      if NamesCompany(fields) && fields["company_id"] !in names {
        names := names[fields["company_id"] := fields["company_name"]];
        order := order + [fields["company_id"]];
      }
    }
    assert rs[..|rs|] == rs;
    pairs := seq(|order|, k requires 0 <= k < |order| => CompanyPair(order[k], names[order[k]]));
  }

  /** `getCompanyNameAndId` issues one request with no parameters at all. */
  const CompanyRequest := ListRequest([], None, None)

  /** The message `getCompanyNameAndId` reports any failure with. */
  const CompaniesFailed := "Failed to fetch unique company pairs"

  /** `getCompanyNameAndId()`: the companies view of the raw fields of the first
      page only; a continuation token in the response is ignored. */
  method GetCompanyNameAndId(list: Lister) returns (result: Result<seq<CompanyPair>, string>)
    ensures list(CompanyRequest).ListFailed? ==> result == Failure(CompaniesFailed)
    ensures list(CompanyRequest).ListPage? ==>
      result == Success(Companies(FieldsOf(list(CompanyRequest).records)))
  {
    var response := list(CompanyRequest);
    if response.ListFailed? {
      return Failure(CompaniesFailed);
    }
    var pairs := CollectCompanies(FieldsOf(response.records));
    result := Success(pairs);
  }

  /** `record.fields` of each record, unflattened. */
  function FieldsOf(rs: seq<RawRecord>): (fs: seq<Record>)
    ensures |fs| == |rs| && forall i :: 0 <= i < |rs| ==> fs[i] == rs[i].fields
  {
    seq(|rs|, i requires 0 <= i < |rs| => rs[i].fields)
  }

  // ---------------------------------------------------------------------------
  // Bulk reassignment: bulkReassignRecords
  // ---------------------------------------------------------------------------

  /** The store's limit on records per batched patch. */
  const BatchSize := 10

  /** The message a failed batch is reported with when the store sent none. */
  const BulkFailed := "Failed to bulk reassign records"

  /** The store's batched patch endpoint. */
  type BulkPatcher = seq<UpdateEntry> -> PatchResponse

  /** The fields every reassigned record receives. */
  function ReassignFields(assignedTo: Value, updatedBy: Value, now: string): (fields: Record)
    ensures fields.Keys == {"assigned_to", "updated_by", "updated_at"}
    ensures fields["assigned_to"] == assignedTo && fields["updated_by"] == updatedBy
    ensures fields["updated_at"] == Str(now)
  {
    map["assigned_to" := assignedTo, "updated_by" := updatedBy, "updated_at" := Str(now)]
  }

  /** One update entry per id, in input order. The timestamp is read once per
      id, inside the per-id `map`: the `k`-th reading of the clock is
      `clock(k)`. */
  function ReassignEntries(ids: seq<Value>, assignedTo: Value, updatedBy: Value, clock: nat -> string)
    : (entries: seq<UpdateEntry>)
    ensures |entries| == |ids|
    ensures forall k :: 0 <= k < |ids| ==>
      entries[k] == UpdateEntry(ids[k], ReassignFields(assignedTo, updatedBy, clock(k)))
  {
    seq(|ids|, k requires 0 <= k < |ids| => UpdateEntry(ids[k], ReassignFields(assignedTo, updatedBy, clock(k))))
  }

  /** `ids.slice(from, to).map(...)`: the entries of one batch. Mapping the
      slice gives the same entries as slicing the mapped ids, the clock
      reading of each id being the one taken for its place in `ids`. */
  function BatchEntries(ids: seq<Value>, from: nat, to: nat, assignedTo: Value, updatedBy: Value,
                        clock: nat -> string): (batch: seq<UpdateEntry>)
    requires from <= to <= |ids|
    ensures batch == ReassignEntries(ids, assignedTo, updatedBy, clock)[from..to]
  {
    seq(to - from, j requires 0 <= j < to - from =>
      UpdateEntry(ids[from + j], ReassignFields(assignedTo, updatedBy, clock(from + j))))
  }

  /** `batches` cuts `items` into consecutive slices of `BatchSize`: there are
      ceil(|items| / 10) of them, each holds 1 to 10 items, all but the last
      hold exactly 10, the last one ends at the end of `items`, and item `j`
      of batch `b` is item `10 * b + j`. */
  ghost predicate IsBatching<T>(batches: seq<seq<T>>, items: seq<T>)
  {
    && |batches| == (|items| + BatchSize - 1) / BatchSize
    && (forall b :: 0 <= b < |batches| ==> 0 < |batches[b]| <= BatchSize)
    && (forall b :: 0 <= b < |batches| - 1 ==> |batches[b]| == BatchSize)
    && (|batches| > 0 ==> BatchSize * (|batches| - 1) + |batches[|batches| - 1]| == |items|)
    && (forall b, j :: 0 <= b < |batches| && 0 <= j < |batches[b]| ==>
          BatchSize * b + j < |items| && batches[b][j] == items[BatchSize * b + j])
  }

  /** The batches, concatenated, give back every item once, in input order. */
  lemma {:induction false} BatchesConcatenate<T>(batches: seq<seq<T>>, items: seq<T>)
    requires IsBatching(batches, items)
    ensures Concat(batches) == items
    decreases |batches|
  {
    if batches != [] {
      var first := batches[0];
      assert first == items[..|first|];
      if |batches| == 1 {
        assert |first| == |items|;
        assert Concat(batches[1..]) == [];
      } else {
        var rest := items[BatchSize..];
        assert |first| == BatchSize;
        forall b, j | 0 <= b < |batches[1..]| && 0 <= j < |batches[1..][b]|
          ensures BatchSize * b + j < |rest| && batches[1..][b][j] == rest[BatchSize * b + j]
        {
          assert batches[1..][b] == batches[b + 1];
          assert BatchSize * (b + 1) + j < |items|;
        }
        assert IsBatching(batches[1..], rest);
        BatchesConcatenate(batches[1..], rest);
      }
    }
  }

  /** Every item sits in exactly one place: item `k` is element `k % 10` of
      batch `k / 10`. */
  lemma BatchOfItem<T>(batches: seq<seq<T>>, items: seq<T>, k: nat)
    requires IsBatching(batches, items) && k < |items|
    ensures k / BatchSize < |batches| && k % BatchSize < |batches[k / BatchSize]|
    ensures batches[k / BatchSize][k % BatchSize] == items[k]
  {
    var b, j := k / BatchSize, k % BatchSize;
    assert k == BatchSize * b + j;
    assert |batches| > 0;
  }

  /** The first `|batches|` slices of `items` have been cut: slice `b` holds
      the (up to) ten items from `10 * b`. */
  ghost predicate SlicedPrefix<T>(batches: seq<seq<T>>, items: seq<T>)
  {
    && (|batches| > 0 ==> BatchSize * (|batches| - 1) < |items|)
    && (forall b :: 0 <= b < |batches| ==>
          |batches[b]| == if BatchSize * b + BatchSize <= |items| then BatchSize else |items| - BatchSize * b)
    && (forall b, j :: 0 <= b < |batches| && 0 <= j < |batches[b]| ==>
          BatchSize * b + j < |items| && batches[b][j] == items[BatchSize * b + j])
  }

  /** Cutting the next slice extends the prefix. */
  lemma SlicedPrefixStep<T>(batches: seq<seq<T>>, items: seq<T>, batch: seq<T>)
    requires SlicedPrefix(batches, items) && BatchSize * |batches| < |items|
    requires |batch| == if BatchSize * |batches| + BatchSize <= |items| then BatchSize
                         else |items| - BatchSize * |batches|
    requires forall j :: 0 <= j < |batch| ==> batch[j] == items[BatchSize * |batches| + j]
    ensures SlicedPrefix(batches + [batch], items)
  {
    var next := batches + [batch];
    forall b, j | 0 <= b < |next| && 0 <= j < |next[b]|
      ensures BatchSize * b + j < |items| && next[b][j] == items[BatchSize * b + j]
    {
      if b < |batches| {
        assert next[b] == batches[b];
      }
    }
  }

  /** Once the slices reach the end of `items`, they are its batching. */
  lemma SlicedPrefixComplete<T>(batches: seq<seq<T>>, items: seq<T>)
    requires SlicedPrefix(batches, items) && |items| <= BatchSize * |batches|
    ensures IsBatching(batches, items)
  {
  }

  /** The first loop of `bulkReassignRecords`: `ids.slice(i, i + 10)` for
      `i = 0, 10, 20, ...` while `i < ids.length`, each id mapped to its
      update entry. */
  method MakeBatches(ids: seq<Value>, assignedTo: Value, updatedBy: Value, clock: nat -> string)
    returns (batches: seq<seq<UpdateEntry>>)
    ensures IsBatching(batches, ReassignEntries(ids, assignedTo, updatedBy, clock))
  {
    ghost var entries := ReassignEntries(ids, assignedTo, updatedBy, clock);
    batches := [];
    var i := 0;
    while i < |ids|
      invariant i == BatchSize * |batches|
      invariant SlicedPrefix(batches, entries)
    {
      var end := if i + BatchSize <= |ids| then i + BatchSize else |ids|;
      var batch := BatchEntries(ids, i, end, assignedTo, updatedBy, clock);
      SlicedPrefixStep(batches, entries, batch);
      batches := batches + [batch];
      i := i + BatchSize;
    }
    SlicedPrefixComplete(batches, entries);
  }

  /** The records the store sent back for the batches, in batch order
      (`responses.push(...response.data.records)`). */
  function PatchedRecords(patch: BulkPatcher, batches: seq<seq<UpdateEntry>>): seq<RawRecord>
  {
    if batches == [] then []
    else
      PatchedRecords(patch, batches[..|batches| - 1]) +
      match patch(batches[|batches| - 1])
      case Patched(rs) => rs
      case PatchFailed(_) => []
  }

  /** `error.response?.data?.error?.message || "Failed to bulk reassign records"`. */
  function BulkErrorMessage(e: ApiError): (m: string)
    ensures e.apiMessage.Some? && e.apiMessage.value != "" ==> m == e.apiMessage.value
    ensures !(e.apiMessage.Some? && e.apiMessage.value != "") ==> m == BulkFailed
  {
    if e.apiMessage.Some? && e.apiMessage.value != "" then e.apiMessage.value else BulkFailed
  }

  /** How sending the batches in order ends, given that the first `issued` of
      them were sent: either every batch succeeded and the answers are
      concatenated in batch order, or batch `issued - 1` is the first that
      failed, nothing after it was sent, and its message is reported. Batches
      sent before the failure stay applied. */
  ghost predicate BatchRun(patch: BulkPatcher, batches: seq<seq<UpdateEntry>>,
                           issued: nat, result: Result<seq<RawRecord>, string>)
  {
    && issued <= |batches|
    && (forall k :: 0 <= k < issued - 1 ==> patch(batches[k]).Patched?)
    && (result.Success? <==> forall k :: 0 <= k < |batches| ==> patch(batches[k]).Patched?)
    && (result.Success? ==> issued == |batches| && result.value == PatchedRecords(patch, batches))
    && (result.Failure? ==>
          && 0 < issued
          && patch(batches[issued - 1]).PatchFailed?
          && result.error == BulkErrorMessage(patch(batches[issued - 1]).error))
  }

  /** The second loop of `bulkReassignRecords`: one patch per batch, in order,
      stopping at the first failure. */
  method SendBatches(patch: BulkPatcher, batches: seq<seq<UpdateEntry>>)
    returns (issued: nat, result: Result<seq<RawRecord>, string>)
    ensures BatchRun(patch, batches, issued, result)
  {
    var responses: seq<RawRecord> := [];
    issued := 0;
    while issued < |batches|
      invariant issued <= |batches|
      invariant forall k :: 0 <= k < issued ==> patch(batches[k]).Patched?
      invariant responses == PatchedRecords(patch, batches[..issued])
    {
      var response := patch(batches[issued]);
      assert batches[..issued + 1][..issued] == batches[..issued];
      issued := issued + 1;
      if response.PatchFailed? {
        return issued, Failure(BulkErrorMessage(response.error));
      }
      responses := responses + response.records;
    }
    assert batches[..issued] == batches;
    result := Success(responses);
  }

  /** `bulkReassignRecords(ids, assigned_to, updated_by)`: batch the ids, then
      send the batches in order. Returns the batches and how many were sent,
      besides the outcome. */
  method BulkReassignRecords(patch: BulkPatcher, ids: seq<Value>, assignedTo: Value, updatedBy: Value,
                             clock: nat -> string)
    returns (batches: seq<seq<UpdateEntry>>, issued: nat, result: Result<seq<RawRecord>, string>)
    ensures IsBatching(batches, ReassignEntries(ids, assignedTo, updatedBy, clock))
    ensures BatchRun(patch, batches, issued, result)
  {
    batches := MakeBatches(ids, assignedTo, updatedBy, clock);
    issued, result := SendBatches(patch, batches);
  }

  // ---------------------------------------------------------------------------
  // Searches: searchQuestionAnswer, searchProperties
  // ---------------------------------------------------------------------------

  /** The fuzzy ranking (`new Fuse(records, options).search(query)`, mapped to
      the matching items): the records that match `query`, best first. */
  type Ranker = (seq<Record>, string) -> seq<Record>

  /** The query `searchProperties` ranks the `properties` field against:
      `${propertyKey}:${propertyValue}`. */
  function PropertyQuery(key: string, value: string): (q: string)
    ensures |q| == |key| + 1 + |value|
    ensures q[..|key|] == key && q[|key|] == ':' && q[|key| + 1..] == value
  {
    key + ":" + value
  }

  /** Everything before the first ':' and everything after it. */
  function SplitAtColon(q: string): (parts: Option<(string, string)>)
    ensures parts.Some? <==> ':' in q
  {
    if q == [] then None
    else if q[0] == ':' then Some(([], q[1..]))
    else match SplitAtColon(q[1..])
      case None => None
      case Some((k, v)) => Some(([q[0]] + k, v))
  }

  /** A property query can be read back as its key and value whenever the key
      contains no ':'. */
  lemma {:induction false} PropertyQueryRoundTrip(key: string, value: string)
    requires ':' !in key
    ensures SplitAtColon(PropertyQuery(key, value)) == Some((key, value))
  {
    if key == [] {
      assert PropertyQuery(key, value) == [':'] + value;
    } else {
      var q := PropertyQuery(key, value);
      assert q[0] == key[0] && q[0] != ':';
      assert q[1..] == PropertyQuery(key[1..], value);
      PropertyQueryRoundTrip(key[1..], value);
      assert [key[0]] + key[1..] == key;
    }
  }

  /** `searchQuestionAnswer(searchTerm)`: all records (unfiltered, all pages),
      ranked against the term. A failed fetch is not caught here: its message
      is "Failed to fetch records". */
  method SearchQuestionAnswer(list: Lister, rank: Ranker, searchTerm: string)
    returns (requests: seq<ListRequest>, result: Result<seq<Record>, string>)
    requires PagesEnd(list, None)
    ensures IsPageTrace(list, None, requests)
    ensures result.Success? <==> TraceOutcome(list, requests).Success?
    ensures result.Success? ==> result.value == rank(RecordsOf(list, requests), searchTerm)
    ensures result.Failure? ==> result.error == FetchFailed
  {
    var fetched;
    requests, fetched := GetRecords(list, None);
    if fetched.Failure? {
      return requests, fetched;
    }
    result := Success(rank(fetched.value, searchTerm));
  }

  /** `searchProperties(propertyKey, propertyValue)`: all records ranked against
      the property query. */
  method SearchProperties(list: Lister, rank: Ranker, propertyKey: string, propertyValue: string)
    returns (requests: seq<ListRequest>, result: Result<seq<Record>, string>)
    requires PagesEnd(list, None)
    ensures IsPageTrace(list, None, requests)
    ensures result.Success? <==> TraceOutcome(list, requests).Success?
    ensures result.Success? ==>
      result.value == rank(RecordsOf(list, requests), PropertyQuery(propertyKey, propertyValue))
    ensures result.Failure? ==> result.error == FetchFailed
  {
    var fetched;
    requests, fetched := GetRecords(list, None);
    if fetched.Failure? {
      return requests, fetched;
    }
    result := Success(rank(fetched.value, PropertyQuery(propertyKey, propertyValue)));
  }
}
