# privasee-backend questions service, modelled in Dafny

The privasee backend keeps a table of question records in Airtable and
serves it over HTTP. This project models its core: the Airtable service
(`services/airtableService.js`), which pages through the table, creates,
updates and deletes records, collects users and companies and reassigns
records in batches of ten, and the question routes
(`routes/questionRoutes.js`), which check each request's inputs and map the
service's outcome to an HTTP status and JSON body.

Layout:

- `wrappers.dfy` (`Wrappers`): `Option` and `Result`.
- `json.dfy` (`Json`): JSON values, a record as a `map<string, Value>`, and
  JavaScript truthiness (`Truthy`, `FieldTruthy`), which every `if (x)` and
  `x || y` of the source uses.
- `sequences.dfy` (`Sequences`): insertion-ordered de-duplication (`Dedup`,
  the behaviour of a JavaScript `Set`/`Map` converted back to an array),
  first occurrence, concatenation.
- `backend.dfy` (`Backend`): the shapes of the Airtable REST API as the
  service sees them (list pages with an offset token, write answers, bulk
  patch answers, errors with an optional API message) and the flattening
  `{ id, ...fields }` applied to the records that listing, create and update
  return; the bulk reply and the companies view use the store's raw records.
- `airtable_service.dfy` (`AirtableService`): the service functions.
- `question_routes.dfy` (`QuestionRoutes`): the route handlers.

The store is not modelled as state: each call to Airtable is a function
parameter (`Lister` for GET, `create`, `patch`, `remove`, `BulkPatcher` for
the bulk PATCH), so every contract holds for every store the parameter can
stand for; the contracts of the paging operations (`GetRecords`, `GetUsers`,
the two searches and the list and search routes) additionally require that
the store stops handing out offset tokens (`PagesEnd`). The clock
(`new Date().toISOString()`) is a string parameter (`now`), or a function
`clock: nat -> string` giving the reading taken for the k-th id in bulk
reassignment; `Math.random()` is a sequence of fourteen draws in `[0, 1)`.
Paging loops are methods that return, besides the outcome, the sequence of
requests they issued; their contracts say that sequence is the unique page
trace (`IsPageTrace`, `PageTraceUnique`) and that the outcome is the one
that trace determines (`TraceOutcome`).

Facts about the code that the model keeps:

- bulk reassignment reads the clock once per id, inside the per-id `map`
  (services/airtableService.js:194-199), so ids in one batch may carry
  different `updated_at` timestamps;
- the company list is built from the answer to a single GET without
  parameters (services/airtableService.js:163-167); no offset is followed,
  so only the first page of records is seen;
- the user list is a JavaScript `Set` converted to an array
  (services/airtableService.js:148-154), so it lists each user once, in the
  order first added;
- generated record ids are `rec` plus fourteen characters drawn from the 52
  ASCII letters (services/airtableService.js:15-21); they contain no digits.

## Model

| member | source | states |
|---|---|---|
| AirtableService.DrawIndex | services/airtableService.js:19 | the index a draw selects is the floor of the draw times 52, taken over the reals, and is always in range of the 52-letter alphabet |
| AirtableService.AlphabetIsAsciiLetters | services/airtableService.js:15 | the alphabet holds exactly the ASCII letters, upper and lower case, in both directions |
| AirtableService.EveryLetterIsDrawn | services/airtableService.js:15-20 | every ASCII letter can be produced by some draw in `[0, 1)` |
| AirtableService.GenerateRecordId | services/airtableService.js:14-24 | the id is `rec` followed by exactly fourteen ASCII letters, and letter i is the alphabet entry chosen by draw i |
| AirtableService.FilterFormula | services/airtableService.js:33-37 | a formula is sent exactly when `assignedTo` is given and non-empty, and it is `AND({assigned_to} = '<value>')` |
| AirtableService.IsToken | services/airtableService.js:44 | an offset counts as a continuation token exactly when it is present and truthy, that is a non-empty string |
| AirtableService.PageRequest | services/airtableService.js:40-44 | every page request sorts by `updated_at` descending and carries the filter formula; it carries an offset exactly when given a token, and then that token |
| AirtableService.NextRequest | services/airtableService.js:44-60 | another page is requested exactly when the response was a page carrying a non-empty offset token, and that request carries the token |
| AirtableService.GetRecords | services/airtableService.js:27-67 | the requests issued form the page trace (first without offset, each next one carrying the previous token, stopping at a failure or a page without token), and the result is all flattened records of those pages in fetch order, or "Failed to fetch records" when any page fails |
| AirtableService.RecordsOf | services/airtableService.js:53-58 | defines the records gathered by a run of requests: the flattened records of each page answered, appended in request order (its properties are `RecordsOfAppend` and `RecordsOfHaveIds`) |
| AirtableService.TraceOutcome | services/airtableService.js:62-66 | a finished trace succeeds exactly when its last response is a page, with all gathered records; otherwise it reports "Failed to fetch records" |
| AirtableService.TraceFailsIffSomePageFails | services/airtableService.js:39-66 | a page trace ends in failure exactly when one of its responses is a failure, and then no records are returned |
| AirtableService.PageTraceRequests | services/airtableService.js:39-60 | every request sorts by `updated_at` descending and carries the same filter; only the first has no offset; every response but the last was a page |
| AirtableService.PageTraceLast | services/airtableService.js:59-60 | the loop stops at request i exactly when i is the last request |
| AirtableService.PageTracesAgree | services/airtableService.js:39-60 | two page traces of the same store agree at every position both have |
| AirtableService.PageTraceUnique | services/airtableService.js:39-60 | a store admits only one page trace, so the requests the loop issues are determined by the store |
| AirtableService.PageTraceShift | services/airtableService.js:39-60 | once a trace repeats a request, every later request repeats too, step for step |
| AirtableService.PageTraceDistinct | services/airtableService.js:39-60 | no page is requested twice: the requests of a finished trace are pairwise distinct |
| AirtableService.RecordsOfAppend | services/airtableService.js:58 | the records of two consecutive runs of pages are the concatenation of each run's records |
| AirtableService.RecordsOfHaveIds | services/airtableService.js:53-56 | every fetched record carries an `id` key |
| Backend.Flatten | services/airtableService.js:53-56 | `{ id, ...fields }`: the keys are the fields' keys plus `id`, field values win, and `id` is the record id unless a field named `id` overrides it |
| Backend.FlattenPage | services/airtableService.js:53-56 | a page flattens record by record, keeping length and order |
| Backend.ErrorMessage | services/airtableService.js:96 | the error message is the API's message when it is non-empty, otherwise the transport message |
| Backend.WriteOutcome | services/airtableService.js:93-97 | a write succeeds exactly when the store answered with a record; the result is that record flattened (it has an `id`), otherwise the error message |
| AirtableService.CreateFields | services/airtableService.js:78-83 | the fields sent are the caller's data plus `record_id`, `created_at` and `updated_at`, which override caller values; both timestamps are the same reading; every other caller field is kept |
| AirtableService.CreateRecord | services/airtableService.js:71-98 | the sent `record_id` is a well-formed generated id, the sent fields are exactly `CreateFields` of the data with it, and the result is the store's answer flattened or its error message |
| AirtableService.UpdateFields | services/airtableService.js:102-111 | `id` and `created_at` are never sent; `updated_at` is always the current reading; every other caller field is sent unchanged |
| AirtableService.UpdateKeepsCreatedAt | services/airtableService.js:102-111 | merging an update into a stored record leaves its `created_at` as it was |
| AirtableService.UpdateRecord | services/airtableService.js:101-126 | the patch sent is `UpdateFields` of the data; success exactly when the store answers with a record, returned flattened; otherwise the store's message |
| AirtableService.DeleteRecord | services/airtableService.js:129-141 | success with "Record deleted successfully" exactly when the store reports no error, otherwise the store's message |
| AirtableService.AuthorsOf | services/airtableService.js:150-151 | the candidates of one record are exactly its truthy `created_by` and `updated_by` |
| AirtableService.Authors | services/airtableService.js:149-152 | defines the sequence of values offered to the user set, record by record in `forEach` order (its membership is `AuthorsExactly`) |
| AirtableService.AuthorsExactly | services/airtableService.js:149-152 | a value is collected exactly when some record has it as a truthy `created_by` or `updated_by` |
| AirtableService.AuthorsSound | services/airtableService.js:149-152 | every collected value comes from some record's truthy `created_by` or `updated_by` |
| AirtableService.AuthorsComplete | services/airtableService.js:149-152 | every truthy `created_by` or `updated_by` of every record is collected |
| AirtableService.Users | services/airtableService.js:148-154 | the user list has no repeats and contains exactly the truthy `created_by`/`updated_by` values of the records |
| AirtableService.UsersFirstSeenOrder | services/airtableService.js:148-154 | the users are listed in the order they were first offered, record by record and `created_by` before `updated_by` |
| Sequences.Dedup | services/airtableService.js:148-154 | converting a `Set` back to an array keeps exactly the added values, each once |
| Sequences.DedupSnoc | services/airtableService.js:150-151 | adding one more value to the set appends it when new and changes nothing otherwise |
| Sequences.DedupKeepsFirstSeenOrder | services/airtableService.js:154 | the array lists values in the order they were first added |
| AirtableService.CollectUsers | services/airtableService.js:148-154 | the `forEach` over the records computes exactly `Users` |
| AirtableService.GetUsers | services/airtableService.js:143-159 | the records come from an unfiltered page trace; success exactly when the fetch succeeds, with the users of all fetched records; otherwise "Failed to fetch users" |
| AirtableService.CompanyIds | services/airtableService.js:172-176 | a value is a candidate company id exactly when some record has a truthy `company_id` with a truthy `company_name` |
| AirtableService.FirstNaming | services/airtableService.js:174-175 | the name kept for a company id comes from the first record naming it |
| AirtableService.Companies | services/airtableService.js:170-183 | each pair's name is the first name seen for its id, no id appears twice, and every qualifying id appears |
| AirtableService.CompaniesFirstSeenOrder | services/airtableService.js:170-183 | the company pairs are listed in the order their ids first appear among the qualifying records, the insertion order of the `Map` |
| AirtableService.CompaniesStep | services/airtableService.js:172-176 | one more record adds its company id once, when new, and never changes the name already kept for an earlier id |
| AirtableService.CollectCompanies | services/airtableService.js:170-183 | the `Map`-based loop computes exactly `Companies` |
| AirtableService.GetCompanyNameAndId | services/airtableService.js:161-188 | one GET without parameters; on failure "Failed to fetch unique company pairs", otherwise the company pairs of that page's fields |
| AirtableService.FieldsOf | services/airtableService.js:173 | the records' fields, one per record, in order |
| AirtableService.ReassignFields | services/airtableService.js:196-200 | each reassignment sends exactly `assigned_to`, `updated_by` and `updated_at` |
| AirtableService.ReassignEntries | services/airtableService.js:194-201 | one entry per id, in order, carrying that id and the reassignment fields with its own clock reading |
| AirtableService.BatchEntries | services/airtableService.js:194-201 | the entries of one batch, built from the slice of ids, equal the same slice of all entries |
| AirtableService.SlicedPrefixStep | services/airtableService.js:193-202 | cutting the next slice of up to ten entries keeps every batch cut so far a correct slice |
| AirtableService.MakeBatches | services/airtableService.js:192-203 | the batches split the entries into consecutive runs of ten, the last possibly shorter, none empty, their number the ceiling of the id count over ten |
| AirtableService.BatchesConcatenate | services/airtableService.js:193-202 | the batches concatenated give back all entries in order, so every id is in exactly one batch, in order; on success each is sent once |
| AirtableService.BatchOfItem | services/airtableService.js:193-194 | entry k is in batch k/10 at position k mod 10 |
| AirtableService.PatchedRecords | services/airtableService.js:217 | defines the records the store answered for the batches, appended in batch order (`responses.push(...)`) |
| AirtableService.BulkErrorMessage | services/airtableService.js:223-225 | the reported message is the API's message when non-empty, otherwise "Failed to bulk reassign records" |
| AirtableService.SendBatches | services/airtableService.js:205-220 | batches are sent in order and sending stops at the first failure; success exactly when every batch succeeds, with the records of all answers in batch order; otherwise the failing batch is the last sent and its message is reported |
| AirtableService.BulkReassignRecords | services/airtableService.js:190-227 | the batches are the batching of the entries and the sends are the run of those batches described for `SendBatches` |
| AirtableService.PropertyQuery | services/airtableService.js:245 | the property search string is the key, a colon, then the value |
| AirtableService.SplitAtColon | services/airtableService.js:245 | a string splits at a colon exactly when it contains one |
| AirtableService.PropertyQueryRoundTrip | services/airtableService.js:245 | a key without a colon is recovered, with its value, from the search string |
| AirtableService.SearchQuestionAnswer | services/airtableService.js:230-240 | the records come from an unfiltered page trace; success exactly when the fetch succeeds, with the ranking of all records against the term; otherwise the fetch error |
| AirtableService.SearchProperties | services/airtableService.js:243-254 | as for the question search, with the ranking against `key:value` |
| QuestionRoutes.QueryParam | routes/questionRoutes.js:19 | a query parameter is present exactly when the query holds it, with its value |
| QuestionRoutes.Given | routes/questionRoutes.js:92 | a query parameter passes a guard exactly when it is present and truthy |
| QuestionRoutes.BadRequest | routes/questionRoutes.js:43-51 | a 400 reply carries exactly an `error` key holding the given message |
| QuestionRoutes.ServerError | routes/questionRoutes.js:12 | a 500 reply carries exactly the fixed `error` summary and the underlying message as `details` |
| QuestionRoutes.RecordsReply | routes/questionRoutes.js:24-27 | the reply lists the records in order and `totalRecords` always equals the number of records listed |
| QuestionRoutes.HandleCreate | routes/questionRoutes.js:6-14 | 201 with the created record exactly when the store accepted the create, else 500 "Failed to create record" with the store's message |
| QuestionRoutes.HandleList | routes/questionRoutes.js:17-34 | the `assignedTo` query decides the filter; 200 with all fetched records exactly when the fetch succeeds, else 500 "Failed to fetch records" |
| QuestionRoutes.HasIds | routes/questionRoutes.js:43 | the `ids` guard passes exactly when `ids` is truthy, an array and not empty |
| QuestionRoutes.BulkArgsValid | routes/questionRoutes.js:43-51 | defines when all three bulk-reassign guards pass: `ids` as for `HasIds`, truthy `assigned_to` and truthy `updated_by` |
| QuestionRoutes.RawRecordValue | routes/questionRoutes.js:55 | an updated record is listed as `{ id, fields }` with the store's id and fields (the store's `createdTime` is not modelled) |
| QuestionRoutes.BulkReply | routes/questionRoutes.js:55 | the reply carries exactly the keys `message` and `updatedRecords`: the message "Records reassigned successfully" and every updated record as the store returned it, `{ id, fields }` in the model, in order |
| QuestionRoutes.HandleBulkReassign | routes/questionRoutes.js:37-60 | `ids`, then `assigned_to`, then `updated_by` are checked in that order and the first that fails gives its 400 with no batch built or sent; a 400 happens exactly when a check fails; otherwise the ids are batched and sent, and the reply is 200 with all updated records when every batch succeeds, else 500 with the failing batch's message |
| QuestionRoutes.UpdateRoute | routes/questionRoutes.js:65-74 | 200 with the updated record exactly when the store accepted the patch, else 500 "Failed to update record" with the store's message |
| QuestionRoutes.DeleteRoute | routes/questionRoutes.js:77-85 | 204 with no body exactly when the store deleted the record, else 500 "Failed to delete record" with the store's message |
| QuestionRoutes.HandleSearch | routes/questionRoutes.js:88-107 | a missing or empty `searchTerm` gives 400 and fetches nothing; otherwise 200 with the ranked records, or 500 "Failed to perform search" |
| QuestionRoutes.HandleSearchProperties | routes/questionRoutes.js:110-129 | 400 and no fetch unless both `propertyKey` and `propertyValue` are given; otherwise 200 with the records ranked against `key:value`, or 500 "Failed to perform property search" |

## Left out

- HTTP transport: axios, the Airtable URL, the access token and headers are not modelled; each call to the store is a function parameter.
- Fuse.js fuzzy ranking (keys, threshold 0.5, ignoreLocation) is not modelled; it is the `Ranker` parameter, so the searches are proved only to rank all fetched records against the right string.
- `Math.random()` and `new Date().toISOString()` are parameters (draws and clock readings), not modelled sources.
- AirtableService.DrawIndex: the product of the draw and 52 is exact over the reals; JavaScript rounds it to a double first, and that rounding is not modelled, so for a few draws just below a multiple of 1/52 (for example 0.4423076923076923) the source picks the next letter; `GenerateRecordId`'s per-letter clause inherits this, while its shape (`rec` plus fourteen ASCII letters) holds either way.
- Asynchrony: every `await` is modelled as a call that returns before the next statement; concurrent requests are not modelled.
- AirtableService.GetRecords, GetUsers, SearchQuestionAnswer, SearchProperties and QuestionRoutes.HandleList: require that the store eventually stops returning offset tokens; a store that hands out tokens forever makes the source loop forever and is outside the model. The search routes require it only when their guards pass, since their 400 replies never reach the store.
- Query strings are modelled as one string per parameter; arrays or nested objects produced by the query parser are not modelled.
- Request bodies are modelled as JSON objects; a body that is not an object (which Express would not parse into one) is not modelled.
- JSON numbers are reals; NaN, infinities and number formatting are not modelled.
- `Set` and `Map` keys are compared structurally; JavaScript compares object and array values by reference, so two equal-looking object ids would stay distinct there.
- The `createdTime` attribute the store returns with each record is not modelled. The flattened records of the list, create, update and search paths drop it, but the bulk reply passes the store's raw records through unchanged (services/airtableService.js:217-220, routes/questionRoutes.js:55), so there the source includes `createdTime` and the model's `{ id, fields }` omits it.
- Logging (`console.log`, `console.error`), environment configuration (dotenv), the Express application set-up, CORS and the company and user routes are not part of this model.
- Exceptions other than failed store calls (for example a malformed store answer without `records`) are not modelled.
