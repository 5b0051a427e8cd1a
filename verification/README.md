# fp-ts-mailerlite batching, modelled in Dafny

fp-ts-mailerlite wraps the MailerLite HTTP API in fp-ts `Either` and
`TaskEither` pipelines. This project models the library's batching core:

- `mlBatch` turns request options into one batch item: a method, a path with
  the stringified query appended after `?`, and a body.
- `runBatch` sends a list of items in one `POST api/batch` call.
- `validateBatch` turns a reply with failed items into a `BatchError` whose
  message is `"<failed> batch failed out of <total>"`.
- `batchList` encodes a whole list and sends it as one batch.
  `batchListInChunks` and `upsertList` cut the encoded list into chunks (50 for
  `upsertList`) and send the chunks one after another. They stop at the first
  chunk that fails.
- `cleanedUpAxiosError` strips the connection objects from a failed call's
  error.
- The subscriber and field encoders (`upsertBatch`, `fetchBatch`, `delBatch`,
  and the item encoders of `createList` and `delFields`) build on `mlBatch`.

Modules follow the source files:

- `Fp` holds the fp-ts combinators the pipelines use: `Either`, the
  first-failure traversal, `chunksOf`, and the short-circuiting sequential
  run.
- `Decimal` renders integers the way a template literal prints them.
- `Utils` models `src/utils.ts`, `Batch` models `src/batch.ts`,
  `Subscribers` models `src/subscribers.ts` and `Fields` models
  `src/fields.ts`.

The effects become parameters:

- `qs.stringify` behind `E.tryCatch` is a `Stringify` function. It returns a
  query string or the thrown error, and `None` stands for absent params. The
  encoders take no params. Their exact paths are stated for a stringify that
  maps absent params to the empty string (`AbsentParamsGiveEmptyQuery`),
  which is what `qs` does.
- The configured axios `POST api/batch` call is a `Transport` function. It
  maps the submitted items to the axios error or the axios response.
- A pipeline run returns a `Logged` record: its result, plus every item list
  handed to the transport, in order. The list makes "nothing is sent",
  "chunk k is sent" and "later chunks are never sent" statements about
  values.

The sources mix two versions of the batching helpers:

- `src/batch.ts` is the newer one. Its `mlBatch` wraps a stringify failure
  in an external error.
- `src/subscribers.ts` and `src/fields.ts` import `mlBatch` from
  `src/utils.ts`. That older version returns the plain `Error`.
- `fields.ts` also imports `batchList` and `validateBatch` from `./utils`,
  and `upsertList` calls `runBatch(config)`. The repository's `src/utils.ts`
  does not define `batchList` or `validateBatch`, and its `runBatch` takes no
  config. So this model takes `batchList`, `runBatch` and `validateBatch`
  from `src/batch.ts` for every caller.
- The plain `Error` of an older encoder reaches the result as
  `MlError.PlainError`. `Batch.MlBatchVersionsAgree` proves that the two
  `mlBatch` versions build the same item and differ only in the error
  wrapping.

## Model

| member | source | states |
|---|---|---|
| Fp.FirstLeft | src/batch.ts:91 | the index where the traversal stops: every element before it encodes, and the element at it fails unless it is the end of the list |
| Fp.Traverse | src/batch.ts:91 | `A.traverse(E.Applicative)`: a success exactly when every element succeeds, holding each element's item at its own index; otherwise the error of the first failing element |
| Fp.TraverseLoop | src/batch.ts:91 | a left-to-right loop that stops at the first failure gives the same result as the traversal |
| Fp.ChunksOf | src/batch.ts:92 | `A.chunksOf(n)`: the chunks concatenate back to the list, each holds 1 to n elements, and every chunk but the last holds exactly n |
| Fp.ChunkBounds | src/batch.ts:92 | the number of chunks c satisfies (c-1)·n < length ≤ c·n |
| Fp.ChunkCount | src/batch.ts:92 | there are ceil(length / n) chunks |
| Fp.ChunksOfUnique | src/batch.ts:92 | any chunking with those size rules is the chunking of its own concatenation, so the rules determine the chunks |
| Fp.FlattenPrefix | src/batch.ts:92 | the first k chunks concatenate to a prefix of the list, so a partial run sends a leading part of the items |
| Fp.SequenceSeq | src/batch.ts:94-96 | `A.sequence(TE.ApplicativeSeq)` over the chunk runs: the result is the first failure or all responses in order, and the chunks sent are exactly those up to and including the first failing one |
| Fp.SequenceStopsAtFailure | src/batch.ts:94-96 | when chunk k is the first to fail, the run returns its error and chunks 0..k were sent, none after |
| Fp.SequenceAllSucceed | src/batch.ts:94-96 | when every chunk succeeds, the run returns their responses in chunk order and every chunk was sent |
| Fp.ChunkedLoop | src/batch.ts:92-96 | a loop that runs the chunks in order and returns at the first failure sends a prefix of the chunks: all of them on success; on failure, the last one sent failed with the returned error and all earlier ones succeeded |
| Decimal.ReadShow | src/batch.ts:61 | the decimal rendering of an integer reads back as that integer, so distinct counts give distinct messages |
| Utils.CleanedUpAxiosError | src/utils.ts:47-54 | request nulled, config undefined, and the response's request nulled when there is a response; every other field is unchanged |
| Utils.CleanedUpIdempotent | src/utils.ts:47-54 | sanitising an already sanitised error changes nothing |
| Utils.CleanedUpForgetsOnlyConnection | src/utils.ts:47-54 | two errors sanitise to the same value exactly when they agree on everything but the connection objects; an error is its own image exactly when it is already sanitised |
| Utils.WithQuery | src/utils.ts:94 | `apiUrl + (p ? '?' + p : '')`: the path extends apiUrl; it equals apiUrl exactly when the query is empty, and otherwise continues with `?` and the query |
| Utils.QueryRoundTrip | src/utils.ts:94 | paths and query strings correspond one to one: the query is recovered from the path, and only that path yields it |
| Utils.MlBatch | src/utils.ts:91-97 | older `mlBatch`: fails exactly when stringify throws, with that error; otherwise copies method and body, and the query read back from the path is the stringified params |
| Batch.MlBatch | src/batch.ts:32-41 | newer `mlBatch`: fails exactly when stringify throws, with an external error holding the message "Error while stringifying params", the options and the cause; otherwise the same item as the older version |
| Batch.MlBatchVersionsAgree | src/batch.ts:32-41 | the two `mlBatch` versions succeed on the same inputs with the same item, and on failure differ only in the wrapping of the same error |
| Batch.RunBatch | src/batch.ts:44-53 | the call succeeds exactly when the transport does, yielding the response payload; a failure is the sanitised axios error with all its diagnostics kept |
| Batch.FailMessageRoundTrip | src/batch.ts:61 | the failure message reads back as its (failed, total) pair |
| Batch.FailMessage | src/batch.ts:61 | the template `${failed} batch failed out of ${total}`; it carries no contract of its own, and FailMessageRoundTrip with the three literal lemmas below state what it renders |
| Batch.ValidateBatch | src/batch.ts:56-68 | a batch is rejected exactly when failed > 0, as a `BatchError` that carries the whole reply and whose message is exactly "<failed> batch failed out of <total>", which reads back as the pair (failed, total); any other batch passes unchanged |
| Batch.FailMessageTwoOfTwo | tests/mailerlite-subscribers.test.ts:195 | two failures out of two give "2 batch failed out of 2" |
| Batch.FailMessageOneOfTwo | tests/mailerlite-subscribers.test.ts:209 | one failure out of two gives "1 batch failed out of 2" |
| Batch.FailMessageThreeOfFifty | src/batch.ts:61 | three failures out of fifty give "3 batch failed out of 50" |
| Batch.RunAndValidate | src/batch.ts:87-88 | one chunk's outcome: the reply when the call succeeds with no failed item, the sanitised axios error when the call fails, and the batch error when items failed |
| Batch.TraverseWidened | src/subscribers.ts:155 | widening each encoder error to a pipeline error before the traversal is the same as widening the traversal's error |
| Batch.BatchList | src/batch.ts:71-81 | nothing is sent exactly when some element fails to encode, and the result is the first such error; otherwise exactly one batch holds every encoded item in input order, and the result is that batch's validated outcome |
| Batch.BatchListInChunks | src/batch.ts:84-98 | `batchListInChunks` as a pipeline; it carries no contract of its own, and RunInChunks with ChunkedEncodeFailure, ChunkedEmpty, ChunkedSubmissions, ChunkedSuccess and ChunkedShortCircuit state its behaviour |
| Batch.ChunkedEncodeFailure | src/batch.ts:89-93 | the first element that fails to encode decides the result, and no chunk is sent |
| Batch.ChunkedEmpty | src/batch.ts:84-98 | an empty list sends nothing and succeeds with no responses |
| Batch.ChunkedSubmissions | src/batch.ts:89-95 | the chunks sent are the leading chunks of the items, in order, at most ceil(n / chunkLength) of them; each holds 1 to chunkLength items, exactly chunkLength except the final chunk |
| Batch.ChunkedSuccess | src/batch.ts:89-97 | a successful run sent all items, in order, in exactly ceil(n / chunkLength) chunks, and returns one validated reply per chunk, none with failed items |
| Batch.ChunkedShortCircuit | src/batch.ts:94-96 | a failed run stopped at the last chunk it sent: that chunk failed with the returned error, every earlier chunk succeeded, and no later chunk was sent |
| Batch.RunInChunks | src/batch.ts:84-98 | the pipeline written as loops returns the same result and sends the same chunks, every one of 1 to chunkLength items and all but the last exactly chunkLength |
| Subscribers.UpsertBatch | src/subscribers.ts:132-134 | `POST api/subscribers` with the subscriber as body, or the stringify error |
| Subscribers.FetchBatch | src/subscribers.ts:188-190 | `GET api/subscribers/<id>` with the params as body, or the stringify error |
| Subscribers.DelBatch | src/subscribers.ts:215-217 | `DELETE api/subscribers/<id>` with the params as body, or the stringify error |
| Subscribers.UpsertEncoding | src/subscribers.ts:155 | every subscriber encodes to its own upsert item, in input order |
| Subscribers.UpsertList | src/subscribers.ts:149-163 | `upsertList` with its pipeline written out; it carries no contract of its own, and UpsertListIsBatchListInChunks, UpsertListChunking, UpsertListEncodeFailure and UpsertListShortCircuit state its behaviour |
| Subscribers.UpsertListIsBatchListInChunks | src/subscribers.ts:149-163 | `upsertList` behaves as `batchListInChunks` with chunks of 50 and the upsert encoder |
| Subscribers.UpsertListEncodeFailure | src/subscribers.ts:153-157 | when the encoder fails, the first subscriber's error is returned and no batch is sent |
| Subscribers.UpsertListChunking | src/subscribers.ts:149-163 | each batch sent holds 1 to 50 upserts, exactly 50 except the final one; there are at most ceil(n / 50) batches, and together they hold the upserts in input order; a successful run sent all of them in exactly ceil(n / 50) batches, one reply per batch |
| Subscribers.UpsertListShortCircuit | src/subscribers.ts:158-160 | a failed run sent the leading chunks of 50 up to the last batch it sent, which failed with the returned error after every earlier batch succeeded; no later chunk was sent |
| Subscribers.UpsertListScenario | src/subscribers.ts:149-163 | 125 subscribers go out in batches of 50, 50 and 25; when the second batch reports 3 of 50 failed, the run returns "3 batch failed out of 50" and the third batch is never sent |
| Fields.CreateFieldBatch | src/fields.ts:124 | `POST api/fields` with the field as body, or the stringify error |
| Fields.DelFieldBatch | src/fields.ts:172-173 | `DELETE api/fields/<id>` with the params as body, or the stringify error |
| Fields.CreateList | src/fields.ts:123-126 | `createList`; it carries no contract of its own, and CreateListOneBatch and CreateListEncodeFailure state its behaviour |
| Fields.DelFields | src/fields.ts:171-176 | `delFields`; it carries no contract of its own, and DelFieldsOneBatch and DelFieldsEncodeFailure state its behaviour |
| Fields.CreateListOneBatch | src/fields.ts:123-126 | `createList` sends one batch of every field's item in input order, even for an empty list, and reports that batch's validated outcome |
| Fields.DelFieldsOneBatch | src/fields.ts:171-176 | `delFields` sends one batch of every id's item in input order, even for an empty list, and reports that batch's validated outcome |
| Fields.CreateListEncodeFailure | src/fields.ts:123-126 | when the encoder fails, `createList` returns the first field's error and sends nothing |
| Fields.DelFieldsEncodeFailure | src/fields.ts:171-176 | when the encoder fails, `delFields` returns the first id's error and sends nothing |

## Left out

- The HTTP layer is the `Transport` parameter: `fpAxios`, `makeAxiosRequest` (token header, base URL, JSON content type) and the `{requests: reqs}` payload. The model states which item lists reach the call, not how it is encoded.
- `qs.stringify` is the `Stringify` parameter. Its handling of nested objects, arrays and `encode: false` is not modelled.
- The single-call operations (`mlRequest`, `upsert`, `fetch`, `del`, `list`, `create`, `update`) and all of `src/groups.ts` are outside the batching core.
- `src/batch.ts` imports `ExternalError` and `MlError` from `./config` and `makeExternalError` from `./utils`, but neither `src/config.ts` nor `src/utils.ts` defines any of the three. `ExternalError` records the three arguments `mlBatch` passes, and any classification inside `makeExternalError` is not modelled.
- `config.ts` and `index.ts` (configuration and re-exports) carry no behaviour to model.
- Promises, tasks and timeouts are not modelled. `TaskEither` runs as an ordinary function, and the sequencing of chunk calls shows up as the order of the `submitted` list.
- The `Transport` parameter is a function of the submitted items alone. Two identical chunks in one run therefore get identical replies, and server state changed by earlier chunks is not modelled.
- Utils.CleanedUpAxiosError: the source mutates the error in place and returns the same object. The model returns a new value, so aliasing of the caller's error is not modelled.
- Utils.CleanedUpAxiosError: the response headers are kept, exactly as the code keeps them; only request and config objects are removed.
- Decimal.Show: renders integers only. JavaScript numbers that are not integers, or whose magnitude is 1e21 or more, print differently and are not modelled.
- Batch.BatchListInChunks requires `chunkLength >= 1`. The source does not check this, and fp-ts's own treatment of a smaller length is library behaviour that is not modelled.
- An absent field and a `null` field of the parameter records are both `None`. Custom subscriber fields are string pairs, and the remaining record fields the API accepts are not modelled.
- Subscribers.UpsertBatch, Subscribers.FetchBatch, Subscribers.DelBatch, Fields.CreateFieldBatch, Fields.DelFieldBatch: the exact item is stated only for a stringify that maps absent params to the empty query. For any other stringify outcome, `Utils.MlBatch` states the result.
- Batch.RunAndValidate, Batch.ValidateBatch: `failed` and `total` are integers. A non-integral or `NaN` count in a reply is not modelled.
