/** src/subscribers.ts: the batch-item encoders for subscribers and
    `upsertList`, which upserts any number of subscribers in batches of 50. */
module Subscribers {
  import opened Fp
  import opened Utils
  import opened Batch

  datatype Status = Active | Unsubscribed | Unconfirmed | Bounced | Junk

  /** `IUpsertParams`; an absent field and a `null` one are both `None`, and
      the standard and custom subscriber fields are name/value pairs. */
  datatype UpsertParams = UpsertParams(
    email: string,
    fields: Option<map<string, string>>,
    groups: Option<seq<string>>,
    status: Option<Status>,
    subscribedAt: Option<string>,
    ipAddress: Option<string>,
    optedInAt: Option<string>,
    optinIp: Option<string>,
    unsubscribedAt: Option<string>)

  /** `IFetchParams`: a subscriber id or email. */
  datatype FetchParams = FetchParams(id: string)

  /** `IDelParams`: a subscriber id or email. */
  datatype DelParams = DelParams(id: string)

  const SubscribersUrl := "api/subscribers"

  /** The batch endpoint takes at most 50 sub-requests per call. */
  const BatchLimit: nat := 50

  /** `upsertBatch`: `POST api/subscribers` with the subscriber as body. */
  function UpsertBatch(stringify: Stringify, params: UpsertParams): (r: Either<JsError, BatchRequest<UpsertParams>>)
    ensures AbsentParamsGiveEmptyQuery(stringify) ==> r == Right(BatchRequest(POST, "api/subscribers", Some(params)))
    ensures stringify(None).Left? ==> r == Left(stringify(None).left)
  {
    Utils.MlBatch(stringify, RequestOpts(POST, None, Some(params)), SubscribersUrl)
  }

  /** `fetchBatch`: `GET api/subscribers/<id>` with the params as body. */
  function FetchBatch(stringify: Stringify, params: FetchParams): (r: Either<JsError, BatchRequest<FetchParams>>)
    ensures AbsentParamsGiveEmptyQuery(stringify) ==> r == Right(BatchRequest(GET, "api/subscribers/" + params.id, Some(params)))
    ensures stringify(None).Left? ==> r == Left(stringify(None).left)
  {
    Utils.MlBatch(stringify, RequestOpts(GET, None, Some(params)), "api/subscribers/" + params.id)
  }

  /** `delBatch`: `DELETE api/subscribers/<id>` with the params as body. */
  function DelBatch(stringify: Stringify, params: DelParams): (r: Either<JsError, BatchRequest<DelParams>>)
    ensures AbsentParamsGiveEmptyQuery(stringify) ==> r == Right(BatchRequest(DELETE, "api/subscribers/" + params.id, Some(params)))
    ensures stringify(None).Left? ==> r == Left(stringify(None).left)
  {
    Utils.MlBatch(stringify, RequestOpts(DELETE, None, Some(params)), "api/subscribers/" + params.id)
  }

  function UpsertBatchFn(stringify: Stringify): UpsertParams -> Either<JsError, BatchRequest<UpsertParams>>
  {
    params => UpsertBatch(stringify, params)
  }

  /** The items `upsertList` sends when encoding succeeds: one upsert per
      subscriber, in input order. */
  function UpsertItems(subscriberList: seq<UpsertParams>): seq<BatchRequest<UpsertParams>>
  {
    seq(|subscriberList|, i requires 0 <= i < |subscriberList| => BatchRequest(POST, SubscribersUrl, Some(subscriberList[i])))
  }

  /** `upsertList`, with its pipeline written out: encode every subscriber
      (the first `Error` wins, nothing is sent), cut the items into chunks
      of 50 and run them in order, stopping at the first failing chunk. */
  function UpsertList<R>(stringify: Stringify, post: Transport<UpsertParams, R>, subscriberList: seq<UpsertParams>)
    : Traced<seq<BatchResponse<R>>, UpsertParams, R>
  {
    match Traverse(UpsertBatchFn(stringify), subscriberList)
    case Left(e) => Logged(Left(PlainError(e)), [])
    case Right(reqs) => SequenceSeq(Runner(post), ChunksOf(reqs, BatchLimit))
  }

  /** `upsertList` is `batchListInChunks` with chunks of 50 and the
      `upsertBatch` encoder. */
  lemma UpsertListIsBatchListInChunks<R>(stringify: Stringify, post: Transport<UpsertParams, R>, subscriberList: seq<UpsertParams>)
    ensures UpsertList(stringify, post, subscriberList)
            == BatchListInChunks(post, BatchLimit, subscriberList, Widened(UpsertBatchFn(stringify)))
  {
    TraverseWidened<UpsertParams, UpsertParams, R>(UpsertBatchFn(stringify), subscriberList);
  }

  /** With the encoder succeeding, the items are the subscribers' upserts. */
  lemma UpsertEncoding(stringify: Stringify, subscriberList: seq<UpsertParams>)
    requires AbsentParamsGiveEmptyQuery(stringify)
    ensures Traverse(UpsertBatchFn(stringify), subscriberList) == Right(UpsertItems(subscriberList))
  {
    var t := Traverse(UpsertBatchFn(stringify), subscriberList);
    assert forall i :: 0 <= i < |subscriberList| ==> UpsertBatchFn(stringify)(subscriberList[i]).Right?;
    assert t.right == UpsertItems(subscriberList);
  }

  /** A failing encoder: its error is returned and nothing is sent. */
  lemma UpsertListEncodeFailure<R>(stringify: Stringify, post: Transport<UpsertParams, R>, subscriberList: seq<UpsertParams>)
    requires stringify(None).Left? && |subscriberList| > 0
    ensures UpsertList(stringify, post, subscriberList) == Logged(Left(PlainError(stringify(None).left)), [])
  {
    assert UpsertBatchFn(stringify)(subscriberList[0]).Left?;
  }

  /** The batches `upsertList` sends: at most 50 subscribers each, exactly 50
      except the final one, never more than ceil(n / 50) batches, and
      together the subscribers' upserts in input order, all of them when the
      whole run succeeds. */
  lemma UpsertListChunking<R>(stringify: Stringify, post: Transport<UpsertParams, R>, subscriberList: seq<UpsertParams>)
    requires AbsentParamsGiveEmptyQuery(stringify)
    ensures var r := UpsertList(stringify, post, subscriberList);
            var chunks := ChunksOf(UpsertItems(subscriberList), BatchLimit);
            && WellChunked(r.submitted, BatchLimit)
            && (forall j :: 0 <= j < |r.submitted| ==> |r.submitted[j]| == BatchLimit || j == |chunks| - 1)
            && |r.submitted| <= CeilDiv(|subscriberList|, BatchLimit)
            && Flatten(r.submitted) <= UpsertItems(subscriberList)
            && (r.result.Right? ==>
                  && Flatten(r.submitted) == UpsertItems(subscriberList)
                  && |r.submitted| == CeilDiv(|subscriberList|, BatchLimit)
                  && |r.result.right| == |r.submitted|)
  {
    var fn := Widened<UpsertParams, UpsertParams, R>(UpsertBatchFn(stringify));
    UpsertListIsBatchListInChunks(stringify, post, subscriberList);
    UpsertEncoding(stringify, subscriberList);
    TraverseWidened<UpsertParams, UpsertParams, R>(UpsertBatchFn(stringify), subscriberList);
    ChunkedSubmissions(post, BatchLimit, subscriberList, fn);
    if UpsertList(stringify, post, subscriberList).result.Right? {
      ChunkedSuccess(post, BatchLimit, subscriberList, fn);
    }
  }

  /** A failing run of `upsertList` stopped at the last batch it sent: that
      batch failed with the returned error and every earlier one succeeded. */
  lemma UpsertListShortCircuit<R>(stringify: Stringify, post: Transport<UpsertParams, R>, subscriberList: seq<UpsertParams>)
    requires AbsentParamsGiveEmptyQuery(stringify)
    requires UpsertList(stringify, post, subscriberList).result.Left?
    ensures var r := UpsertList(stringify, post, subscriberList);
            var last := |r.submitted| - 1;
            && |r.submitted| >= 1
            && RunAndValidate(post, r.submitted[last]) == Left(r.result.left)
            && (forall j :: 0 <= j < last ==> RunAndValidate(post, r.submitted[j]).Right?)
            && r.submitted <= ChunksOf(UpsertItems(subscriberList), BatchLimit)
  {
    var fn := Widened<UpsertParams, UpsertParams, R>(UpsertBatchFn(stringify));
    UpsertListIsBatchListInChunks(stringify, post, subscriberList);
    UpsertEncoding(stringify, subscriberList);
    TraverseWidened<UpsertParams, UpsertParams, R>(UpsertBatchFn(stringify), subscriberList);
    ChunkedShortCircuit(post, BatchLimit, subscriberList, fn);
  }

  /** 125 subscribers make batches of 50, 50 and 25; when the second batch
      comes back with 3 of 50 failed, the run returns that batch error and
      the third batch is never sent. */
  lemma UpsertListScenario<R>(stringify: Stringify, post: Transport<UpsertParams, R>, subscriberList: seq<UpsertParams>)
    requires AbsentParamsGiveEmptyQuery(stringify)
    requires |subscriberList| == 125
    requires var chunks := ChunksOf(UpsertItems(subscriberList), BatchLimit);
             && |chunks| >= 2
             && post(chunks[0]).Right? && post(chunks[0]).right.data.failed == 0
             && post(chunks[1]).Right? && post(chunks[1]).right.data.failed == 3 && post(chunks[1]).right.data.total == 50
    ensures var chunks := ChunksOf(UpsertItems(subscriberList), BatchLimit);
            && |chunks| == 3 && |chunks[0]| == 50 && |chunks[1]| == 50 && |chunks[2]| == 25
            && UpsertList(stringify, post, subscriberList)
               == Logged(Left(BatchError(BatchFailure("3 batch failed out of 50", post(chunks[1]).right.data))), chunks[..2])
  {
    var chunks := ChunksOf(UpsertItems(subscriberList), BatchLimit);
    ChunkCount(UpsertItems(subscriberList), BatchLimit);
    assert |Flatten(chunks)| == 125;
    assert Flatten(chunks) == chunks[0] + chunks[1] + chunks[2] + Flatten(chunks[3..]);
    UpsertEncoding(stringify, subscriberList);
    FailMessageThreeOfFifty();
    SequenceStopsAtFailure(Runner(post), chunks, 1);
  }
}
