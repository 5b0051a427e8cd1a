/** src/batch.ts: encoding a request as a batch item, submitting one batch,
    validating its outcome, and running a whole list as one batch or as a
    sequence of chunks. */
module Batch {
  import opened Fp
  import opened Decimal
  import opened Utils

  /** `makeExternalError(cause, message, {opts})`, recording its three
      arguments. */
  datatype ExternalError<B> = ExternalError(message: string, opts: RequestOpts<B>, cause: JsError)

  /** The `BatchError` kind of `MlError`: a batch that came back with
      `failed > 0`, and the whole reply. */
  datatype BatchFailure<R> = BatchFailure(message: string, data: BatchResponse<R>)

  /** The errors the pipeline returns (`MlError` and the plain `Error` of the
      first-version encoders). */
  datatype MlError<B, R> =
    | PlainError(error: JsError)
    | External(external: ExternalError<B>)
      /** a failed batch call, after `cleanedUpAxiosError` */
    | AxiosFailure(axiosError: AxiosError<BatchResponse<R>>)
    | BatchError(failure: BatchFailure<R>)

  /** The single HTTP call to `api/batch`, `POST {requests: reqs}`, with the
      configuration already applied: the axios response or the axios error. */
  type Transport<!B, R> = seq<BatchRequest<B>> -> Either<AxiosError<BatchResponse<R>>, AxiosResponse<BatchResponse<R>>>

  /** A run of the pipeline: its result and, in order, every list of items
      handed to the transport. */
  type Traced<A, B, R> = Logged<MlError<B, R>, A, seq<BatchRequest<B>>>

  const StringifyErrorMessage := "Error while stringifying params"

  /** `mlBatch`: like the first version, but a stringify failure is wrapped in
      an external error that carries the request options. */
  function MlBatch<B>(stringify: Stringify, opts: RequestOpts<B>, apiUrl: string): (r: Either<ExternalError<B>, BatchRequest<B>>)
    ensures r.Left? <==> stringify(opts.params).Left?
    ensures r.Left? ==> r.left == ExternalError(StringifyErrorMessage, opts, stringify(opts.params).left)
    ensures r.Right? ==> r.right.httpMethod == opts.httpMethod && r.right.body == opts.data
    ensures r.Right? ==> SplitQuery(apiUrl, r.right.path) == Some(stringify(opts.params).right)
  {
    match stringify(opts.params)
    case Left(e) => Left(ExternalError(StringifyErrorMessage, opts, e))
    case Right(p) =>
      QueryRoundTrip(apiUrl, p, apiUrl);
      Right(BatchRequest(opts.httpMethod, WithQuery(apiUrl, p), opts.data))
  }

  /** Both versions of `mlBatch` build the same item; they differ only in how
      the stringify error is reported. */
  lemma MlBatchVersionsAgree<B>(stringify: Stringify, opts: RequestOpts<B>, apiUrl: string)
    ensures Utils.MlBatch(stringify, opts, apiUrl).Right? <==> MlBatch(stringify, opts, apiUrl).Right?
    ensures Utils.MlBatch(stringify, opts, apiUrl).Right? ==>
              Utils.MlBatch(stringify, opts, apiUrl).right == MlBatch(stringify, opts, apiUrl).right
    ensures Utils.MlBatch(stringify, opts, apiUrl).Left? ==>
              MlBatch(stringify, opts, apiUrl).left
              == ExternalError(StringifyErrorMessage, opts, Utils.MlBatch(stringify, opts, apiUrl).left)
  {
    var legacy := Utils.MlBatch(stringify, opts, apiUrl);
    var current := MlBatch(stringify, opts, apiUrl);
    if legacy.Right? {
      var p := stringify(opts.params).right;
      QueryRoundTrip(apiUrl, p, legacy.right.path);
      QueryRoundTrip(apiUrl, p, current.right.path);
    }
  }

  /** `runBatch`: one call of the transport; a failure is sanitised, a
      success yields the response payload unchanged. */
  function RunBatch<B, R>(post: Transport<B, R>, reqs: seq<BatchRequest<B>>): (r: Either<MlError<B, R>, BatchResponse<R>>)
    ensures r.Right? <==> post(reqs).Right?
    ensures r.Right? ==> r.right == post(reqs).right.data
    ensures r.Left? ==> r.left.AxiosFailure? && Sanitised(r.left.axiosError)
    ensures r.Left? ==> SameDiagnostics(post(reqs).left, r.left.axiosError)
  {
    match post(reqs)
    case Left(e) => Left(AxiosFailure(CleanedUpAxiosError(e)))
    case Right(resp) => Right(resp.data)
  }

  /** The literal message of a batch error. */
  function FailMessage(failed: int, total: int): string
  {
    Show(failed) + " batch failed out of " + Show(total)
  }

  /** Index of the first space of `s`, or `|s|`. */
  function SpaceIndex(s: string): (k: nat)
    ensures k <= |s|
    ensures forall i :: 0 <= i < k ==> s[i] != ' '
    ensures k < |s| ==> s[k] == ' '
    decreases |s|
  {
    if |s| == 0 || s[0] == ' ' then 0
    else
      var k := SpaceIndex(s[1..]);
      assert forall i :: 1 <= i < k + 1 ==> s[i] == s[1..][i - 1];
      1 + k
  }

  /** Reads the two counts back out of a batch error message. */
  function ParseFailMessage(msg: string): Option<(int, int)>
  {
    var k := SpaceIndex(msg);
    var sep := " batch failed out of ";
    if !(sep <= msg[k..]) then None
    else
      match (Read(msg[..k]), Read(msg[k + |sep|..]))
      case (Some(failed), Some(total)) => Some((failed, total))
      case _ => None
  }

  lemma SpaceIndexAt(s: string, j: nat)
    requires j < |s| && s[j] == ' '
    requires forall i :: 0 <= i < j ==> s[i] != ' '
    ensures SpaceIndex(s) == j
  {
  }

  /** The message names both counts unambiguously. */
  lemma FailMessageRoundTrip(failed: int, total: int)
    ensures ParseFailMessage(FailMessage(failed, total)) == Some((failed, total))
  {
    var head, tail := Show(failed), Show(total);
    var sep := " batch failed out of ";
    var msg := head + sep + tail;
    assert msg == FailMessage(failed, total);
    assert msg[|head|] == ' ';
    assert forall i :: 0 <= i < |head| ==> msg[i] == head[i];
    SpaceIndexAt(msg, |head|);
    assert msg[..|head|] == head;
    assert msg[|head|..] == sep + tail;
    assert msg[|head| + |sep|..] == tail;
    ReadShow(failed);
    ReadShow(total);
  }

  /** `validateBatch`: a batch with failed items becomes a `BatchError`
      carrying the whole response; any other batch passes unchanged. */
  function ValidateBatch<R>(b: BatchResponse<R>): (r: Either<BatchFailure<R>, BatchResponse<R>>)
    ensures r.Left? <==> b.failed > 0
    ensures r.Right? ==> r.right == b
    ensures r.Left? ==> r.left.data == b
    ensures r.Left? ==> r.left.message == FailMessage(b.failed, b.total)
    ensures r.Left? ==> ParseFailMessage(r.left.message) == Some((b.failed, b.total))
  {
    if b.failed > 0 then
      FailMessageRoundTrip(b.failed, b.total);
      Left(BatchFailure(FailMessage(b.failed, b.total), b))
    else Right(b)
  }

  /** The messages the library's tests expect. */
  lemma FailMessageTwoOfTwo()
    ensures FailMessage(2, 2) == "2 batch failed out of 2"
  {
    assert Show(2) == "2";
  }

  lemma FailMessageOneOfTwo()
    ensures FailMessage(1, 2) == "1 batch failed out of 2"
  {
    assert Show(1) == "1";
    assert Show(2) == "2";
  }

  lemma FailMessageThreeOfFifty()
    ensures FailMessage(3, 50) == "3 batch failed out of 50"
  {
    assert Show(3) == "3";
    assert ShowNat(50) == ShowNat(5) + [DigitChar(0)];
  }

  /** `runAndValidateBatch`: submit one batch, then validate it. */
  function RunAndValidate<B, R>(post: Transport<B, R>, reqs: seq<BatchRequest<B>>): (r: Either<MlError<B, R>, BatchResponse<R>>)
    ensures r.Right? <==> post(reqs).Right? && post(reqs).right.data.failed <= 0
    ensures r.Right? ==> r.right == post(reqs).right.data
    ensures post(reqs).Left? ==> r == Left(AxiosFailure(CleanedUpAxiosError(post(reqs).left)))
    ensures post(reqs).Right? && post(reqs).right.data.failed > 0 ==>
              r == Left(BatchError(BatchFailure(FailMessage(post(reqs).right.data.failed, post(reqs).right.data.total), post(reqs).right.data)))
  {
    match RunBatch(post, reqs)
    case Left(e) => Left(e)
    case Right(b) =>
      match ValidateBatch(b)
      case Left(failure) => Left(BatchError(failure))
      case Right(valid) => Right(valid)
  }

  /** `RunAndValidate` as a function value, for traversals over chunks. */
  function Runner<B, R>(post: Transport<B, R>): seq<BatchRequest<B>> -> Either<MlError<B, R>, BatchResponse<R>>
  {
    reqs => RunAndValidate(post, reqs)
  }

  /** The plain `Error` of a first-version encoder, as a pipeline error. */
  function Widen<V, B, R>(e: Either<JsError, V>): Either<MlError<B, R>, V>
  {
    match e
    case Left(err) => Left(PlainError(err))
    case Right(req) => Right(req)
  }

  function Widened<T, B, R>(fn: T -> Either<JsError, BatchRequest<B>>): T -> Either<MlError<B, R>, BatchRequest<B>>
  {
    x => Widen<BatchRequest<B>, B, R>(fn(x))
  }

  /** Widening each element's error before the traversal is the same as
      widening the traversal's error. */
  lemma TraverseWidened<T, B, R>(fn: T -> Either<JsError, BatchRequest<B>>, xs: seq<T>)
    ensures Traverse(Widened<T, B, R>(fn), xs) == Widen<seq<BatchRequest<B>>, B, R>(Traverse(fn, xs))
  {
    var wide := Widened<T, B, R>(fn);
    assert forall i :: 0 <= i < |xs| ==> wide(xs[i]).Right? == fn(xs[i]).Right?;
    var k := FirstLeft(fn, xs);
    FirstLeftUnique(wide, xs, k);
    var t := Traverse(wide, xs);
    if t.Right? {
      assert t.right == Traverse(fn, xs).right;
    }
  }

  /** `batchList`: encode every element (first failure wins, nothing is
      sent), then submit all the items as one batch and validate it. */
  function BatchList<T, B, R>(post: Transport<B, R>, list: seq<T>, fn: T -> Either<MlError<B, R>, BatchRequest<B>>)
    : (r: Traced<BatchResponse<R>, B, R>)
    ensures FirstLeft(fn, list) < |list| <==> r.submitted == []
    ensures r.submitted == [] ==> r.result == Left(fn(list[FirstLeft(fn, list)]).left)
    ensures r.submitted != [] ==> |r.submitted| == 1 && |r.submitted[0]| == |list|
    ensures r.submitted != [] ==> forall i :: 0 <= i < |list| ==> r.submitted[0][i] == fn(list[i]).right
    ensures r.submitted != [] ==> r.result == RunAndValidate(post, r.submitted[0])
  {
    match Traverse(fn, list)
    case Left(e) => Logged(Left(e), [])
    case Right(reqs) => Logged(RunAndValidate(post, reqs), [reqs])
  }

  /** `batchListInChunks`: encode every element (first failure wins, nothing
      is sent), cut the items into chunks of `chunkLength` and run them in
      order, stopping at the first chunk that fails. */
  function BatchListInChunks<T, B, R>(post: Transport<B, R>, chunkLength: nat, list: seq<T>, fn: T -> Either<MlError<B, R>, BatchRequest<B>>)
    : (r: Traced<seq<BatchResponse<R>>, B, R>)
    requires chunkLength >= 1
  {
    match Traverse(fn, list)
    case Left(e) => Logged(Left(e), [])
    case Right(reqs) => SequenceSeq(Runner(post), ChunksOf(reqs, chunkLength))
  }

  /** An element that fails to encode: its error is the result and no batch
      is sent. */
  lemma ChunkedEncodeFailure<T, B, R>(post: Transport<B, R>, chunkLength: nat, list: seq<T>, fn: T -> Either<MlError<B, R>, BatchRequest<B>>, k: nat)
    requires chunkLength >= 1
    requires k < |list| && fn(list[k]).Left?
    requires forall i :: 0 <= i < k ==> fn(list[i]).Right?
    ensures BatchListInChunks(post, chunkLength, list, fn) == Logged(Left(fn(list[k]).left), [])
  {
  }

  /** An empty list sends nothing and yields no responses. */
  lemma ChunkedEmpty<T, B, R>(post: Transport<B, R>, chunkLength: nat, fn: T -> Either<MlError<B, R>, BatchRequest<B>>)
    requires chunkLength >= 1
    ensures BatchListInChunks(post, chunkLength, [], fn) == Logged(Right([]), [])
  {
  }

  /** Once every element is encoded, the chunks sent are the leading chunks
      of the chunking: each non-empty, at most `chunkLength` long, exactly
      that long except the final chunk, and together a prefix of the items. */
  lemma ChunkedSubmissions<T, B, R>(post: Transport<B, R>, chunkLength: nat, list: seq<T>, fn: T -> Either<MlError<B, R>, BatchRequest<B>>)
    requires chunkLength >= 1
    requires Traverse(fn, list).Right?
    ensures var r := BatchListInChunks(post, chunkLength, list, fn);
            var chunks := ChunksOf(Traverse(fn, list).right, chunkLength);
            && r.submitted == chunks[..|r.submitted|]
            && |r.submitted| <= CeilDiv(|list|, chunkLength)
            && WellChunked(r.submitted, chunkLength)
            && (forall j :: 0 <= j < |r.submitted| ==> |r.submitted[j]| == chunkLength || j == |chunks| - 1)
            && Flatten(r.submitted) <= Traverse(fn, list).right
  {
    var reqs := Traverse(fn, list).right;
    var chunks := ChunksOf(reqs, chunkLength);
    var r := BatchListInChunks(post, chunkLength, list, fn);
    ChunkCount(reqs, chunkLength);
    FlattenPrefix(chunks, |r.submitted|);
  }

  /** A run that succeeds sent every chunk, ceil(n / chunkLength) of them,
      which together are all the items in input order, and returns one
      validated response per chunk, in chunk order. */
  lemma ChunkedSuccess<T, B, R>(post: Transport<B, R>, chunkLength: nat, list: seq<T>, fn: T -> Either<MlError<B, R>, BatchRequest<B>>)
    requires chunkLength >= 1
    requires BatchListInChunks(post, chunkLength, list, fn).result.Right?
    ensures var r := BatchListInChunks(post, chunkLength, list, fn);
            && Traverse(fn, list).Right?
            && Flatten(r.submitted) == Traverse(fn, list).right
            && |r.submitted| == CeilDiv(|list|, chunkLength)
            && |r.result.right| == |r.submitted|
            && (forall j :: 0 <= j < |r.submitted| ==> RunAndValidate(post, r.submitted[j]) == Right(r.result.right[j]))
            && (forall j :: 0 <= j < |r.result.right| ==> r.result.right[j].failed <= 0)
  {
    var r := BatchListInChunks(post, chunkLength, list, fn);
    assert Traverse(fn, list).Right?;
    var reqs := Traverse(fn, list).right;
    var chunks := ChunksOf(reqs, chunkLength);
    assert r == SequenceSeq(Runner(post), chunks);
    assert Traverse(Runner(post), chunks).Right?;
    assert FirstLeft(Runner(post), chunks) == |chunks|;
    assert r.submitted == chunks;
    ChunkCount(reqs, chunkLength);
  }

  /** A run that fails after encoding stopped at the last chunk it sent: that
      chunk failed with the returned error, every earlier chunk succeeded,
      and no later chunk was sent. */
  lemma ChunkedShortCircuit<T, B, R>(post: Transport<B, R>, chunkLength: nat, list: seq<T>, fn: T -> Either<MlError<B, R>, BatchRequest<B>>)
    requires chunkLength >= 1
    requires Traverse(fn, list).Right?
    requires BatchListInChunks(post, chunkLength, list, fn).result.Left?
    ensures var r := BatchListInChunks(post, chunkLength, list, fn);
            var last := |r.submitted| - 1;
            && |r.submitted| >= 1
            && RunAndValidate(post, r.submitted[last]) == Left(r.result.left)
            && (forall j :: 0 <= j < last ==> RunAndValidate(post, r.submitted[j]).Right?)
            && r.submitted == ChunksOf(Traverse(fn, list).right, chunkLength)[..last + 1]
  {
  }

  /** `batchListInChunks` with ordinary sequential control flow: it agrees
      with the pipeline on the result and on the chunks sent. */
  method RunInChunks<T, B, R>(post: Transport<B, R>, chunkLength: nat, list: seq<T>, fn: T -> Either<MlError<B, R>, BatchRequest<B>>)
    returns (result: Either<MlError<B, R>, seq<BatchResponse<R>>>, submitted: seq<seq<BatchRequest<B>>>)
    requires chunkLength >= 1
    ensures Logged(result, submitted) == BatchListInChunks(post, chunkLength, list, fn)
    ensures WellChunked(submitted, chunkLength)
  {
    var encoded := TraverseLoop(fn, list);
    if encoded.Left? {
      return Left(encoded.left), [];
    }
    var chunks := ChunksOf(encoded.right, chunkLength);
    result, submitted := ChunkedLoop(Runner(post), chunkLength, encoded.right);
    if result.Left? {
      StopAtLast(Runner(post), chunks, submitted);
    } else {
      SequenceAllSucceed(Runner(post), chunks, result.right);
    }
  }
}
