/** src/utils.ts: the wire shapes of a batch, the axios error record and its
    sanitiser, and the first version of the batch-item encoder `mlBatch`. */
module Utils {
  import opened Fp

  /** `xhrMeth` */
  datatype Method = GET | POST | PUT | PATCH | DELETE

  /** Query parameters handed to `qs.stringify`; never inspected here. */
  type Params = map<string, string>

  /** A JavaScript `Error` value (what `E.toError` makes of a thrown value). */
  datatype JsError = JsError(name: string, message: string)

  /** `qs.stringify(params, {encode: false})` behind `E.tryCatch`: the query
      string, or the error it threw. `None` stands for absent params. */
  type Stringify = Option<Params> -> Either<JsError, string>

  /** What `qs.stringify` does with absent params: an empty query string. */
  predicate AbsentParamsGiveEmptyQuery(stringify: Stringify)
  {
    stringify(None) == Right("")
  }

  /** `IRequestOpts`, with the body (`data`) of type `B`. */
  datatype RequestOpts<B> = RequestOpts(httpMethod: Method, params: Option<Params>, data: Option<B>)

  /** `IBatchRequest`: one sub-request of a batch. */
  datatype BatchRequest<B> = BatchRequest(httpMethod: Method, path: string, body: Option<B>)

  datatype ItemResponse<R> = ItemResponse(code: int, body: R)

  /** `IBatchResponse`: the decoded reply of the batch endpoint. */
  datatype BatchResponse<R> = BatchResponse(total: int, successful: int, failed: int, responses: seq<ItemResponse<R>>)

  /** A JavaScript slot that holds `null`, `undefined` or some object (the
      request, the resolved config, the headers) opaque to this model. */
  datatype Ref = Null | Undefined | Object(id: nat)

  datatype AxiosResponse<D> = AxiosResponse(data: D, status: int, statusText: string, headers: Ref, config: Ref, request: Ref)

  datatype AxiosError<D> = AxiosError(
    name: string,
    message: string,
    code: Option<string>,
    isAxiosError: bool,
    config: Ref,
    request: Ref,
    response: Option<AxiosResponse<D>>)

  /** The fields `cleanedUpAxiosError` keeps: everything but the outbound
      request, the config and the response's own request. */
  ghost predicate SameDiagnostics<D>(a: AxiosError<D>, b: AxiosError<D>)
  {
    && a.name == b.name
    && a.message == b.message
    && a.code == b.code
    && a.isAxiosError == b.isAxiosError
    && a.response.Some? == b.response.Some?
    && (a.response.Some? ==>
          && a.response.value.data == b.response.value.data
          && a.response.value.status == b.response.value.status
          && a.response.value.statusText == b.response.value.statusText
          && a.response.value.headers == b.response.value.headers
          && a.response.value.config == b.response.value.config)
  }

  /** No connection-level object is left to log or serialise. */
  ghost predicate Sanitised<D>(e: AxiosError<D>)
  {
    && e.request == Null
    && e.config == Undefined
    && (e.response.Some? ==> e.response.value.request == Null)
  }

  /** `cleanedUpAxiosError`: drops the outbound request and the config, and
      the response's request when there is a response. */
  function CleanedUpAxiosError<D>(err: AxiosError<D>): (r: AxiosError<D>)
    ensures r.request == Null
    ensures r.config == Undefined
    ensures r.response.Some? <==> err.response.Some?
    ensures r.response.Some? ==> r.response.value.request == Null
    ensures SameDiagnostics(err, r)
  {
    var response := match err.response
      case None => None
      case Some(resp) => Some(resp.(request := Null));
    err.(request := Null, config := Undefined, response := response)
  }

  /** Sanitising twice changes nothing more. */
  lemma CleanedUpIdempotent<D>(err: AxiosError<D>)
    ensures CleanedUpAxiosError(CleanedUpAxiosError(err)) == CleanedUpAxiosError(err)
  {
  }

  /** Sanitising forgets exactly the connection-level fields: two errors that
      agree on the rest become equal, and a sanitised error is its own image. */
  lemma CleanedUpForgetsOnlyConnection<D>(a: AxiosError<D>, b: AxiosError<D>)
    ensures SameDiagnostics(a, b) <==> CleanedUpAxiosError(a) == CleanedUpAxiosError(b)
    ensures Sanitised(a) <==> CleanedUpAxiosError(a) == a
  {
    if CleanedUpAxiosError(a) == CleanedUpAxiosError(b) {
      assert SameDiagnostics(a, CleanedUpAxiosError(a));
      assert SameDiagnostics(b, CleanedUpAxiosError(b));
    }
  }

  /** `apiUrl + (p ? '?' + p : '')`: the query string goes after a `?`, and
      an empty one adds nothing. */
  function WithQuery(apiUrl: string, p: string): (path: string)
    ensures apiUrl <= path
    ensures p == "" <==> path == apiUrl
    ensures p != "" ==> path[|apiUrl|] == '?' && path[|apiUrl| + 1..] == p
  {
    apiUrl + (if p == "" then "" else "?" + p)
  }

  /** Recovers the query string from a path built on `apiUrl`. */
  function SplitQuery(apiUrl: string, path: string): Option<string>
  {
    if !(apiUrl <= path) then None
    else if |path| == |apiUrl| then Some("")
    else if |path| >= |apiUrl| + 2 && path[|apiUrl|] == '?' then Some(path[|apiUrl| + 1..])
    else None
  }

  /** Paths and query strings correspond one to one: no trailing `?` and no
      other shape of path is ever built. */
  lemma QueryRoundTrip(apiUrl: string, p: string, path: string)
    ensures SplitQuery(apiUrl, WithQuery(apiUrl, p)) == Some(p)
    ensures SplitQuery(apiUrl, path) == Some(p) ==> WithQuery(apiUrl, p) == path
  {
    if SplitQuery(apiUrl, path) == Some(p) && |path| > |apiUrl| {
      assert path == path[..|apiUrl|] + path[|apiUrl|..];
      assert path[|apiUrl|..] == "?" + p;
    }
  }

  /** First version of `mlBatch`: a failing stringify is returned as the plain
      `Error`, otherwise method and body are copied and the query appended. */
  function MlBatch<B>(stringify: Stringify, opts: RequestOpts<B>, apiUrl: string): (r: Either<JsError, BatchRequest<B>>)
    ensures r.Left? <==> stringify(opts.params).Left?
    ensures r.Left? ==> r.left == stringify(opts.params).left
    ensures r.Right? ==> r.right.httpMethod == opts.httpMethod && r.right.body == opts.data
    ensures r.Right? ==> SplitQuery(apiUrl, r.right.path) == Some(stringify(opts.params).right)
  {
    match stringify(opts.params)
    case Left(e) => Left(e)
    case Right(p) =>
      QueryRoundTrip(apiUrl, p, apiUrl);
      Right(BatchRequest(opts.httpMethod, WithQuery(apiUrl, p), opts.data))
  }
}
