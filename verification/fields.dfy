/** src/fields.ts: creating and deleting a list of custom fields, each list in
    one call to the batch endpoint. */
module Fields {
  import opened Fp
  import opened Utils
  import opened Batch

  /** `IField['type']` */
  datatype FieldType = Date | Text | Number

  /** `ICreateParams`: the name and type of a new field. */
  datatype CreateParams = CreateParams(name: string, fieldType: FieldType)

  /** `IDelParams`: the id of the field to delete. */
  datatype DelParams = DelParams(id: string)

  /** The item encoder of `createList`: `POST api/fields` with the field as
      body. */
  function CreateFieldBatch(stringify: Stringify, field: CreateParams): (r: Either<JsError, BatchRequest<CreateParams>>)
    ensures AbsentParamsGiveEmptyQuery(stringify) ==> r == Right(BatchRequest(POST, "api/fields", Some(field)))
    ensures stringify(None).Left? ==> r == Left(stringify(None).left)
  {
    Utils.MlBatch(stringify, RequestOpts(POST, None, Some(field)), "api/fields")
  }

  /** The item encoder of `delFields`: `DELETE api/fields/<id>` with the
      params as body. */
  function DelFieldBatch(stringify: Stringify, field: DelParams): (r: Either<JsError, BatchRequest<DelParams>>)
    ensures AbsentParamsGiveEmptyQuery(stringify) ==> r == Right(BatchRequest(DELETE, "api/fields/" + field.id, Some(field)))
    ensures stringify(None).Left? ==> r == Left(stringify(None).left)
  {
    Utils.MlBatch(stringify, RequestOpts(DELETE, None, Some(field)), "api/fields/" + field.id)
  }

  function CreateFieldBatchFn(stringify: Stringify): CreateParams -> Either<JsError, BatchRequest<CreateParams>>
  {
    field => CreateFieldBatch(stringify, field)
  }

  function DelFieldBatchFn(stringify: Stringify): DelParams -> Either<JsError, BatchRequest<DelParams>>
  {
    field => DelFieldBatch(stringify, field)
  }

  function CreateEncoder<R>(stringify: Stringify): CreateParams -> Either<MlError<CreateParams, R>, BatchRequest<CreateParams>>
  {
    Widened(CreateFieldBatchFn(stringify))
  }

  function DelEncoder<R>(stringify: Stringify): DelParams -> Either<MlError<DelParams, R>, BatchRequest<DelParams>>
  {
    Widened(DelFieldBatchFn(stringify))
  }

  /** `createList`: `batchList` over the field list with `CreateFieldBatch`. */
  function CreateList<R>(stringify: Stringify, post: Transport<CreateParams, R>, fieldList: seq<CreateParams>)
    : Traced<BatchResponse<R>, CreateParams, R>
  {
    BatchList(post, fieldList, CreateEncoder(stringify))
  }

  /** `delFields`: `batchList` over the id list with `DelFieldBatch`. */
  function DelFields<R>(stringify: Stringify, post: Transport<DelParams, R>, fieldList: seq<DelParams>)
    : Traced<BatchResponse<R>, DelParams, R>
  {
    BatchList(post, fieldList, DelEncoder(stringify))
  }

  /** The one batch `createList` sends: a `POST api/fields` per field, in order. */
  function CreateItems(fieldList: seq<CreateParams>): seq<BatchRequest<CreateParams>>
  {
    seq(|fieldList|, i requires 0 <= i < |fieldList| => BatchRequest(POST, "api/fields", Some(fieldList[i])))
  }

  /** The one batch `delFields` sends: a `DELETE api/fields/<id>` per id, in order. */
  function DelItems(fieldList: seq<DelParams>): seq<BatchRequest<DelParams>>
  {
    seq(|fieldList|, i requires 0 <= i < |fieldList| => BatchRequest(DELETE, "api/fields/" + fieldList[i].id, Some(fieldList[i])))
  }

  /** `createList` sends every field in a single batch, even an empty list,
      and reports that batch's outcome. */
  lemma CreateListOneBatch<R>(stringify: Stringify, post: Transport<CreateParams, R>, fieldList: seq<CreateParams>)
    requires AbsentParamsGiveEmptyQuery(stringify)
    ensures var r := CreateList(stringify, post, fieldList);
            && r.submitted == [CreateItems(fieldList)]
            && r.result == RunAndValidate(post, CreateItems(fieldList))
  {
    var fn := CreateEncoder<R>(stringify);
    assert forall i :: 0 <= i < |fieldList| ==> fn(fieldList[i]).Right?;
    var t := Traverse(fn, fieldList);
    assert t.right == CreateItems(fieldList);
  }

  /** `delFields` sends every id in a single batch, even an empty list, and
      reports that batch's outcome. */
  lemma DelFieldsOneBatch<R>(stringify: Stringify, post: Transport<DelParams, R>, fieldList: seq<DelParams>)
    requires AbsentParamsGiveEmptyQuery(stringify)
    ensures var r := DelFields(stringify, post, fieldList);
            && r.submitted == [DelItems(fieldList)]
            && r.result == RunAndValidate(post, DelItems(fieldList))
  {
    var fn := DelEncoder<R>(stringify);
    assert forall i :: 0 <= i < |fieldList| ==> fn(fieldList[i]).Right?;
    var t := Traverse(fn, fieldList);
    assert t.right == DelItems(fieldList);
  }

  /** A failing encoder: `createList` returns its error and sends nothing. */
  lemma CreateListEncodeFailure<R>(stringify: Stringify, post: Transport<CreateParams, R>, fieldList: seq<CreateParams>)
    requires stringify(None).Left? && |fieldList| > 0
    ensures CreateList(stringify, post, fieldList) == Logged(Left(PlainError(stringify(None).left)), [])
  {
    assert CreateEncoder<R>(stringify)(fieldList[0]).Left?;
  }

  /** A failing encoder: `delFields` returns its error and sends nothing. */
  lemma DelFieldsEncodeFailure<R>(stringify: Stringify, post: Transport<DelParams, R>, fieldList: seq<DelParams>)
    requires stringify(None).Left? && |fieldList| > 0
    ensures DelFields(stringify, post, fieldList) == Logged(Left(PlainError(stringify(None).left)), [])
  {
    assert DelEncoder<R>(stringify)(fieldList[0]).Left?;
  }
}
