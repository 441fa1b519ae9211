/** The request handler `pwa_recommendations_endpoint` (app.py:137-207):
    validation, query construction, one call to the store, row mapping and the
    mapping of every outcome to an HTTP status and JSON body. */
module Handler {
  import opened Json
  import opened Outcomes
  import opened Filters
  import opened PredicateCompiler
  import UnionQuery
  import opened RowMapper

  /** What `request.get_json()` produced: a decoded value, or an exception
      (undecodable body, wrong content type). */
  datatype Request = Decoded(body: Value) | Undecodable

  /** What the store's `execute_sql` gives back: the result rows, or an
      exception carrying a message. */
  datatype StoreResult = Rows(rows: seq<Row>) | StoreError(message: string)

  /** The store, as seen from the handler: the statement text, the bound
      parameters and their declared types in, rows or a failure out. */
  type Store = (string, map<string, Value>, map<string, ParamType>) -> StoreResult

  /** The arguments of the single `execute_sql` call (app.py:181). */
  datatype StoreCall = StoreCall(sql: string, params: map<string, Value>, paramTypes: map<string, ParamType>)

  /** An HTTP status with its JSON body. */
  datatype Response = Response(status: int, body: Value)

  const InternalErrorMessage: string := "Internal server error"

  /** `{"error": message}`. */
  function ErrorBody(message: string): Value {
    Object(map["error" := Str(message)])
  }

  /** The 500 response of app.py:204-207; it never carries exception text. */
  const InternalError: Response := Response(500, ErrorBody(InternalErrorMessage))

  /** The statement and parameters the handler sends for a body object
      (app.py:150-181): the compiled query text, the WHOLE body as parameter
      values, and the declared types of the present filters. */
  function PlanCall(data: map<string, Value>): (call: StoreCall)
    ensures call.params == data
    ensures call.paramTypes.Keys <= data.Keys
    ensures forall k :: k in call.paramTypes <==> k in FilterKeys && Truthy(Get(data, k))
    ensures forall k :: k in call.paramTypes ==> call.paramTypes[k] == StringType
  {
    var compiled := Compile(Read(data));
    ParamTypesExact(Read(data));
    forall k | k in compiled.paramTypes
      ensures k in data
    {
      TruthyGetIsPresent(data, k);
    }
    StoreCall(UnionQuery.RenderQuery(UnionQuery.BuildQuery(WhereClause(compiled))), data, compiled.paramTypes)
  }

  /** The records as the JSON array `jsonify(records)` emits. */
  function RecordsJson(records: seq<Recommendation>): (v: Value)
    ensures v.Array? && |v.items| == |records|
  {
    Array(seq(|records|, i requires 0 <= i < |records| => records[i].ToJson()))
  }

  /** Every row of a result set has the eight columns the mapping reads. */
  predicate AllRowsComplete(rows: seq<Row>) {
    forall i :: 0 <= i < |rows| ==> |rows[i]| >= 8
  }

  /** app.py:181-207 after the statement is sent: a store failure or a short
      row gives the generic 500, otherwise 200 with the records, `[]` when
      there are none. */
  function Respond(result: StoreResult): (r: Response)
    ensures r.status == 200 || r.status == 500
    ensures r.status == 200 <==> result.Rows? && AllRowsComplete(result.rows)
    ensures r.status == 500 ==> r == InternalError
    ensures r.status == 200 ==> r.body.Array? && |r.body.items| == |result.rows|
  {
    match result
    case StoreError(_) => InternalError
    case Rows(rows) =>
      match MapRows(rows)
      case None => InternalError
      case Some(records) =>
        if |records| == 0 then Response(200, Array([]))
        else Response(200, RecordsJson(records))
  }

  /** The handler on a body that decoded to an object: 400 with the fixed
      message when no filter is truthy, otherwise the response to the one
      planned store call. */
  function HandleObject(data: map<string, Value>, store: Store): (r: Response)
    ensures r.status == 200 || r.status == 400 || r.status == 500
    ensures r.status == 400 <==> !Read(data).Provided()
    ensures r.status == 400 ==> r.body == ErrorBody(MissingFilterMessage)
    ensures r.status == 500 ==> r == InternalError
    ensures r.status == 200 <==>
              Read(data).Provided()
              && var call := PlanCall(data);
                 var result := store(call.sql, call.params, call.paramTypes);
                 result.Rows? && AllRowsComplete(result.rows)
  {
    match Validate(data)
    case Err(message) => Response(400, ErrorBody(message))
    case Ok(_) =>
      var call := PlanCall(data);
      Respond(store(call.sql, call.params, call.paramTypes))
  }

  /** The handler: a body that is undecodable or not a JSON object makes
      `data.get` raise, which gives the generic 500. */
  function Handle(req: Request, store: Store): (r: Response)
    ensures r.status == 200 || r.status == 400 || r.status == 500
    ensures r.status == 400 <==> req.Decoded? && req.body.Object? && !Read(req.body.fields).Provided()
    ensures r.status == 400 ==> r.body == ErrorBody(MissingFilterMessage)
    ensures r.status == 500 ==> r == InternalError
    ensures r.status == 200 <==>
              req.Decoded? && req.body.Object? && Read(req.body.fields).Provided()
              && var call := PlanCall(req.body.fields);
                 var result := store(call.sql, call.params, call.paramTypes);
                 result.Rows? && AllRowsComplete(result.rows)
    ensures r.status == 200 ==> r.body.Array?
    ensures !(req.Decoded? && req.body.Object?) ==> r == InternalError
  {
    match req
    case Undecodable => InternalError
    case Decoded(body) =>
      if body.Object? then HandleObject(body.fields, store) else InternalError
  }

  /** A body with no truthy filter is answered 400 without consulting the store. */
  lemma MissingFiltersNeverQuery(data: map<string, Value>, s1: Store, s2: Store)
    requires forall k :: k in FilterKeys ==> !Truthy(Get(data, k))
    ensures Handle(Decoded(Object(data)), s1) == Response(400, ErrorBody(MissingFilterMessage))
    ensures Handle(Decoded(Object(data)), s1) == Handle(Decoded(Object(data)), s2)
  {
    assert !Truthy(Get(data, FilterKeys[0])) && !Truthy(Get(data, FilterKeys[1])) && !Truthy(Get(data, FilterKeys[2]));
  }

  /** The store is consulted with one call only: two stores that agree on that
      call give the same response. */
  lemma OnlyThePlannedCall(data: map<string, Value>, s1: Store, s2: Store)
    requires var call := PlanCall(data); s1(call.sql, call.params, call.paramTypes) == s2(call.sql, call.params, call.paramTypes)
    ensures Handle(Decoded(Object(data)), s1) == Handle(Decoded(Object(data)), s2)
  {
    if Read(data).Provided() {
      ValidBodyResponds(data, s1);
      ValidBodyResponds(data, s2);
    }
  }

  /** A store failure gives the fixed 500 response, whatever its message. */
  lemma StoreFailureIsGeneric(data: map<string, Value>, store: Store)
    requires Read(data).Provided()
    requires var call := PlanCall(data); store(call.sql, call.params, call.paramTypes).StoreError?
    ensures Handle(Decoded(Object(data)), store) == Response(500, Object(map["error" := Str("Internal server error")]))
  {
    ValidBodyResponds(data, store);
  }

  /** The records array holds one object per row, in row order, key i of each
      object holding the row's column i. */
  lemma RecordsJsonContents(rows: seq<Row>)
    requires MapRows(rows).Some?
    ensures var v := RecordsJson(MapRows(rows).value);
            |v.items| == |rows|
            && forall i, j :: 0 <= i < |rows| && 0 <= j < 8 ==>
                 v.items[i].Object?
                 && RecordKeys[j] in v.items[i].fields
                 && v.items[i].fields[RecordKeys[j]] == rows[i][j]
  {
    var records := MapRows(rows).value;
    var v := RecordsJson(records);
    forall i | 0 <= i < |rows|
      ensures forall j :: 0 <= j < 8 ==>
                v.items[i].Object?
                && RecordKeys[j] in v.items[i].fields
                && v.items[i].fields[RecordKeys[j]] == rows[i][j]
    {
      assert MapRow(rows[i]) == Some(records[i]);
      assert v.items[i] == MapRow(rows[i]).value.ToJson();
      RecordJsonShape(rows[i]);
    }
  }

  /** A body with at least one truthy filter is answered by sending the planned
      call and responding to its result. */
  lemma ValidBodyResponds(data: map<string, Value>, store: Store)
    requires Read(data).Provided()
    ensures var call := PlanCall(data);
            Handle(Decoded(Object(data)), store) == Respond(store(call.sql, call.params, call.paramTypes))
  {
    var fs := Read(data);
    if Truthy(fs.country) {
      assert Truthy(Get(data, FilterKeys[0]));
    } else if Truthy(fs.city) {
      assert Truthy(Get(data, FilterKeys[1]));
    } else {
      assert Truthy(Get(data, FilterKeys[2]));
    }
    assert Validate(data).Ok?;
  }

  /** Complete rows are answered 200 with the mapped records, `[]` when there
      are none. */
  lemma CompleteRowsRespond(rows: seq<Row>)
    requires AllRowsComplete(rows)
    ensures MapRows(rows).Some?
    ensures Respond(Rows(rows)) == Response(200, if |rows| == 0 then Array([]) else RecordsJson(MapRows(rows).value))
  {
  }

  /** On the success path the handler answers 200 with the mapped records, or
      with `[]` when there are none. */
  lemma SuccessResponse(data: map<string, Value>, store: Store, rows: seq<Row>)
    requires Read(data).Provided() && AllRowsComplete(rows)
    ensures MapRows(rows).Some?
    ensures var call := PlanCall(data);
            store(call.sql, call.params, call.paramTypes) == Rows(rows) ==>
              Handle(Decoded(Object(data)), store)
              == Response(200, if |rows| == 0 then Array([]) else RecordsJson(MapRows(rows).value))
  {
    ValidBodyResponds(data, store);
    CompleteRowsRespond(rows);
  }

  /** Success: 200 with one record per row, in row order, each record's keys
      holding the row's values position by position; no rows gives `[]`. */
  lemma SuccessReturnsMappedRows(data: map<string, Value>, store: Store, rows: seq<Row>)
    requires Read(data).Provided() && AllRowsComplete(rows)
    ensures var call := PlanCall(data);
            store(call.sql, call.params, call.paramTypes) == Rows(rows) ==>
              var r := Handle(Decoded(Object(data)), store);
              r.status == 200 && r.body.Array? && |r.body.items| == |rows|
              && (|rows| == 0 ==> r.body == Array([]))
              && forall i, j :: 0 <= i < |rows| && 0 <= j < 8 ==>
                   r.body.items[i].Object?
                   && RecordKeys[j] in r.body.items[i].fields
                   && r.body.items[i].fields[RecordKeys[j]] == rows[i][j]
  {
    SuccessResponse(data, store, rows);
    RecordsJsonContents(rows);
  }

  /** A row with fewer than eight columns fails the whole request with 500:
      no partial list is ever returned. */
  lemma ShortRowFailsWholeRequest(data: map<string, Value>, store: Store, rows: seq<Row>, i: nat)
    requires Read(data).Provided()
    requires var call := PlanCall(data); store(call.sql, call.params, call.paramTypes) == Rows(rows)
    requires i < |rows| && |rows[i]| < 8
    ensures Handle(Decoded(Object(data)), store) == InternalError
  {
    ValidBodyResponds(data, store);
  }

  /** Injection safety for the whole statement: request values never reach the
      query text, which depends only on which filters are present. */
  lemma QueryTextIndependentOfValues(d1: map<string, Value>, d2: map<string, Value>)
    requires forall k :: k in FilterKeys ==> (Truthy(Get(d1, k)) <==> Truthy(Get(d2, k)))
    ensures PlanCall(d1).sql == PlanCall(d2).sql
    ensures PlanCall(d1).paramTypes == PlanCall(d2).paramTypes
  {
    var fs1, fs2 := Read(d1), Read(d2);
    WhereClauseIndependentOfValues(fs1, fs2);
    assert forall k :: k in FilterKeys ==> (Truthy(fs1.ValueOf(k)) <==> Truthy(fs2.ValueOf(k)));
    PresentKeysInOrder(fs1);
    PresentKeysInOrder(fs2);
    assert Truthy(fs1.country) == Truthy(fs2.country) by { assert FilterKeys[0] == "country"; }
    assert Truthy(fs1.city) == Truthy(fs2.city) by { assert FilterKeys[1] == "city"; }
    assert Truthy(fs1.region) == Truthy(fs2.region) by { assert FilterKeys[2] == "region"; }
    CompileDependsOnlyOnShape(fs1, fs2);
  }

  /** The statement is the handler's three-branch text around the compiled
      WHERE clause. */
  lemma StatementIsHandlerText(data: map<string, Value>)
    ensures PlanCall(data).sql == UnionQuery.HandlerQueryText(WhereClause(Compile(Read(data))))
  {
    UnionQuery.RenderMatchesHandlerText(WhereClause(Compile(Read(data))));
  }

  /** With only `city` given, the statement filters every branch by
      `city = @city` and declares only `city`, while the parameter values are
      still the whole body. */
  lemma CityOnlyRequest(data: map<string, Value>)
    requires !Truthy(Get(data, "country")) && Truthy(Get(data, "city")) && !Truthy(Get(data, "region"))
    ensures PlanCall(data).sql == UnionQuery.HandlerQueryText("city = @city")
    ensures PlanCall(data).paramTypes == map["city" := StringType]
    ensures PlanCall(data).params == data
  {
    CityOnlyClause(Read(data));
    StatementIsHandlerText(data);
  }
}
