# Geo recommendations endpoint — a Dafny model

This project models the request handler `pwa_recommendations_endpoint` of the
recommendations service (app.py:137-207). The handler does the following:

- It reads the optional `country`, `city` and `region` filters from a JSON body.
- It rejects a body in which none of them is truthy.
- It compiles one `field = @field` condition per present filter, together with a
  map of parameter types.
- It joins the conditions with ` AND ` and places the clause into a
  three-branch `UNION ALL` query over the games, micro-apps and cards popularity
  tables.
- It sends the query to the store, with the whole body bound as parameter values.
- It maps every result row positionally to an eight-key record.
- It answers 200 with the records, 400 for a missing filter, or 500 with a
  generic body for any failure.

Modules, in dependency order:

- `Json` (json.dfy): decoded JSON values, Python truthiness, and `dict.get`.
- `Outcomes` (outcomes.dfy): `Option` and `Result`.
- `Strings` (strings.dfy): `str.join`, with its length, prepend and alphabet
  lemmas.
- `Filters` (filters.dfy): the filter set, the keys in effect, and validation.
- `PredicateCompiler` (predicates.dfy): the conditions, the parameter-type map,
  the WHERE clause, and its meaning over table rows.
- `RowMapper` (row_mapper.dfy): the positional row-to-record mapping.
- `UnionQuery` (union_query.dfy): the table registry, the branch descriptors,
  and the rendering of the query text. The rendering is proved to equal the
  handler's literal query text, whitespace included.
- `Handler` (handler.dfy): the planned store call and the full
  request-to-response function.

Behaviour the model fixes:

- Filters are tested with Python truthiness. None, false, 0, "", [] and {}
  count as absent, and any other value counts as present.
- The 400 body is
  `{"error": "At least one of country, city, or region must be provided"}`.
- A body that is valid JSON but not an object makes `data.get` raise. The answer
  is then the generic 500.
- The parameter values bound to the statement are the entire body. Only the
  declared parameter types are restricted to the truthy filters.

The store is a parameter of `Handler.Handle`. It is a total function from
(statement, parameter values, parameter types) to either result rows or a
failure. Request decoding is a parameter too. A body is either a decoded JSON
value or undecodable.

## Model

| member | source | states |
|---|---|---|
| Json.TruthyGetIsPresent | app.py:140-142 | a filter read with `data.get` that is truthy was really present in the body, with that value (an absent key reads as None, which is false) |
| Filters.Read | app.py:140-144 | some filter is provided iff the body holds a truthy value under `country`, `city` or `region`; a truthy filter value is the value the body stores under that key; an absent key reads as None |
| Filters.KeepTruthyMembers | app.py:153-161 | a key survives the filtering exactly when it is one of the visited keys and its value is truthy |
| Filters.PresentKeysInOrder | app.py:153-161 | the keys in effect are country, then city, then region, each included only when its value is truthy |
| Filters.PresentKeysExact | app.py:153-161 | a filter key is in effect iff its value is truthy; at most three keys are in effect, all distinct |
| Filters.PresentKeysOrdered | app.py:153-161 | the keys in effect strictly follow the order country < city < region |
| Filters.Validate | app.py:140-147 | validation succeeds iff some filter key holds a truthy value; on success it yields the read filters with one to three keys in effect; on failure it yields the fixed message, and no key is in effect |
| Filters.ValidateIgnoresOtherKeys | app.py:140-147 | keys other than the three filters never change the validation outcome |
| Strings.JoinLength | app.py:163 | a joined string is the parts' lengths plus one separator between each neighbouring pair |
| Strings.JoinCons | app.py:163 | joining with a part prepended puts that part and one separator before the rest joined |
| Strings.JoinChars | app.py:163 | joining introduces no character found in neither a part nor the separator |
| PredicateCompiler.Compile | app.py:150-161 | condition i is `FieldEquals` of the i-th key in effect; the parameter-type map has exactly the keys in effect, each mapped to STRING |
| PredicateCompiler.ConditionCount | app.py:144-161 | after validation there are one to three conditions, as many as there are truthy filters |
| PredicateCompiler.ConditionsExactlyOnceInOrder | app.py:153-161 | a condition references key k iff k is a filter with a truthy value; conditions are strictly ordered country, city, region, so none repeats |
| PredicateCompiler.ParamTypesExact | app.py:150-161 | the parameter-type map declares exactly the truthy filters, each as STRING |
| PredicateCompiler.CityOnlyClause | app.py:153-163 | with only `city` truthy, the clause is exactly `city = @city` and only `city` is declared |
| PredicateCompiler.CompileDependsOnlyOnShape | app.py:150-161 | two filter sets with the same keys in effect compile to identical conditions and types, whatever their values |
| PredicateCompiler.WhereClauseIndependentOfValues | app.py:153-163 | the WHERE text depends only on which filters are truthy, never on their values |
| PredicateCompiler.ConditionTextChars | app.py:153-161 | each condition text uses only lower-case letters, space, `=` and `@` |
| PredicateCompiler.WhereClauseAlphabet | app.py:153-163 | the WHERE clause never contains a character outside lower-case letters, `A`, `N`, `D`, space, `=` and `@`, for any request |
| PredicateCompiler.WhereSelectsExactMatches | app.py:153-181 | with the whole body bound as parameters, a row satisfies the compiled conditions iff it equals the body on every truthy filter |
| PredicateCompiler.PlaceholdersBound | app.py:150-181 | every placeholder in the clause is both bound by the body and declared in the parameter-type map |
| RowMapper.MapRow | app.py:182-193 | a row maps to a record iff it has at least eight columns; the record's columns are the row's first eight, in order |
| RowMapper.RecordKeysDistinct | app.py:183-192 | the eight record keys are pairwise distinct, so no column overwrites another |
| RowMapper.RecordJsonShape | app.py:183-192 | the record object has exactly the eight keys, and key i holds row[i] |
| RowMapper.RecordRoundTrip | app.py:182-193 | a record is rebuilt unchanged from its own column tuple |
| RowMapper.MapRows | app.py:182-194 | the rows map iff every row has at least eight columns; the record list has the rows' length and record i is built from row i |
| RowMapper.MapRowsAppend | app.py:182-194 | mapping the concatenation of two result sets gives the concatenation of their record lists, in order |
| UnionQuery.BuildQuery | app.py:165-177 | exactly three branches, in registry order, all with the given WHERE clause, each projecting eight columns named as the record keys; the branches agree on every column except the identifier column, and differ pairwise in table and identifier column |
| UnionQuery.ProjectionText | app.py:166 | a table ranked by `City_Ranking` renders its SELECT list as the handler's column line, with its identifier column aliased `recommendation_id` |
| UnionQuery.BranchText | app.py:165-168 | each registered table, led by a line break, renders as its SELECT/FROM/WHERE lines of the handler's query text |
| UnionQuery.RenderedBranches | app.py:165-177 | the built query renders as the three registered branches, in order, joined by the `UNION ALL` separator line |
| UnionQuery.RenderMatchesHandlerText | app.py:165-177 | for every WHERE clause, the rendered structured query equals the handler's three-branch query text, `UNION ALL` lines and indentation included |
| Handler.PlanCall | app.py:150-181 | the store receives the whole body as parameter values; the declared types cover exactly the truthy filters, all STRING, and are a subset of the body's keys |
| Handler.Respond | app.py:181-207 | status is 200 or 500; 200 iff the store returned rows that all have eight columns, with one array element per row; every 500 is the generic body |
| Handler.HandleObject | app.py:140-207 | for an object body, 400 iff no filter is truthy, with the fixed message; 200 iff some filter is truthy and the planned call returns complete rows; every 500 is the generic body |
| Handler.Handle | app.py:137-207 | status is 200, 400 or 500; 400 iff the body is an object with no truthy filter, and then the body is the fixed message; 200 iff, in addition, the store returns rows that all have eight columns; every 500 is the generic body; a non-object or undecodable body gives 500 |
| Handler.MissingFiltersNeverQuery | app.py:144-147 | a body with no truthy filter is answered 400 with the fixed message, whatever the store would do |
| Handler.OnlyThePlannedCall | app.py:179-207 | two stores that agree on the one planned call give the same response |
| Handler.StoreFailureIsGeneric | app.py:204-207 | a store failure gives exactly `{"error": "Internal server error"}` with status 500, whatever the failure's message |
| Handler.RecordsJsonContents | app.py:182-202 | the records array has one object per row, in row order, key i of each object holding that row's column i |
| Handler.ValidBodyResponds | app.py:144-181 | a body with a truthy filter is answered by the response to the one planned store call |
| Handler.CompleteRowsRespond | app.py:182-202 | complete rows are answered 200 with the mapped records, or `[]` when there are none |
| Handler.SuccessResponse | app.py:181-202 | on the success path the handler's response is 200 with the mapped records, or `[]` when there are none |
| Handler.SuccessReturnsMappedRows | app.py:181-202 | when every row has eight columns the status is 200, the array has one object per row, in order, key i of object j holding row j's column i; no rows gives `[]` |
| Handler.ShortRowFailsWholeRequest | app.py:182-207 | a single row with fewer than eight columns fails the whole request with the generic 500; no partial list is returned |
| Handler.QueryTextIndependentOfValues | app.py:153-181 | the statement text and declared types depend only on which filters are truthy, never on the request's values |
| Handler.StatementIsHandlerText | app.py:163-181 | the statement sent is the handler's query text around the compiled WHERE clause |
| Handler.CityOnlyRequest | app.py:140-181 | with only `city` truthy, every branch filters by `city = @city`, only `city` is declared, and the bound values are still the whole body |

## Left out

- Logging, the Datadog counters and trace spans, and the request hooks are left
  out. They are observability side effects with no bearing on the response.
- Flask routing, `jsonify` serialisation and `request.get_json` parsing are left
  out. A body is modelled as an already-decoded JSON value or as undecodable.
  A response is a status with a JSON value.
- The Spanner client, credentials, the snapshot context manager and
  `execute_sql` are left out. The store is an abstract total function. Snapshot
  consistency, resource release and how a store failure arises cannot be
  expressed here.
- The unused imports and `app.run` are not modelled.
- PredicateCompiler.WhereSelectsExactMatches: reads SQL `=` as equality of
  decoded JSON values. That matches the store only for string filter values. A
  truthy non-string value, such as a number bound under a STRING declaration,
  is coerced or rejected by the store, and the model does not say which.
- JSON numbers are modelled as reals, since only their truthiness (non-zero)
  matters to the handler. The non-finite floats `NaN`, `Infinity` and
  `-Infinity` cannot be represented. Python's decoder accepts them, and all
  three are truthy floats.
