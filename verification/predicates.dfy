/** The WHERE-clause compiler of app.py:150-163: one `field = @field` condition
    per present filter, a parallel map of parameter types, and the conditions
    joined by " AND ". */
module PredicateCompiler {
  import opened Json
  import opened Filters
  import Strings

  /** Spanner's declared parameter type; the handler only ever uses STRING. */
  datatype ParamType = StringType

  /** `field = @field`: a column compared with the query parameter of the same name. */
  datatype Condition = FieldEquals(field: string) {
    function Text(): string {
      field + " = @" + field
    }
  }

  /** The `conditions` list and the `query_params` map of the handler. */
  datatype Compiled = Compiled(conditions: seq<Condition>, paramTypes: map<string, ParamType>)

  /** One `if <field>:` step of app.py:153-161. */
  function AddIfPresent(acc: Compiled, field: string, value: Value): Compiled {
    if Truthy(value) then
      Compiled(acc.conditions + [FieldEquals(field)], acc.paramTypes[field := StringType])
    else
      acc
  }

  /** app.py:150-161: the conditions are exactly the present filter keys in the
      fixed order, and the parameter-type map has exactly those keys, all STRING. */
  function Compile(fs: FilterSet): (c: Compiled)
    ensures |c.conditions| == |PresentKeys(fs)|
    ensures forall i :: 0 <= i < |c.conditions| ==> c.conditions[i] == FieldEquals(PresentKeys(fs)[i])
    ensures c.paramTypes.Keys == set k | k in PresentKeys(fs)
    ensures forall k :: k in c.paramTypes ==> c.paramTypes[k] == StringType
  {
    PresentKeysInOrder(fs);
    var c1 := AddIfPresent(Compiled([], map[]), "country", fs.country);
    var c2 := AddIfPresent(c1, "city", fs.city);
    AddIfPresent(c2, "region", fs.region)
  }

  /** The condition texts, in order (the `conditions` list of strings). */
  function ConditionTexts(c: Compiled): seq<string> {
    seq(|c.conditions|, i requires 0 <= i < |c.conditions| => c.conditions[i].Text())
  }

  /** app.py:163: `" AND ".join(conditions)`. */
  function WhereClause(c: Compiled): string {
    Strings.Join(ConditionTexts(c), " AND ")
  }

  /** Number of truthy filters among the three. */
  function TruthyCount(fs: FilterSet): nat {
    (if Truthy(fs.country) then 1 else 0)
    + (if Truthy(fs.city) then 1 else 0)
    + (if Truthy(fs.region) then 1 else 0)
  }

  /** After validation there are between one and three conditions, one per
      truthy filter. */
  lemma ConditionCount(fs: FilterSet)
    requires fs.Provided()
    ensures |Compile(fs).conditions| == TruthyCount(fs)
    ensures 1 <= |Compile(fs).conditions| <= 3
  {
    PresentKeysInOrder(fs);
  }

  /** Each filter key has a condition exactly when its value is truthy; no key
      has two; and conditions follow the order country, city, region. */
  lemma ConditionsExactlyOnceInOrder(fs: FilterSet)
    ensures forall k :: (exists i :: 0 <= i < |Compile(fs).conditions| && Compile(fs).conditions[i].field == k)
                        <==> k in FilterKeys && Truthy(fs.ValueOf(k))
    ensures forall i, j :: 0 <= i < j < |Compile(fs).conditions| ==>
              Rank(Compile(fs).conditions[i].field) < Rank(Compile(fs).conditions[j].field)
  {
    var c := Compile(fs);
    var pk := PresentKeys(fs);
    PresentKeysExact(fs);
    PresentKeysOrdered(fs);
    forall k
      ensures (exists i :: 0 <= i < |c.conditions| && c.conditions[i].field == k) <==> k in pk
    {
      if k in pk {
        var i :| 0 <= i < |pk| && pk[i] == k;
        assert c.conditions[i].field == k;
      }
    }
  }

  /** The parameter-type map declares exactly the truthy filters, each as STRING. */
  lemma ParamTypesExact(fs: FilterSet)
    ensures forall k :: k in Compile(fs).paramTypes <==> k in FilterKeys && Truthy(fs.ValueOf(k))
    ensures forall k :: k in Compile(fs).paramTypes ==> Compile(fs).paramTypes[k] == StringType
  {
    PresentKeysExact(fs);
  }

  /** With only `city` given, the clause is exactly `city = @city` and only
      `city` is declared. */
  lemma CityOnlyClause(fs: FilterSet)
    requires !Truthy(fs.country) && Truthy(fs.city) && !Truthy(fs.region)
    ensures WhereClause(Compile(fs)) == "city = @city"
    ensures Compile(fs).paramTypes == map["city" := StringType]
  {
    PresentKeysInOrder(fs);
    var c := Compile(fs);
    assert c.conditions == [FieldEquals("city")];
    assert FieldEquals("city").Text() == "city = @city";
    assert ConditionTexts(c)[0] == "city = @city";
    assert ConditionTexts(c) == ["city = @city"];
  }

  /** The conditions and declared types depend only on WHICH filters are
      present, never on their values. */
  lemma CompileDependsOnlyOnShape(fs1: FilterSet, fs2: FilterSet)
    requires PresentKeys(fs1) == PresentKeys(fs2)
    ensures Compile(fs1) == Compile(fs2)
  {
    var c1, c2 := Compile(fs1), Compile(fs2);
    assert c1.conditions == c2.conditions;
    assert c1.paramTypes.Keys == c2.paramTypes.Keys;
    assert c1.paramTypes == c2.paramTypes;
  }

  /** Injection safety: request values never reach the WHERE text. Two filter
      sets with the same present keys give the same clause, whatever their values. */
  lemma WhereClauseIndependentOfValues(fs1: FilterSet, fs2: FilterSet)
    requires forall k :: k in FilterKeys ==> (Truthy(fs1.ValueOf(k)) <==> Truthy(fs2.ValueOf(k)))
    ensures WhereClause(Compile(fs1)) == WhereClause(Compile(fs2))
  {
    assert Truthy(fs1.ValueOf(FilterKeys[0])) == Truthy(fs2.ValueOf(FilterKeys[0]));
    assert Truthy(fs1.ValueOf(FilterKeys[1])) == Truthy(fs2.ValueOf(FilterKeys[1]));
    assert Truthy(fs1.ValueOf(FilterKeys[2])) == Truthy(fs2.ValueOf(FilterKeys[2]));
    PresentKeysInOrder(fs1);
    PresentKeysInOrder(fs2);
    CompileDependsOnlyOnShape(fs1, fs2);
  }

  /** The characters a WHERE clause may contain: lower-case letters, the
      upper-case letters of AND, space, `=` and `@`. No quote, semicolon or
      comment marker can ever occur. */
  const ClauseAlphabet: set<char> :=
    (set ch: char | 'a' <= ch <= 'z') + {'A', 'N', 'D', ' ', '=', '@'}

  /** Every condition text is built from a filter key and fixed punctuation. */
  lemma ConditionTextChars(field: string)
    requires field in FilterKeys
    ensures Strings.AllCharsIn(FieldEquals(field).Text(), ClauseAlphabet)
  {
    var t := FieldEquals(field).Text();
    forall i | 0 <= i < |t|
      ensures t[i] in ClauseAlphabet
    {
      if field == "country" {
        assert t == "country = @country";
      } else if field == "city" {
        assert t == "city = @city";
      } else {
        assert t == "region = @region";
      }
    }
  }

  /** Injection safety, character level: the WHERE clause never contains a
      character outside the fixed alphabet, whatever the request holds. */
  lemma WhereClauseAlphabet(fs: FilterSet)
    ensures Strings.AllCharsIn(WhereClause(Compile(fs)), ClauseAlphabet)
  {
    var c := Compile(fs);
    var texts := ConditionTexts(c);
    PresentKeysExact(fs);
    forall i | 0 <= i < |texts|
      ensures Strings.AllCharsIn(texts[i], ClauseAlphabet)
    {
      assert c.conditions[i].field in PresentKeys(fs);
      ConditionTextChars(c.conditions[i].field);
    }
    assert Strings.AllCharsIn(" AND ", ClauseAlphabet);
    Strings.JoinChars(texts, " AND ", ClauseAlphabet);
  }

  /** A table row, by column name. */
  type TableRow = map<string, Value>

  /** The meaning of a conjunction of conditions: every referenced column
      equals the value bound to its parameter. */
  predicate Satisfies(conds: seq<Condition>, row: TableRow, params: map<string, Value>) {
    forall i :: 0 <= i < |conds| ==>
      conds[i].field in row && conds[i].field in params && row[conds[i].field] == params[conds[i].field]
  }

  /** With the whole body bound as parameters (app.py:181), the compiled clause
      selects exactly the rows that equal the body on every truthy filter. */
  lemma WhereSelectsExactMatches(data: map<string, Value>, row: TableRow)
    ensures Satisfies(Compile(Read(data)).conditions, row, data)
            <==> forall k :: k in FilterKeys && Truthy(Get(data, k)) ==> k in row && row[k] == data[k]
  {
    var fs := Read(data);
    var c := Compile(fs);
    PresentKeysExact(fs);
    if Satisfies(c.conditions, row, data) {
      forall k | k in FilterKeys && Truthy(Get(data, k))
        ensures k in row && row[k] == data[k]
      {
        assert k in PresentKeys(fs);
        var i :| 0 <= i < |PresentKeys(fs)| && PresentKeys(fs)[i] == k;
        assert c.conditions[i].field == k;
      }
    }
    if forall k :: k in FilterKeys && Truthy(Get(data, k)) ==> k in row && row[k] == data[k] {
      forall i | 0 <= i < |c.conditions|
        ensures c.conditions[i].field in row && c.conditions[i].field in data
        ensures row[c.conditions[i].field] == data[c.conditions[i].field]
      {
        var k := c.conditions[i].field;
        assert k in PresentKeys(fs);
        TruthyGetIsPresent(data, k);
      }
    }
  }

  /** Every placeholder in the clause is both bound by the body and declared in
      the parameter-type map, so binding the whole body leaves none unbound. */
  lemma PlaceholdersBound(data: map<string, Value>)
    ensures forall i :: 0 <= i < |Compile(Read(data)).conditions| ==>
              Compile(Read(data)).conditions[i].field in data
              && Compile(Read(data)).conditions[i].field in Compile(Read(data)).paramTypes
  {
    var fs := Read(data);
    var c := Compile(fs);
    PresentKeysExact(fs);
    forall i | 0 <= i < |c.conditions|
      ensures c.conditions[i].field in data && c.conditions[i].field in c.paramTypes
    {
      var k := c.conditions[i].field;
      assert k in PresentKeys(fs);
      TruthyGetIsPresent(data, k);
    }
  }
}
