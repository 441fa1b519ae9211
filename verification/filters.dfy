/** The filter set read from the request body, and its validation
    (app.py:140-147). */
module Filters {
  import opened Json
  import opened Outcomes

  /** The recognised filter keys, in the order the query builder visits them. */
  const FilterKeys: seq<string> := ["country", "city", "region"]

  /** The body of the 400 response. */
  const MissingFilterMessage: string := "At least one of country, city, or region must be provided"

  /** The three values the handler reads with `data.get`; any may be None. */
  datatype FilterSet = FilterSet(country: Value, city: Value, region: Value) {

    /** The value held for a filter key (None for any other key). */
    function ValueOf(key: string): Value {
      if key == "country" then country
      else if key == "city" then city
      else if key == "region" then region
      else Null
    }

    /** The guard of app.py:144: at least one filter is truthy. */
    predicate Provided() {
      Truthy(country) || Truthy(city) || Truthy(region)
    }
  }

  /** Reads the three filters from a decoded body object; other keys are ignored.
      A filter is provided exactly when the body holds a truthy value under one
      of the three keys, and every truthy filter value is the body's own value. */
  function Read(data: map<string, Value>): (fs: FilterSet)
    ensures fs.Provided() <==> exists k :: k in FilterKeys && k in data && Truthy(data[k])
    ensures forall k :: k in FilterKeys && Truthy(fs.ValueOf(k)) ==> k in data && data[k] == fs.ValueOf(k)
    ensures forall k :: k in FilterKeys ==> fs.ValueOf(k) == Get(data, k)
  {
    FilterSet(Get(data, "country"), Get(data, "city"), Get(data, "region"))
  }

  /** The keys of `keys` whose filter value is truthy, order kept. */
  function KeepTruthy(fs: FilterSet, keys: seq<string>): seq<string>
  {
    if |keys| == 0 then []
    else (if Truthy(fs.ValueOf(keys[0])) then [keys[0]] else []) + KeepTruthy(fs, keys[1..])
  }

  /** The filter keys that are in effect: the truthy ones, in the fixed order. */
  function PresentKeys(fs: FilterSet): seq<string> {
    KeepTruthy(fs, FilterKeys)
  }

  /** A key is kept exactly when it is one of the given keys and its value is truthy. */
  lemma {:induction false} KeepTruthyMembers(fs: FilterSet, keys: seq<string>)
    ensures forall k :: k in KeepTruthy(fs, keys) <==> k in keys && Truthy(fs.ValueOf(k))
  {
    if |keys| > 0 {
      KeepTruthyMembers(fs, keys[1..]);
      assert keys == [keys[0]] + keys[1..];
    }
  }

  /** The present keys spelled out: country, then city, then region, each only
      when its value is truthy. */
  lemma PresentKeysInOrder(fs: FilterSet)
    ensures PresentKeys(fs) ==
      (if Truthy(fs.country) then ["country"] else [])
      + (if Truthy(fs.city) then ["city"] else [])
      + (if Truthy(fs.region) then ["region"] else [])
  {
    var keys := FilterKeys;
    assert keys[1..] == ["city", "region"];
    assert keys[1..][1..] == ["region"];
    assert keys[1..][1..][1..] == [];
    assert KeepTruthy(fs, []) == [];
  }

  /** Each filter key is in effect exactly when its value is truthy, and at most
      three keys, all distinct, are ever in effect. */
  lemma PresentKeysExact(fs: FilterSet)
    ensures forall k :: k in PresentKeys(fs) <==> k in FilterKeys && Truthy(fs.ValueOf(k))
    ensures |PresentKeys(fs)| <= 3
    ensures forall i, j :: 0 <= i < j < |PresentKeys(fs)| ==> PresentKeys(fs)[i] != PresentKeys(fs)[j]
  {
    KeepTruthyMembers(fs, FilterKeys);
    PresentKeysInOrder(fs);
  }

  /** Position of a filter key in the fixed order. */
  function Rank(key: string): nat {
    if key == "country" then 0 else if key == "city" then 1 else 2
  }

  /** The keys in effect follow the fixed order country, city, region. */
  lemma PresentKeysOrdered(fs: FilterSet)
    ensures forall i, j :: 0 <= i < j < |PresentKeys(fs)| ==> Rank(PresentKeys(fs)[i]) < Rank(PresentKeys(fs)[j])
  {
    PresentKeysInOrder(fs);
  }

  /** Validation of app.py:140-147: succeeds with the read filters exactly when
      some recognised key holds a truthy value, and otherwise fails with the
      fixed message. */
  function Validate(data: map<string, Value>): (r: Result<FilterSet>)
    ensures r.Ok? <==> exists k :: k in FilterKeys && Truthy(Get(data, k))
    ensures r.Ok? ==> r.value == Read(data) && 1 <= |PresentKeys(r.value)| <= 3
    ensures r.Err? ==> r.error == MissingFilterMessage && PresentKeys(Read(data)) == []
  {
    var fs := Read(data);
    PresentKeysInOrder(fs);
    if !fs.Provided() then
      Err(MissingFilterMessage)
    else
      assert Truthy(fs.country) ==> Truthy(Get(data, FilterKeys[0]));
      assert Truthy(fs.city) ==> Truthy(Get(data, FilterKeys[1]));
      assert Truthy(fs.region) ==> Truthy(Get(data, FilterKeys[2]));
      Ok(fs)
  }

  /** Keys other than country, city and region play no part in validation. */
  lemma ValidateIgnoresOtherKeys(d1: map<string, Value>, d2: map<string, Value>)
    requires forall k :: k in FilterKeys ==> Get(d1, k) == Get(d2, k)
    ensures Validate(d1) == Validate(d2)
  {
    assert Get(d1, FilterKeys[0]) == Get(d2, FilterKeys[0]);
    assert Get(d1, FilterKeys[1]) == Get(d2, FilterKeys[1]);
    assert Get(d1, FilterKeys[2]) == Get(d2, FilterKeys[2]);
  }
}
