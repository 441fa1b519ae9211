/** The positional row-to-record comprehension of app.py:182-194. */
module RowMapper {
  import opened Json
  import opened Outcomes

  /** The record keys, in the positions the handler reads them from:
      key `RecordKeys[i]` takes `row[i]`. */
  const RecordKeys: seq<string> :=
    ["continent", "country", "region", "city",
     "recommendation_id", "Ranking", "recommendation_type", "recommendation_activity"]

  /** One result row as the store returns it: a tuple of column values. */
  type Row = seq<Value>

  /** One output record, the dict built for one row. */
  datatype Recommendation = Recommendation(
    continent: Value,
    country: Value,
    region: Value,
    city: Value,
    recommendationId: Value,
    ranking: Value,
    recommendationType: Value,
    recommendationActivity: Value)
  {
    /** The record's values in key order. */
    function Columns(): (cols: seq<Value>)
      ensures |cols| == 8
    {
      [continent, country, region, city, recommendationId, ranking, recommendationType, recommendationActivity]
    }

    /** The JSON object the record dict serialises to. */
    function ToJson(): Value {
      Object(map[
        "continent" := continent,
        "country" := country,
        "region" := region,
        "city" := city,
        "recommendation_id" := recommendationId,
        "Ranking" := ranking,
        "recommendation_type" := recommendationType,
        "recommendation_activity" := recommendationActivity
      ])
    }
  }

  /** The dict of app.py:183-192 for one row. Indexing `row[7]` on a shorter
      row raises, which the model reports as None; extra columns are ignored. */
  function MapRow(row: Row): (r: Option<Recommendation>)
    ensures r.Some? <==> |row| >= 8
    ensures r.Some? ==> r.value.Columns() == row[..8]
  {
    if |row| < 8 then
      None
    else
      Some(Recommendation(row[0], row[1], row[2], row[3], row[4], row[5], row[6], row[7]))
  }

  /** The eight record keys are distinct, so no column overwrites another. */
  lemma RecordKeysDistinct()
    ensures forall i, j :: 0 <= i < j < |RecordKeys| ==> RecordKeys[i] != RecordKeys[j]
  {
  }

  /** The serialised record has exactly the eight keys, and key `RecordKeys[i]`
      holds the value at position i of the row it came from. */
  lemma RecordJsonShape(row: Row)
    requires |row| >= 8
    ensures MapRow(row).Some?
    ensures MapRow(row).value.ToJson().Object?
    ensures forall k :: k in MapRow(row).value.ToJson().fields <==> k in RecordKeys
    ensures forall i :: 0 <= i < 8 ==> MapRow(row).value.ToJson().fields[RecordKeys[i]] == row[i]
  {
    var m := MapRow(row).value.ToJson().fields;
    assert m["continent"] == row[0];
    assert m["country"] == row[1];
    assert m["region"] == row[2];
    assert m["city"] == row[3];
    assert m["recommendation_id"] == row[4];
    assert m["Ranking"] == row[5];
    assert m["recommendation_type"] == row[6];
    assert m["recommendation_activity"] == row[7];
  }

  /** Round trip, record side: a record is rebuilt unchanged from its tuple. */
  lemma RecordRoundTrip(rec: Recommendation)
    ensures MapRow(rec.Columns()) == Some(rec)
  {
  }

  /** The list comprehension of app.py:182-194: all rows mapped in order, or a
      failure as soon as one row is too short. */
  function MapRows(rows: seq<Row>): (r: Option<seq<Recommendation>>)
    ensures r.Some? <==> forall i :: 0 <= i < |rows| ==> |rows[i]| >= 8
    ensures r.Some? ==> |r.value| == |rows|
    ensures r.Some? ==> forall i {:trigger r.value[i]} :: 0 <= i < |rows| ==> MapRow(rows[i]) == Some(r.value[i])
  {
    if |rows| == 0 then
      Some([])
    else
      match MapRow(rows[0])
      case None => None
      case Some(rec) =>
        match MapRows(rows[1..])
        case None => None
        case Some(recs) => Some([rec] + recs)
  }

  /** Mapping a concatenation of result sets gives the concatenation of their
      records, in the same order. */
  lemma MapRowsAppend(a: seq<Row>, b: seq<Row>)
    requires MapRows(a).Some? && MapRows(b).Some?
    ensures MapRows(a + b) == Some(MapRows(a).value + MapRows(b).value)
  {
    var ab := a + b;
    var ra, rb := MapRows(a).value, MapRows(b).value;
    forall i | 0 <= i < |ab|
      ensures |ab[i]| >= 8
    {
      if i < |a| { assert ab[i] == a[i]; } else { assert ab[i] == b[i - |a|]; }
    }
    var r := MapRows(ab).value;
    forall i | 0 <= i < |ab|
      ensures r[i] == (ra + rb)[i]
    {
      if i < |a| {
        assert ab[i] == a[i];
        assert MapRow(ab[i]) == Some(r[i]);
        assert MapRow(a[i]) == Some(ra[i]);
      } else {
        assert ab[i] == b[i - |a|];
        assert MapRow(ab[i]) == Some(r[i]);
        assert MapRow(b[i - |a|]) == Some(rb[i - |a|]);
      }
    }
    assert r == ra + rb;
  }
}
