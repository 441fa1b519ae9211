/** The three-branch UNION ALL query of app.py:165-177, as a registry of
    popularity tables, branch descriptors and a renderer for the query text. */
module UnionQuery {
  import Strings
  import RowMapper

  /** One item of a SELECT list: a bare column, or `expr AS alias`. */
  datatype Column = Plain(name: string) | Aliased(expr: string, alias: string) {

    /** The name the column has in the result. */
    function OutputName(): string {
      match this
      case Plain(name) => name
      case Aliased(_, alias) => alias
    }

    function Text(): string {
      match this
      case Plain(name) => name
      case Aliased(expr, alias) => expr + " AS " + alias
    }
  }

  /** A popularity table: its name, its identifier column and its rank column. */
  datatype TableSpec = TableSpec(table: string, idColumn: string, rankColumn: string)

  /** The games, micro-apps and cards tables, in the order of the branches. */
  const Registry: seq<TableSpec> := [
    TableSpec("games_geo_popularity", "GameID", "City_Ranking"),
    TableSpec("microapps_geo_popularity", "appID", "City_Ranking"),
    TableSpec("cards_geo_popularity", "cardID", "City_Ranking")
  ]

  /** The shared SELECT list, with each table's identifier and rank columns
      renamed to `recommendation_id` and `Ranking`. */
  function Projection(src: TableSpec): seq<Column> {
    [Plain("continent"), Plain("country"), Plain("region"), Plain("city"),
     Aliased(src.idColumn, "recommendation_id"), Aliased(src.rankColumn, "Ranking"),
     Plain("recommendation_type"), Plain("recommendation_activity")]
  }

  /** One `SELECT … FROM … WHERE …` branch. */
  datatype Branch = Branch(columns: seq<Column>, table: string, where: string)

  /** The branches of the query, in order, combined with UNION ALL. */
  datatype Query = Query(branches: seq<Branch>)

  function OutputNames(cols: seq<Column>): seq<string> {
    seq(|cols|, i requires 0 <= i < |cols| => cols[i].OutputName())
  }

  /** One branch per registered table, every branch with the same WHERE clause. */
  function BuildQuery(where: string): (q: Query)
    ensures |q.branches| == |Registry| == 3
    ensures forall i :: 0 <= i < |q.branches| ==>
              q.branches[i].where == where
              && q.branches[i].table == Registry[i].table
              && |q.branches[i].columns| == 8
              && OutputNames(q.branches[i].columns) == RowMapper.RecordKeys
    ensures forall i, j, k :: 0 <= i < |q.branches| && 0 <= j < |q.branches| && 0 <= k < 8 && k != 4 ==>
              q.branches[i].columns[k] == q.branches[j].columns[k]
    ensures forall i :: 0 <= i < |q.branches| ==>
              q.branches[i].columns[4] == Column.Aliased(Registry[i].idColumn, "recommendation_id")
    ensures forall i, j :: 0 <= i < j < |q.branches| ==>
              q.branches[i].table != q.branches[j].table
              && q.branches[i].columns[4] != q.branches[j].columns[4]
  {
    var q := Query(seq(|Registry|, i requires 0 <= i < |Registry| =>
      Branch(Projection(Registry[i]), Registry[i].table, where)));
    assert forall i :: 0 <= i < |Registry| ==> Registry[i].rankColumn == "City_Ranking";
    q
  }

  /** Line break plus the twelve-space indentation of the handler's query text. */
  const Indent: string := "\n            "

  function ColumnTexts(cols: seq<Column>): seq<string> {
    seq(|cols|, i requires 0 <= i < |cols| => cols[i].Text())
  }

  function RenderColumns(cols: seq<Column>): string {
    Strings.Join(ColumnTexts(cols), ", ")
  }

  function RenderBranch(b: Branch): string {
    "SELECT " + RenderColumns(b.columns) + Indent + "FROM " + b.table + Indent + "WHERE " + b.where
  }

  /** The query text: the branches separated by `UNION ALL` lines, led by a
      line break and closed by the eight-space indentation of the closing quotes. */
  function RenderQuery(q: Query): string {
    Indent
    + Strings.Join(seq(|q.branches| , i requires 0 <= i < |q.branches| => RenderBranch(q.branches[i])),
                   Indent + "UNION ALL" + Indent)
    + "\n        "
  }

  /** The text of one branch as app.py:166-168 writes it, with the identifier
      column, the table and the WHERE clause as the parts that vary. */
  function HandlerBranchText(idColumn: string, table: string, where: string): string {
    "\n            SELECT continent, country, region, city, " + idColumn
    + " AS recommendation_id, City_Ranking AS Ranking, recommendation_type, recommendation_activity"
    + "\n            FROM " + table
    + "\n            WHERE " + where
  }

  /** The query text of app.py:165-177: the three branches, one `UNION ALL`
      line between neighbours, and the indentation before the closing quotes. */
  function HandlerQueryText(where: string): string {
    HandlerBranchText("GameID", "games_geo_popularity", where)
    + "\n            UNION ALL"
    + HandlerBranchText("appID", "microapps_geo_popularity", where)
    + "\n            UNION ALL"
    + HandlerBranchText("cardID", "cards_geo_popularity", where)
    + "\n        "
  }

  /** The column texts of a table's SELECT list. */
  lemma ProjectionTexts(src: TableSpec)
    ensures ColumnTexts(Projection(src)) ==
      ["continent", "country", "region", "city",
       src.idColumn + " AS " + "recommendation_id", src.rankColumn + " AS " + "Ranking",
       "recommendation_type", "recommendation_activity"]
  {
  }

  /** The first four columns and their separators. */
  lemma HeadLiteral()
    ensures "continent" + ", " + "country" + ", " + "region" + ", " + "city" + ", "
            == "continent, country, region, city, "
  {
  }

  /** The identifier column's alias and the rank column. */
  lemma AliasLiteral()
    ensures " AS " + "recommendation_id" + ", " == " AS recommendation_id, "
    ensures "City_Ranking" + " AS " + "Ranking" == "City_Ranking AS Ranking"
  {
  }

  lemma TailLiteral1()
    ensures " AS recommendation_id, " + "City_Ranking AS Ranking" + ", "
         == " AS recommendation_id, City_Ranking AS Ranking, "
  {
  }

  lemma TailLiteral2()
    ensures " AS recommendation_id, City_Ranking AS Ranking, " + "recommendation_type" + ", "
         == " AS recommendation_id, City_Ranking AS Ranking, recommendation_type, "
  {
  }

  lemma TailLiteral3()
    ensures " AS recommendation_id, City_Ranking AS Ranking, recommendation_type, " + "recommendation_activity"
         == " AS recommendation_id, City_Ranking AS Ranking, recommendation_type, recommendation_activity"
  {
  }

  /** Everything after the identifier column. */
  lemma TailLiteral()
    ensures " AS " + "recommendation_id" + ", " + ("City_Ranking" + " AS " + "Ranking") + ", "
            + "recommendation_type" + ", " + "recommendation_activity"
         == " AS recommendation_id, City_Ranking AS Ranking, recommendation_type, recommendation_activity"
  {
    AliasLiteral();
    TailLiteral1();
    TailLiteral2();
    TailLiteral3();
  }

  /** Regrouping the joined SELECT list around the identifier column. */
  lemma ColumnsRegroup(c0: string, c1: string, c2: string, c3: string, id: string, asKeyword: string,
                       alias: string, c5: string, c6: string, c7: string, sep: string)
    ensures c0 + sep + c1 + sep + c2 + sep + c3 + sep + (id + asKeyword + alias) + sep + c5 + sep + c6 + sep + c7
         == (c0 + sep + c1 + sep + c2 + sep + c3 + sep) + id + (asKeyword + alias + sep + c5 + sep + c6 + sep + c7)
  {
  }

  /** The SELECT list of a table ranked by `City_Ranking` renders as the
      handler's column line. */
  lemma ProjectionText(src: TableSpec)
    requires src.rankColumn == "City_Ranking"
    ensures RenderColumns(Projection(src)) ==
      "continent, country, region, city, " + src.idColumn
      + " AS recommendation_id, City_Ranking AS Ranking, recommendation_type, recommendation_activity"
  {
    var sep := ", ";
    var idText := src.idColumn + " AS " + "recommendation_id";
    var rankText := "City_Ranking" + " AS " + "Ranking";
    var texts := ["continent", "country", "region", "city", idText, rankText,
                  "recommendation_type", "recommendation_activity"];
    ProjectionTexts(src);
    assert ColumnTexts(Projection(src)) == texts;
    Strings.JoinEight("continent", "country", "region", "city", idText, rankText,
                      "recommendation_type", "recommendation_activity", sep);
    var joined := "continent" + sep + "country" + sep + "region" + sep + "city" + sep + idText + sep + rankText
                  + sep + "recommendation_type" + sep + "recommendation_activity";
    assert RenderColumns(Projection(src)) == joined;
    ColumnsRegroup("continent", "country", "region", "city", src.idColumn, " AS ", "recommendation_id",
                   rankText, "recommendation_type", "recommendation_activity", sep);
    var head := "continent" + sep + "country" + sep + "region" + sep + "city" + sep;
    var tail := " AS " + "recommendation_id" + sep + rankText + sep + "recommendation_type" + sep + "recommendation_activity";
    assert joined == head + src.idColumn + tail;
    HeadLiteral();
    TailLiteral();
    assert head == "continent, country, region, city, ";
    assert tail == " AS recommendation_id, City_Ranking AS Ranking, recommendation_type, recommendation_activity";
  }

  /** Regrouping one rendered branch, led by its line break. */
  lemma BranchRegroup(ind: string, sel: string, head: string, id: string, tail: string,
                      from: string, table: string, wh: string, where: string)
    ensures ind + (sel + (head + id + tail) + ind + from + table + ind + wh + where)
         == (ind + sel + head) + id + tail + (ind + from) + table + (ind + wh) + where
  {
  }

  lemma SelectLiteral()
    ensures "\n            SELECT " + "continent, country, region, city, " == "\n            SELECT continent, country, region, city, "
  {
  }

  /** The fixed literals that open a branch's three lines. */
  lemma BranchLiterals()
    ensures Indent + "SELECT " + "continent, country, region, city, " == "\n            SELECT continent, country, region, city, "
    ensures Indent + "FROM " == "\n            FROM "
    ensures Indent + "WHERE " == "\n            WHERE "
    ensures Indent + "UNION ALL" == "\n            UNION ALL"
  {
    assert Indent + "SELECT " == "\n            SELECT ";
    SelectLiteral();
  }

  /** Each registered table, led by a line break, renders as its branch of the handler's query text. */
  lemma BranchText(i: nat, where: string)
    requires i < |Registry|
    ensures Indent + RenderBranch(Branch(Projection(Registry[i]), Registry[i].table, where))
            == HandlerBranchText(Registry[i].idColumn, Registry[i].table, where)
  {
    var src := Registry[i];
    ProjectionText(src);
    BranchRegroup(Indent, "SELECT ", "continent, country, region, city, ", src.idColumn,
                  " AS recommendation_id, City_Ranking AS Ranking, recommendation_type, recommendation_activity",
                  "FROM ", src.table, "WHERE ", where);
    BranchLiterals();
  }

  /** Assembling the rendered query from branch texts whose indented forms are
      known. */
  lemma QueryAssemble(ind: string, union: string, unionLine: string, t0: string, t1: string, t2: string,
                      s0: string, s1: string, s2: string, close: string)
    requires ind + t0 == s0 && ind + t1 == s1 && ind + t2 == s2 && ind + union == unionLine
    ensures ind + Strings.Join([t0, t1, t2], ind + union + ind) + close == s0 + unionLine + s1 + unionLine + s2 + close
  {
    Strings.JoinThree(t0, t1, t2, ind + union + ind);
    assert ind + (t0 + (ind + union + ind) + t1 + (ind + union + ind) + t2) + close
        == (ind + t0) + (ind + union) + (ind + t1) + (ind + union) + (ind + t2) + close;
  }

  /** The rendered branch of registered table i. */
  function RegisteredBranchText(i: nat, where: string): string
    requires i < |Registry|
  {
    RenderBranch(Branch(Projection(Registry[i]), Registry[i].table, where))
  }

  /** The built query renders as its three registered branches joined by the
      `UNION ALL` separator. */
  lemma RenderedBranches(where: string)
    ensures RenderQuery(BuildQuery(where))
         == Indent
            + Strings.Join([RegisteredBranchText(0, where), RegisteredBranchText(1, where), RegisteredBranchText(2, where)],
                           Indent + "UNION ALL" + Indent)
            + "\n        "
  {
    var q := BuildQuery(where);
    var texts := seq(|q.branches|, i requires 0 <= i < |q.branches| => RenderBranch(q.branches[i]));
    assert texts == [RegisteredBranchText(0, where), RegisteredBranchText(1, where), RegisteredBranchText(2, where)];
  }

  /** The structured query renders to exactly the text the handler builds,
      for every WHERE clause. */
  lemma RenderMatchesHandlerText(where: string)
    ensures RenderQuery(BuildQuery(where)) == HandlerQueryText(where)
  {
    var t0, t1, t2 := RegisteredBranchText(0, where), RegisteredBranchText(1, where), RegisteredBranchText(2, where);
    RenderedBranches(where);
    BranchText(0, where);
    BranchText(1, where);
    BranchText(2, where);
    BranchLiterals();
    QueryAssemble(Indent, "UNION ALL", "\n            UNION ALL", t0, t1, t2,
                  HandlerBranchText("GameID", "games_geo_popularity", where),
                  HandlerBranchText("appID", "microapps_geo_popularity", where),
                  HandlerBranchText("cardID", "cards_geo_popularity", where), "\n        ");
  }
}
