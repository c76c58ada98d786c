/**
 * The table layouts of the road database and the parameterised INSERT statement
 * the importers build from them: the column names joined by commas and one `%s`
 * placeholder per column.
 */
module SqlStatements {

  /** A column as configured: its name and its SQL type. */
  datatype Column = Column(name: string, sqlType: string)

  const WAYS_COLUMNS: seq<Column> := [
    Column("way_id", "BIGINT"), Column("road_type", "TINYINT"),
    Column("ref", "VARCHAR(256)"), Column("name", "VARCHAR(256)"),
    Column("lanes", "TINYINT"), Column("maxspeed", "SMALLINT"),
    Column("oneway", "BOOL"), Column("tunnel", "BOOL")]

  const WAY_NODE_IDS_COLUMNS: seq<Column> := [
    Column("way_id", "BIGINT"), Column("idx", "SMALLINT"), Column("node_id", "BIGINT")]

  const NODES_COLUMNS: seq<Column> := [
    Column("node_id", "BIGINT"), Column("location", "POINT SRID 4326")]

  const WAY_LENGTHS_COLUMNS: seq<Column> := [
    Column("way_id", "BIGINT"), Column("length", "FLOAT")]

  const WAY_SEGMENTS_COLUMNS: seq<Column> := [
    Column("way_id", "BIGINT"), Column("segment_id", "SMALLINT"),
    Column("length", "FLOAT"), Column("way_length_ratio", "FLOAT")]

  const WAY_SEGMENT_COVERAGE_COLUMNS: seq<Column> := [
    Column("way_id", "BIGINT"), Column("segment_id", "SMALLINT"), Column("coverage", "INT")]

  function Names(columns: seq<Column>): (r: seq<string>)
    ensures |r| == |columns| && forall i :: 0 <= i < |columns| ==> r[i] == columns[i].name
  {
    seq(|columns|, i requires 0 <= i < |columns| => columns[i].name)
  }

  /** Python's `sep.join(parts)`. */
  function Join(sep: string, parts: seq<string>): string
  {
    if parts == [] then ""
    else if |parts| == 1 then parts[0]
    else Join(sep, parts[..|parts| - 1]) + sep + parts[|parts| - 1]
  }

  /** `[x] * n`. */
  function Repeat(x: string, n: nat): (r: seq<string>)
    ensures |r| == n && forall i :: 0 <= i < n ==> r[i] == x
  {
    seq(n, i => x)
  }

  /** `"INSERT INTO {table} ({columns}) VALUES ({values})"` as `_write_data_to_database` formats it. */
  function InsertStatement(table: string, columns: seq<Column>): string
  {
    "INSERT INTO " + table + " (" + Join(",", Names(columns)) + ") VALUES ("
      + Join(",", Repeat("%s", |columns|)) + ")"
  }

  /** The number of `%` characters, each of which starts a placeholder of the driver. */
  function Percents(s: string): (r: nat)
    ensures r <= |s|
  {
    if s == [] then 0 else Percents(s[..|s| - 1]) + (if s[|s| - 1] == '%' then 1 else 0)
  }

  lemma {:induction false} NoPercents(s: string)
    requires forall i :: 0 <= i < |s| ==> s[i] != '%'
    ensures Percents(s) == 0
  {
    if s != [] {
      NoPercents(s[..|s| - 1]);
    }
  }

  lemma {:induction false} PercentsConcat(a: string, b: string)
    ensures Percents(a + b) == Percents(a) + Percents(b)
    decreases |b|
  {
    if b == [] {
      assert a + b == a;
    } else {
      var b' := b[..|b| - 1];
      PercentsConcat(a, b');
      assert (a + b)[..|a + b| - 1] == a + b';
    }
  }

  /** The `%` characters of a join are those of its parts and of its separators. */
  lemma {:induction false} PercentsOfJoin(sep: string, parts: seq<string>)
    requires Percents(sep) == 0
    ensures Percents(Join(sep, parts)) == PercentsOfAll(parts)
    decreases |parts|
  {
    if |parts| > 1 {
      var init := parts[..|parts| - 1];
      PercentsOfJoin(sep, init);
      PercentsConcat(Join(sep, init), sep);
      PercentsConcat(Join(sep, init) + sep, parts[|parts| - 1]);
    } else if |parts| == 1 {
      assert parts[..0] == [];
    }
  }

  function PercentsOfAll(parts: seq<string>): nat
  {
    if parts == [] then 0 else PercentsOfAll(parts[..|parts| - 1]) + Percents(parts[|parts| - 1])
  }

  lemma {:induction false} PercentsOfRepeat(n: nat)
    ensures PercentsOfAll(Repeat("%s", n)) == n
  {
    if n > 0 {
      PercentsOfRepeat(n - 1);
      assert Repeat("%s", n)[..n - 1] == Repeat("%s", n - 1);
      assert Percents("%s") == 1 by {
        assert "%s"[..1] == "%";
        assert "%"[..0] == "";
      }
    }
  }

  lemma {:induction false} PercentsOfNames(columns: seq<Column>)
    requires forall i :: 0 <= i < |columns| ==> Percents(columns[i].name) == 0
    ensures PercentsOfAll(Names(columns)) == 0
    decreases |columns|
  {
    if columns != [] {
      PercentsOfNames(columns[..|columns| - 1]);
      assert Names(columns)[..|columns| - 1] == Names(columns[..|columns| - 1]);
    }
  }

  /**
   * The statement has exactly one placeholder per configured column, so every
   * row of that many values fills it, as long as neither the table nor a column
   * name contains a `%`.
   */
  lemma PlaceholdersMatchColumns(table: string, columns: seq<Column>)
    requires Percents(table) == 0
    requires forall i :: 0 <= i < |columns| ==> Percents(columns[i].name) == 0
    ensures Percents(InsertStatement(table, columns)) == |columns|
  {
    var names := Join(",", Names(columns));
    var values := Join(",", Repeat("%s", |columns|));
    NoPercents(",");
    PercentsOfJoin(",", Names(columns));
    PercentsOfNames(columns);
    PercentsOfJoin(",", Repeat("%s", |columns|));
    PercentsOfRepeat(|columns|);
    NoPercents("INSERT INTO ");
    NoPercents(" (");
    NoPercents(") VALUES (");
    NoPercents(")");
    PercentsConcat("INSERT INTO ", table);
    PercentsConcat("INSERT INTO " + table, " (");
    PercentsConcat("INSERT INTO " + table + " (", names);
    PercentsConcat("INSERT INTO " + table + " (" + names, ") VALUES (");
    PercentsConcat("INSERT INTO " + table + " (" + names + ") VALUES (", values);
    PercentsConcat("INSERT INTO " + table + " (" + names + ") VALUES (" + values, ")");
  }

  /** No column name of `columns` contains a `%`. */
  lemma PlainColumnNames(columns: seq<Column>)
    requires forall i, j :: 0 <= i < |columns| && 0 <= j < |columns[i].name| ==> columns[i].name[j] != '%'
    ensures forall i :: 0 <= i < |columns| ==> Percents(columns[i].name) == 0
  {
    forall i | 0 <= i < |columns|
      ensures Percents(columns[i].name) == 0
    {
      NoPercents(columns[i].name);
    }
  }

  /**
   * The statements of the import stage have one placeholder per column: 8 for
   * `ways` and 3 for `way_node_ids`, the lengths of the tuples the highway
   * handler caches.
   */
  lemma ConfiguredInsertsMatchColumns()
    ensures Percents(InsertStatement("ways", WAYS_COLUMNS)) == 8
    ensures Percents(InsertStatement("way_node_ids", WAY_NODE_IDS_COLUMNS)) == 3
  {
    NoPercents("ways");
    NoPercents("way_node_ids");
    PlainColumnNames(WAYS_COLUMNS);
    PlainColumnNames(WAY_NODE_IDS_COLUMNS);
    PlaceholdersMatchColumns("ways", WAYS_COLUMNS);
    PlaceholdersMatchColumns("way_node_ids", WAY_NODE_IDS_COLUMNS);
  }

  /**
   * The statements of the aggregation stage have one placeholder per column: 2
   * for `way_lengths`, 4 for `way_segments` and 3 for `way_segment_coverage`,
   * the lengths of the tuples the aggregation worker collects.
   */
  lemma AggregationInsertsMatchColumns()
    ensures Percents(InsertStatement("way_lengths", WAY_LENGTHS_COLUMNS)) == 2
    ensures Percents(InsertStatement("way_segments", WAY_SEGMENTS_COLUMNS)) == 4
    ensures Percents(InsertStatement("way_segment_coverage", WAY_SEGMENT_COVERAGE_COLUMNS)) == 3
  {
    NoPercents("way_lengths");
    NoPercents("way_segments");
    NoPercents("way_segment_coverage");
    PlainColumnNames(WAY_LENGTHS_COLUMNS);
    PlainColumnNames(WAY_SEGMENTS_COLUMNS);
    PlainColumnNames(WAY_SEGMENT_COVERAGE_COLUMNS);
    PlaceholdersMatchColumns("way_lengths", WAY_LENGTHS_COLUMNS);
    PlaceholdersMatchColumns("way_segments", WAY_SEGMENTS_COLUMNS);
    PlaceholdersMatchColumns("way_segment_coverage", WAY_SEGMENT_COVERAGE_COLUMNS);
  }

  /**
   * The node handler writes `nodes` with its own statement: the `location`
   * column takes two placeholders, latitude and longitude, inside an SQL point.
   */
  const NODES_INSERT: string :=
    "INSERT INTO nodes " + "(node_id, location) VALUES (" + "%s" + ", ST_SRID(POINT(" + "%s" + ", " + "%s" + "), 4326))"

  /**
   * The node statement has one placeholder more than `nodes` has columns, so it
   * takes the `(id, lat, lon)` triples the node handler caches.
   */
  lemma NodesInsertTakesTriples()
    ensures Percents(NODES_INSERT) == |NODES_COLUMNS| + 1 == 3
  {
    var a, b, p := "INSERT INTO nodes ", "(node_id, location) VALUES (", "%s";
    var c, d, e := ", ST_SRID(POINT(", ", ", "), 4326))";
    NoPercents(a);
    NoPercents(b);
    NoPercents(c);
    NoPercents(d);
    NoPercents(e);
    assert Percents(p) == 1 by {
      assert p[..1] == "%";
      assert "%"[..0] == "";
    }
    PercentsConcat(a, b);
    PercentsConcat(a + b, p);
    PercentsConcat(a + b + p, c);
    PercentsConcat(a + b + p + c, p);
    PercentsConcat(a + b + p + c + p, d);
    PercentsConcat(a + b + p + c + p + d, p);
    PercentsConcat(a + b + p + c + p + d + p, e);
  }
}
