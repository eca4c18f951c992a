/** The batched read of an export (`fetchInBatches` of src/modules/analytics/analytics-export.service.ts). */
module BatchFetch {
  import opened Domain

  datatype Row = Row(id: Id, key: int)

  const EXPORT_BATCH_SIZE: int := 2000
  const EXPORT_MAX_RECORDS: int := 10000

  /** `orderBy: [{ key: 'desc' }, { id: 'asc' }]` */
  predicate Precedes(a: Row, b: Row) {
    a.key > b.key || (a.key == b.key && a.id.Below(b.id))
  }

  /** One evaluation of the query's order over a static table. */
  ghost predicate IsView(view: seq<Row>, table: set<Row>) {
    (forall i, j :: 0 <= i < j < |view| ==> Precedes(view[i], view[j])) && forall r :: r in view <==> r in table
  }

  ghost predicate UniqueIds(table: set<Row>) {
    forall a, b :: a in table && b in table && a.id == b.id ==> a == b
  }

  /** The id tie-break makes the order total: every evaluation lists the same rows in the same places. */
  lemma {:induction false} ViewsAgree(v: seq<Row>, w: seq<Row>, table: set<Row>)
    requires IsView(v, table) && IsView(w, table)
    ensures v == w
    decreases |v|
  {
    EmptyView(v, table);
    EmptyView(w, table);
    if v != [] {
      assert v[0] in table && w[0] in table;
      var i :| 0 <= i < |w| && w[i] == v[0];
      var j :| 0 <= j < |v| && v[j] == w[0];
      assert v[0] == w[0];
      TailView(v, table);
      TailView(w, table);
      ViewsAgree(v[1..], w[1..], table - {v[0]});
      assert v == [v[0]] + v[1..] && w == [w[0]] + w[1..];
    }
  }

  lemma EmptyView(v: seq<Row>, table: set<Row>)
    requires IsView(v, table)
    ensures v == [] <==> table == {}
  {
    if v != [] {
      assert v[0] in table;
    }
  }

  lemma TailView(v: seq<Row>, table: set<Row>)
    requires IsView(v, table) && v != []
    ensures IsView(v[1..], table - {v[0]})
  {
  }

  /** Rows come by descending key, and by ascending id where keys are equal. */
  lemma ViewIsSorted(view: seq<Row>, table: set<Row>, i: int, j: int)
    requires IsView(view, table) && 0 <= i < j < |view|
    ensures view[j].key <= view[i].key && (view[i].key == view[j].key ==> view[i].id.rank < view[j].id.rank)
  {
    assert Precedes(view[i], view[j]);
  }

  function Place(r: Row, view: seq<Row>): seq<Row> {
    if view == [] || Precedes(r, view[0]) then [r] + view else [view[0]] + Place(r, view[1..])
  }

  lemma {:induction false} PlaceKeepsView(r: Row, view: seq<Row>, table: set<Row>)
    requires IsView(view, table) && UniqueIds(table + {r}) && r !in table
    ensures IsView(Place(r, view), table + {r})
    decreases |view|
  {
    if view == [] || Precedes(r, view[0]) {
      assert forall j :: 0 < j < |view| ==> Precedes(view[0], view[j]);
    } else {
      assert view[0] in table && view[0].id != r.id;
      TailView(view, table);
      PlaceKeepsView(r, view[1..], table - {view[0]});
      var rest := Place(r, view[1..]);
      forall x | x in rest
        ensures Precedes(view[0], x)
      {
        assert x in table - {view[0]} + {r};
        if x != r {
          var j :| 0 <= j < |view| && view[j] == x;
        }
      }
    }
  }

  /** Every table can be listed: the order puts any two rows one before the other. */
  lemma {:induction false} ViewExists(table: set<Row>) returns (view: seq<Row>)
    requires UniqueIds(table)
    ensures IsView(view, table)
    decreases |table|
  {
    if table == {} {
      view := [];
    } else {
      var r :| r in table;
      var rest := ViewExists(table - {r});
      PlaceKeepsView(r, rest, table - {r});
      view := Place(r, rest);
      assert table - {r} + {r} == table;
    }
  }

  function IndexOf(view: seq<Row>, id: Id): (n: nat)
    ensures n <= |view| && (n < |view| ==> view[n].id == id) && forall i :: 0 <= i < n ==> view[i].id != id
  {
    if view == [] || view[0].id == id then 0 else IndexOf(view[1..], id) + 1
  }

  /** `findMany({ orderBy, take, skip: 1, cursor })`: the rows that follow the cursor row. */
  function FindMany(view: seq<Row>, cursor: Option<Id>, take: nat): seq<Row> {
    var from := if cursor.None? then 0 else if IndexOf(view, cursor.value) < |view| then IndexOf(view, cursor.value) + 1 else |view|;
    var to := if from + take < |view| then from + take else |view|;
    view[from..to]
  }

  lemma CursorIsFound(view: seq<Row>, table: set<Row>, n: nat)
    requires IsView(view, table) && UniqueIds(table) && n < |view|
    ensures IndexOf(view, view[n].id) == n
  {
  }

  /** The cursor left by `n` fetched rows continues the view where they stopped. */
  lemma NextBatch(view: seq<Row>, table: set<Row>, n: nat, cursor: Option<Id>, take: nat)
    requires IsView(view, table) && UniqueIds(table) && n <= |view|
    requires cursor == if n == 0 then None else Some(view[n - 1].id)
    ensures FindMany(view, cursor, take) == view[n..if n + take < |view| then n + take else |view|]
  {
    if n > 0 {
      CursorIsFound(view, table, n - 1);
    }
  }

  /** `views[i]` is what the i-th query's ORDER BY yields; the table is the same for all of them. */
  ghost predicate StaticTable(views: seq<seq<Row>>, table: set<Row>) {
    |views| >= 6 && UniqueIds(table) && forall i :: 0 <= i < |views| ==> IsView(views[i], table)
  }

  method RunQuery(views: seq<seq<Row>>, ghost table: set<Row>, query: nat, ghost fetched: nat, cursor: Option<Id>, take: nat)
    returns (batch: seq<Row>)
    requires StaticTable(views, table) && query < |views| && fetched <= |views[0]|
    requires cursor == if fetched == 0 then None else Some(views[0][fetched - 1].id)
    ensures batch == views[0][fetched..if fetched + take < |views[0]| then fetched + take else |views[0]|]
  {
    ViewsAgree(views[query], views[0], table);
    NextBatch(views[0], table, fetched, cursor, take);
    batch := FindMany(views[query], cursor, take);
  }

  /** The export is the first 10000 rows, or all of them, in the query's order: no gap, no repeat. */
  method FetchInBatches(views: seq<seq<Row>>, ghost table: set<Row>) returns (results: seq<Row>)
    requires StaticTable(views, table)
    ensures results == if |views[0]| < 10000 then views[0] else views[0][..10000]
  {
    results := [];
    var cursor: Option<Id> := None;
    var queries := 0;
    while |results| < EXPORT_MAX_RECORDS
      invariant |results| <= |views[0]| && |results| <= 10000 && results == views[0][..|results|]
      invariant |results| == 2000 * queries
      invariant cursor == if |results| == 0 then None else Some(views[0][|results| - 1].id)
      decreases 10000 - |results|
    {
      var take := if EXPORT_BATCH_SIZE < EXPORT_MAX_RECORDS - |results| then EXPORT_BATCH_SIZE else EXPORT_MAX_RECORDS - |results|;
      var batch := RunQuery(views, table, queries, |results|, cursor, take);
      if |batch| == 0 {
        break;
      }
      results := results + batch;
      cursor := Some(batch[|batch| - 1].id);
      queries := queries + 1;
      if |batch| < take {
        break;
      }
    }
  }

  /** What an evaluation may list when only the key is sorted by. */
  ghost predicate IsTiedView(view: seq<Row>, table: set<Row>) {
    && (forall i, j :: 0 <= i < j < |view| ==> view[i].key >= view[j].key && view[i] != view[j])
    && forall r :: r in view <==> r in table
  }

  /** Without the id tie-break, any two rows with one key can be listed both ways, and the second of them is lost between two batches. */
  lemma TieBreakMatters(a: Row, b: Row)
    requires a.key == b.key && a.id != b.id
    ensures IsTiedView([a, b], {a, b}) && IsTiedView([b, a], {a, b})
    ensures FindMany([a, b], None, 1) + FindMany([b, a], Some(FindMany([a, b], None, 1)[0].id), 1) == [a]
  {
    assert FindMany([a, b], None, 1) == [a];
    assert [b, a][1..] == [a] && IndexOf([a], a.id) == 0 && IndexOf([b, a], a.id) == 1;
    assert FindMany([b, a], Some(a.id), 1) == [];
  }
}
