/** The table of request types, REQUEST_TYPES, as both copies of the client
    use it: a tuple of (id, wire name) rows, searched by `request` with a
    membership test and turned into a dictionary by `get_request_type`. */
module Catalog {
  import opened Values

  /** One row of REQUEST_TYPES: an integer id and the request's wire name. */
  type Row = (int, string)

  /** `key in row`: the key equals either component of the tuple. */
  predicate InRow(row: Row, key: Value) {
    (key.VInt? && key.i == row.0) || (key.VStr? && key.s == row.1)
  }

  /** `any(key in row for row in rows)` */
  predicate InAnyRow(rows: seq<Row>, key: Value) {
    exists k :: 0 <= k < |rows| && InRow(rows[k], key)
  }

  /** `dict(rows)[key]`, None where Python raises KeyError. The dictionary is
      keyed by the ids, and a later row overrides an earlier one. */
  function Lookup(rows: seq<Row>, key: Value): Option<string> {
    if rows == [] || !key.VInt? then None
    else if rows[|rows| - 1].0 == key.i then Some(rows[|rows| - 1].1)
    else Lookup(rows[..|rows| - 1], key)
  }

  /** The ids of the rows are pairwise distinct. */
  predicate DistinctIds(rows: seq<Row>) {
    forall j, k :: 0 <= j < k < |rows| ==> rows[j].0 != rows[k].0
  }

  /** The dictionary maps the id of a row to that row's name, unless a later
      row has the same id. */
  lemma {:induction false} LookupRow(rows: seq<Row>, k: nat)
    requires k < |rows|
    requires forall j :: k < j < |rows| ==> rows[j].0 != rows[k].0
    ensures Lookup(rows, VInt(rows[k].0)) == Some(rows[k].1)
  {
    if k < |rows| - 1 {
      LookupRow(rows[..|rows| - 1], k);
    }
  }

  /** The dictionary has no entry for an integer that is no row's id. */
  lemma {:induction false} LookupMissing(rows: seq<Row>, id: int)
    requires forall j :: 0 <= j < |rows| ==> rows[j].0 != id
    ensures Lookup(rows, VInt(id)) == None
  {
    if rows != [] {
      LookupMissing(rows[..|rows| - 1], id);
    }
  }

  /** For an integer key the membership test and the dictionary agree: the
      lookup `request` makes after the test never raises KeyError. */
  lemma {:induction false} LookupAgreesWithMembership(rows: seq<Row>, id: int)
    ensures Lookup(rows, VInt(id)).Some? <==> InAnyRow(rows, VInt(id))
  {
    if rows != [] {
      var init := rows[..|rows| - 1];
      LookupAgreesWithMembership(init, id);
      if InAnyRow(init, VInt(id)) {
        var k :| 0 <= k < |init| && InRow(init[k], VInt(id));
        assert InRow(rows[k], VInt(id));
      }
      if InAnyRow(rows, VInt(id)) && rows[|rows| - 1].0 != id {
        var k :| 0 <= k < |rows| && InRow(rows[k], VInt(id));
        assert InRow(init[k], VInt(id));
      }
    }
  }
}
