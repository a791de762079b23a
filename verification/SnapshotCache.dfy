/** The versioned schema snapshots per connection (schema/cache.py). */
module SnapshotCache {
  import opened Common
  import opened Schema

  datatype SchemaSnapshot = SchemaSnapshot(
    connection: int, version: nat, fingerprint: string, contentText: string, tables: seq<TableInfo>, tableCount: nat)

  /** SHA-256 over the canonical JSON; only its value matters here. */
  type Fingerprint = seq<TableInfo> -> string

  /** The stored rows of one connection, in insertion order. */
  function RowsOf(rows: seq<SchemaSnapshot>, connection: int): seq<SchemaSnapshot> {
    if rows == [] then []
    else
      var r := rows[|rows| - 1];
      RowsOf(rows[..|rows| - 1], connection) + (if r.connection == connection then [r] else [])
  }

  /** `order_by(version.desc()).limit(1)`. */
  function Current(rows: seq<SchemaSnapshot>, connection: int): Option<SchemaSnapshot> {
    Highest(RowsOf(rows, connection))
  }

  function Highest(mine: seq<SchemaSnapshot>): Option<SchemaSnapshot> {
    if mine == [] then None
    else
      var r := mine[|mine| - 1];
      match Highest(mine[..|mine| - 1])
      case Some(best) => if r.version > best.version then Some(r) else Some(best)
      case None => Some(r)
  }

  /** Versions 1 to n without gaps, adjacent rows differing, each fingerprint that of its content. */
  ghost predicate WellVersioned(mine: seq<SchemaSnapshot>, fp: Fingerprint) {
    && (forall i :: 0 <= i < |mine| ==> mine[i].version == i + 1)
    && (forall i :: 0 <= i < |mine| - 1 ==> mine[i].fingerprint != mine[i + 1].fingerprint)
    && (forall i :: 0 <= i < |mine| ==>
          mine[i].fingerprint == fp(mine[i].tables) && mine[i].tableCount == |mine[i].tables|)
  }

  ghost predicate Valid(rows: seq<SchemaSnapshot>, fp: Fingerprint) {
    forall c {:trigger RowsOf(rows, c)} :: WellVersioned(RowsOf(rows, c), fp)
  }

  /** The row a rebuild adds after `current`. */
  function NextRow(current: Option<SchemaSnapshot>, connection: int, tables: seq<TableInfo>,
                   fp: Fingerprint): SchemaSnapshot {
    SchemaSnapshot(connection, if current.Some? then current.value.version + 1 else 1, fp(tables),
                   SchemaText(tables), tables, |tables|)
  }

  predicate Unchanged(current: Option<SchemaSnapshot>, tables: seq<TableInfo>, fp: Fingerprint) {
    current.Some? && current.value.fingerprint == fp(tables)
  }

  class SnapshotStore {
    const fp: Fingerprint
    var rows: seq<SchemaSnapshot>

    constructor (fp: Fingerprint)
      ensures rows == [] && this.fp == fp
    {
      this.fp := fp;
      rows := [];
    }

    /** rebuild_snapshot: `introspected` is what the connection reports. */
    method RebuildSnapshot(connection: int, introspected: seq<TableInfo>) returns (s: SchemaSnapshot)
      modifies this
      ensures var current := Current(old(rows), connection);
              if Unchanged(current, introspected, fp) then rows == old(rows) && s == current.value
              else s == NextRow(current, connection, introspected, fp) && rows == old(rows) + [s]
    {
      var fingerprint := fp(introspected);
      var current := Current(rows, connection);
      if current.Some? && current.value.fingerprint == fingerprint {
        return current.value;
      }
      s := SchemaSnapshot(connection, if current.Some? then current.value.version + 1 else 1, fingerprint,
                          SchemaText(introspected), introspected, |introspected|);
      rows := rows + [s];
    }

    /** ensure_snapshot: an empty snapshot is rebuilt, any other one is served. */
    method EnsureSnapshot(connection: int, introspected: seq<TableInfo>) returns (s: SchemaSnapshot)
      modifies this
      ensures var current := Current(old(rows), connection);
              if current.Some? && (current.value.tableCount > 0 || Unchanged(current, introspected, fp))
              then rows == old(rows) && s == current.value
              else s == NextRow(current, connection, introspected, fp) && rows == old(rows) + [s]
    {
      var current := Current(rows, connection);
      if current.Some? && current.value.tableCount > 0 {
        return current.value;
      }
      s := RebuildSnapshot(connection, introspected);
    }

    /** Any sequence of requests, one after the other. */
    method Serve(requests: seq<Request>)
      requires Valid(rows, fp)
      modifies this
      ensures Valid(rows, fp)
    {
      for i := 0 to |requests|
        invariant Valid(rows, fp)
      {
        var q := requests[i];
        ghost var before := rows;
        var s;
        if q.refresh {
          s := RebuildSnapshot(q.connection, q.introspected);
        } else {
          s := EnsureSnapshot(q.connection, q.introspected);
        }
        if rows != before {
          NextRowKeepsValid(before, q.connection, q.introspected, fp);
        }
      }
    }
  }

  datatype Request = Request(refresh: bool, connection: int, introspected: seq<TableInfo>)

  // -------------------------------------------------------------- properties

  /** In a gapless history the current snapshot is the newest row, with the highest version. */
  lemma {:induction false} HighestIsNewest(mine: seq<SchemaSnapshot>)
    requires forall i :: 0 <= i < |mine| ==> mine[i].version == i + 1
    ensures Highest(mine) == if mine == [] then None else Some(mine[|mine| - 1])
  {
    if mine != [] {
      HighestIsNewest(mine[..|mine| - 1]);
    }
  }

  lemma {:induction false} RowsOfConnection(rows: seq<SchemaSnapshot>, connection: int)
    ensures forall r :: r in RowsOf(rows, connection) <==> r in rows && r.connection == connection
  {
    if rows != [] {
      RowsOfConnection(rows[..|rows| - 1], connection);
      assert rows == rows[..|rows| - 1] + [rows[|rows| - 1]];
    }
  }

  lemma RowsOfSnoc(rows: seq<SchemaSnapshot>, r: SchemaSnapshot, connection: int)
    ensures RowsOf(rows + [r], connection)
         == if r.connection == connection then RowsOf(rows, connection) + [r] else RowsOf(rows, connection)
  {
    assert (rows + [r])[..|rows|] == rows;
  }

  lemma ExtendsHistory(mine: seq<SchemaSnapshot>, next: SchemaSnapshot, fp: Fingerprint)
    requires WellVersioned(mine, fp)
    requires next.version == |mine| + 1 && next.fingerprint == fp(next.tables) && next.tableCount == |next.tables|
    requires mine != [] ==> mine[|mine| - 1].fingerprint != next.fingerprint
    ensures WellVersioned(mine + [next], fp)
  {}

  lemma RowKeepsValid(rows: seq<SchemaSnapshot>, next: SchemaSnapshot, fp: Fingerprint)
    requires Valid(rows, fp) && WellVersioned(RowsOf(rows, next.connection) + [next], fp)
    ensures Valid(rows + [next], fp)
  {
    forall c ensures WellVersioned(RowsOf(rows + [next], c), fp) {
      RowsOfSnoc(rows, next, c);
    }
  }

  /** Adding a changed schema continues that connection's history and leaves the others alone. */
  lemma NextRowKeepsValid(rows: seq<SchemaSnapshot>, connection: int, tables: seq<TableInfo>, fp: Fingerprint)
    requires Valid(rows, fp) && !Unchanged(Current(rows, connection), tables, fp)
    ensures Valid(rows + [NextRow(Current(rows, connection), connection, tables, fp)], fp)
  {
    var next := NextRow(Current(rows, connection), connection, tables, fp);
    var mine := RowsOf(rows, connection);
    HighestIsNewest(mine);
    ExtendsHistory(mine, next, fp);
    RowKeepsValid(rows, next, fp);
  }

  /** Over any run: the current snapshot carries the highest version of its connection. */
  lemma CurrentIsHighest(rows: seq<SchemaSnapshot>, connection: int, fp: Fingerprint, r: SchemaSnapshot)
    requires Valid(rows, fp) && r in rows && r.connection == connection
    ensures Current(rows, connection).Some?
    ensures r.version <= Current(rows, connection).value.version == |RowsOf(rows, connection)|
  {
    RowsOfConnection(rows, connection);
    HighestIsNewest(RowsOf(rows, connection));
  }

  /** After a rebuild the current snapshot holds the introspected schema, if fingerprints do not collide. */
  lemma RebuildAgrees(rows: seq<SchemaSnapshot>, connection: int, tables: seq<TableInfo>, fp: Fingerprint)
    requires Valid(rows, fp) && forall a, b :: fp(a) == fp(b) ==> a == b
    ensures var current := Current(rows, connection);
            if Unchanged(current, tables, fp) then current.value.tables == tables
            else Current(rows + [NextRow(current, connection, tables, fp)], connection)
                 == Some(NextRow(current, connection, tables, fp))
  {
    var current := Current(rows, connection);
    HighestIsNewest(RowsOf(rows, connection));
    if !Unchanged(current, tables, fp) {
      var next := NextRow(current, connection, tables, fp);
      NextRowKeepsValid(rows, connection, tables, fp);
      RowsOfSnoc(rows, next, connection);
      assert WellVersioned(RowsOf(rows + [next], connection), fp);
      HighestIsNewest(RowsOf(rows + [next], connection));
    }
  }
}
