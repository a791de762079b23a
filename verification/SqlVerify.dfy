/** Identifier verification of a parsed statement against the schema snapshot (sql_verify.py).
    sqlglot's scope tree is data here: one entry per scope, in traversal order. */
module SqlVerify {
  import opened Common
  import opened Schema

  datatype Source =
    | Nested(id: nat)                        // a CTE or derived table: another scope
    | TableRef(db: string, name: string)     // exp.Table over an identifier
    | Other                                  // table functions, VALUES, ...

  datatype ColumnRef = ColumnRef(table: string, name: string)

  /** `outputs` is `expression.named_selects`; `aliases` the select aliases. */
  datatype Scope = Scope(sources: seq<(string, Source)>, parent: Option<nat>,
                         outputs: seq<string>, aliases: set<string>, columns: seq<ColumnRef>)

  /** Source names are dict keys; traverse_scope yields a scope before its parent. */
  ghost predicate ValidForest(f: seq<Scope>) {
    forall i :: 0 <= i < |f| ==> ValidScope(f, i)
  }

  ghost predicate ValidScope(f: seq<Scope>, i: nat)
    requires i < |f|
  {
    && (f[i].parent.Some? ==> i < f[i].parent.value < |f|)
    && (forall k :: 0 <= k < |f[i].sources| && f[i].sources[k].1.Nested? ==> f[i].sources[k].1.id < |f|)
    && (forall j, k :: 0 <= j < k < |f[i].sources| ==> f[i].sources[j].0 != f[i].sources[k].0)
  }

  const SYSTEM_SCHEMAS := {"information_schema", "pg_catalog", "performance_schema", "mysql", "sys"}

  // ------------------------------------------------------------------ lookup

  function NamedTables(tables: seq<TableInfo>, name: string): seq<TableInfo> {
    if tables == [] then []
    else NamedTables(tables[..|tables| - 1], name)
         + (if Lower(tables[|tables| - 1].name) == name then [tables[|tables| - 1]] else [])
  }

  function LastQualified(tables: seq<TableInfo>, key: (string, string)): Option<TableInfo> {
    if tables == [] then None
    else
      var t := tables[|tables| - 1];
      if (Lower(t.schema), Lower(t.name)) == key then Some(t) else LastQualified(tables[..|tables| - 1], key)
  }

  /** The snapshot tables a reference may mean: every table of that bare name, or the qualified one. */
  function Candidates(tables: seq<TableInfo>, db: string, name: string): seq<TableInfo> {
    if db != "" then
      match LastQualified(tables, (Lower(db), Lower(name))) case Some(t) => [t] case None => []
    else NamedTables(tables, Lower(name))
  }

  datatype Lookup = Lookup(byName: map<string, seq<TableInfo>>, byQualified: map<(string, string), TableInfo>) {
    function Resolve(db: string, name: string): seq<TableInfo> {
      if db != "" then
        var key := (Lower(db), Lower(name));
        if key in byQualified then [byQualified[key]] else []
      else if Lower(name) in byName then byName[Lower(name)] else []
    }
  }

  ghost predicate IndexesNames(byName: map<string, seq<TableInfo>>, tables: seq<TableInfo>) {
    forall n :: NamedTables(tables, n) == if n in byName then byName[n] else []
  }

  ghost predicate IndexesQualified(byQualified: map<(string, string), TableInfo>, tables: seq<TableInfo>) {
    forall key :: LastQualified(tables, key) == if key in byQualified then Some(byQualified[key]) else None
  }

  lemma IndexName(byName: map<string, seq<TableInfo>>, tables: seq<TableInfo>, t: TableInfo)
    requires IndexesNames(byName, tables)
    ensures var n := Lower(t.name);
            IndexesNames(byName[n := (if n in byName then byName[n] else []) + [t]], tables + [t])
  {
    assert (tables + [t])[..|tables|] == tables;
  }

  lemma IndexQualified(byQualified: map<(string, string), TableInfo>, tables: seq<TableInfo>, t: TableInfo)
    requires IndexesQualified(byQualified, tables)
    ensures IndexesQualified(byQualified[(Lower(t.schema), Lower(t.name)) := t], tables + [t])
  {
    assert (tables + [t])[..|tables|] == tables;
  }

  predicate Agrees(l: Lookup, tables: seq<TableInfo>, db: string, name: string) {
    l.Resolve(db, name) == Candidates(tables, db, name)
  }

  /** The lookup answers every reference as the declarative search does. */
  ghost predicate Faithful(l: Lookup, tables: seq<TableInfo>) {
    forall db, name {:trigger Agrees(l, tables, db, name)} :: Agrees(l, tables, db, name)
  }

  method BuildLookup(tables: seq<TableInfo>) returns (l: Lookup)
    ensures Faithful(l, tables)
  {
    var byName: map<string, seq<TableInfo>> := map[];
    var byQualified: map<(string, string), TableInfo> := map[];
    for i := 0 to |tables|
      invariant IndexesNames(byName, tables[..i]) && IndexesQualified(byQualified, tables[..i])
    {
      var t := tables[i];
      var n := Lower(t.name);
      IndexName(byName, tables[..i], t);
      IndexQualified(byQualified, tables[..i], t);
      assert tables[..i] + [t] == tables[..i + 1];
      byName := byName[n := (if n in byName then byName[n] else []) + [t]];
      byQualified := byQualified[(Lower(t.schema), n) := t];
    }
    assert tables[..|tables|] == tables;
    l := Lookup(byName, byQualified);
  }

  // ----------------------------------------------------- what a source offers

  datatype Verdict =
    | Inner(id: nat)                      // columns are the inner scope's outputs
    | Uncheckable                         // system table, table function
    | Missing(display: string)            // not in the snapshot
    | Known(candidates: seq<TableInfo>)

  function Judge(tables: seq<TableInfo>, source: Source): Verdict {
    match source
    case Nested(id) => Inner(id)
    case Other => Uncheckable
    case TableRef(db, name) =>
      if Lower(db) in SYSTEM_SCHEMAS then Uncheckable
      else
        var candidates := Candidates(tables, db, name);
        if candidates == [] then Missing(if db != "" then db + "." + name else name) else Known(candidates)
  }

  function ColumnNames(t: TableInfo): set<string> { set c | c in t.columns :: Lower(c.name) }

  /** _source_output_names: `None` when the scope selects a star. */
  function OutputNames(s: Scope): Option<set<string>> {
    if "*" in s.outputs then None else Some(set n | n in s.outputs :: Lower(n))
  }

  /** The select aliases of a scope, as bare names are compared with them. */
  function AliasNames(s: Scope): set<string> { set a | a in s.aliases :: Lower(a) }

  predicate AnyHas(candidates: seq<TableInfo>, col: string) {
    exists t :: t in candidates && col in ColumnNames(t)
  }

  /** A source whose columns cannot be enumerated. */
  predicate IsOpaque(tables: seq<TableInfo>, f: seq<Scope>, source: Source) {
    match Judge(tables, source)
    case Inner(id) => id < |f| && OutputNames(f[id]).None?
    case Uncheckable => true
    case Missing(_) => true
    case Known(_) => false
  }

  /** A source that lists the column. */
  predicate Lists(tables: seq<TableInfo>, f: seq<Scope>, source: Source, col: string) {
    match Judge(tables, source)
    case Inner(id) => id < |f| && OutputNames(f[id]).Some? && col in OutputNames(f[id]).value
    case Uncheckable => false
    case Missing(_) => false
    case Known(candidates) => AnyHas(candidates, col)
  }

  // ------------------------------------------------------ declarative resolver

  /** The scope chain from `i` outwards. */
  function Chain(f: seq<Scope>, i: nat): seq<nat>
    requires i < |f|
    decreases |f| - i
  {
    match f[i].parent
    case Some(p) => [i] + (if i < p < |f| then Chain(f, p) else [])
    case None => [i]
  }

  function SourceIndex(sources: seq<(string, Source)>, name: string): Option<nat> {
    if sources == [] then None
    else if sources[|sources| - 1].0 == name then Some(|sources| - 1)
    else SourceIndex(sources[..|sources| - 1], name)
  }

  /** The innermost scope on the chain that binds `name`, with the position of the source in it. */
  function Binding(f: seq<Scope>, i: nat, name: string): Option<(nat, nat)>
    requires i < |f|
    decreases |f| - i
  {
    match SourceIndex(f[i].sources, name)
    case Some(k) => Some((i, k))
    case None =>
      match f[i].parent
      case Some(p) => if i < p < |f| then Binding(f, p, name) else None
      case None => None
  }

  lemma {:induction false} SourceIndexFinds(sources: seq<(string, Source)>, name: string)
    ensures match SourceIndex(sources, name)
            case Some(k) => k < |sources| && sources[k].0 == name
            case None => forall j :: 0 <= j < |sources| ==> sources[j].0 != name
  {
    if sources != [] {
      SourceIndexFinds(sources[..|sources| - 1], name);
    }
  }

  lemma {:induction false} BindingFinds(f: seq<Scope>, i: nat, name: string)
    requires i < |f|
    ensures match Binding(f, i, name)
            case Some(b) => b.0 < |f| && b.1 < |f[b.0].sources| && f[b.0].sources[b.1].0 == name && b.0 in Chain(f, i)
            case None => true
    decreases |f| - i
  {
    SourceIndexFinds(f[i].sources, name);
    if SourceIndex(f[i].sources, name).None? && f[i].parent.Some? && i < f[i].parent.value < |f| {
      BindingFinds(f, f[i].parent.value, name);
    }
  }

  /** `alias.column` is rejected when its binding is checkable and does not list the column. */
  ghost predicate QualifiedRejected(tables: seq<TableInfo>, f: seq<Scope>, i: nat, ref: ColumnRef)
    requires i < |f|
  {
    BindingFinds(f, i, ref.table);
    match Binding(f, i, ref.table)
    case None => false
    case Some(b) =>
      var source := f[b.0].sources[b.1].1;
      !IsOpaque(tables, f, source) && !Lists(tables, f, source, Lower(ref.name))
  }

  /** Nothing in scope `a` can explain the column: no opaque source, no source listing it. */
  ghost predicate Unexplained(tables: seq<TableInfo>, f: seq<Scope>, a: nat, col: string)
    requires a < |f|
  {
    forall k :: 0 <= k < |f[a].sources| ==>
      !IsOpaque(tables, f, f[a].sources[k].1) && !Lists(tables, f, f[a].sources[k].1, col)
  }

  /** A bare column is rejected when it is no select alias and no scope of the chain explains it. */
  ghost predicate BareRejected(tables: seq<TableInfo>, f: seq<Scope>, i: nat, ref: ColumnRef)
    requires i < |f|
  {
    && Lower(ref.name) !in AliasNames(f[i])
    && forall a :: a in Chain(f, i) ==> a < |f| && Unexplained(tables, f, a, Lower(ref.name))
  }

  ghost predicate Rejected(tables: seq<TableInfo>, f: seq<Scope>, i: nat, ref: ColumnRef)
    requires i < |f|
  {
    if ref.table != "" then QualifiedRejected(tables, f, i, ref) else BareRejected(tables, f, i, ref)
  }

  /** How a rejected reference is reported. */
  function Display(tables: seq<TableInfo>, f: seq<Scope>, i: nat, ref: ColumnRef): string
    requires i < |f|
  {
    if ref.table == "" then ref.name
    else
      BindingFinds(f, i, ref.table);
      match Binding(f, i, ref.table)
      case None => ref.name
      case Some(b) =>
        match Judge(tables, f[b.0].sources[b.1].1)
        case Known(candidates) => (if candidates != [] then candidates[0].name else "") + "." + ref.name
        case _ => ref.table + "." + ref.name
  }

  // ---------------------------------------------------------------- the walk

  /** What scope_sources computes for one scope; `isOpaque` as in the source's `opaque`. */
  datatype ScopeSources = ScopeSources(tables: map<string, seq<TableInfo>>, ctes: map<string, nat>, isOpaque: bool)

  const NO_SOURCES := ScopeSources(map[], map[], false)

  function AddSource(tables: seq<TableInfo>, f: seq<Scope>, info: ScopeSources, entry: (string, Source)): ScopeSources {
    var info := info.(isOpaque := info.isOpaque || IsOpaque(tables, f, entry.1));
    match Judge(tables, entry.1)
    case Inner(id) => info.(ctes := info.ctes[entry.0 := id])
    case Uncheckable => info
    case Missing(_) => info
    case Known(candidates) => info.(tables := info.tables[entry.0 := candidates])
  }

  function SourcesOf(tables: seq<TableInfo>, f: seq<Scope>, sources: seq<(string, Source)>): ScopeSources {
    if sources == [] then NO_SOURCES
    else AddSource(tables, f, SourcesOf(tables, f, sources[..|sources| - 1]), sources[|sources| - 1])
  }

  /** The unknown tables among a scope's sources, as they are reported. */
  function MissingIn(tables: seq<TableInfo>, sources: seq<(string, Source)>): seq<string> {
    if sources == [] then []
    else MissingIn(tables, sources[..|sources| - 1]) + MissingOf(Judge(tables, sources[|sources| - 1].1))
  }

  function MissingOf(v: Verdict): seq<string> { if v.Missing? then [v.display] else [] }

  datatype VerificationResult = VerificationResult(unknownTables: seq<string>, unknownColumns: seq<string>) {
    predicate Ok() { unknownTables == [] && unknownColumns == [] }
  }

  /** A computed scope lists a column through a candidate table or through an enumerable inner scope. */
  predicate InfoLists(f: seq<Scope>, info: ScopeSources, col: string) {
    || (exists n :: n in info.tables && AnyHas(info.tables[n], col))
    || (exists n :: n in info.ctes && CteLists(f, info.ctes[n], col))
  }

  predicate CteLists(f: seq<Scope>, id: nat, col: string) {
    id < |f| && OutputNames(f[id]).Some? && col in OutputNames(f[id]).value
  }

  ghost predicate DistinctSources(sources: seq<(string, Source)>) {
    forall j, k :: 0 <= j < k < |sources| ==> sources[j].0 != sources[k].0
  }

  ghost predicate NamedIn(sources: seq<(string, Source)>, name: string) {
    exists k :: 0 <= k < |sources| && sources[k].0 == name
  }

  lemma {:induction false} SourcesOfKeys(tables: seq<TableInfo>, f: seq<Scope>, sources: seq<(string, Source)>)
    ensures var info := SourcesOf(tables, f, sources);
            && (forall n :: n in info.tables ==> NamedIn(sources, n))
            && (forall n :: n in info.ctes ==> NamedIn(sources, n))
  {
    if sources != [] {
      var last := |sources| - 1;
      SourcesOfKeys(tables, f, sources[..last]);
      assert sources[last].0 == sources[last].0;
      forall n | NamedIn(sources[..last], n) ensures NamedIn(sources, n) {
        var k :| 0 <= k < last && sources[..last][k].0 == n;
        assert sources[k].0 == n;
      }
    }
  }

  lemma AddSourceLists(tables: seq<TableInfo>, f: seq<Scope>, info: ScopeSources, entry: (string, Source), col: string)
    requires entry.0 !in info.tables && entry.0 !in info.ctes
    ensures InfoLists(f, AddSource(tables, f, info, entry), col)
       <==> InfoLists(f, info, col) || Lists(tables, f, entry.1, col)
  {
    var after := AddSource(tables, f, info, entry);
    if n :| n in info.tables && AnyHas(info.tables[n], col) {
      assert n in after.tables && after.tables[n] == info.tables[n];
    }
    if n :| n in info.ctes && CteLists(f, info.ctes[n], col) {
      assert n in after.ctes && after.ctes[n] == info.ctes[n];
    }
    if Lists(tables, f, entry.1, col) {
      match Judge(tables, entry.1)
      case Known(c) => assert after.tables[entry.0] == c;
      case Inner(id) => assert after.ctes[entry.0] == id && CteLists(f, id, col);
    }
  }

  ghost predicate SomeLists(tables: seq<TableInfo>, f: seq<Scope>, sources: seq<(string, Source)>, col: string) {
    exists k :: 0 <= k < |sources| && Lists(tables, f, sources[k].1, col)
  }

  ghost predicate SomeOpaque(tables: seq<TableInfo>, f: seq<Scope>, sources: seq<(string, Source)>) {
    exists k :: 0 <= k < |sources| && IsOpaque(tables, f, sources[k].1)
  }

  lemma {:induction false} InfoListsExactly(tables: seq<TableInfo>, f: seq<Scope>, sources: seq<(string, Source)>,
                                            col: string)
    requires DistinctSources(sources)
    ensures InfoLists(f, SourcesOf(tables, f, sources), col) <==> SomeLists(tables, f, sources, col)
    ensures SourcesOf(tables, f, sources).isOpaque <==> SomeOpaque(tables, f, sources)
  {
    if sources != [] {
      var last := |sources| - 1;
      var front := sources[..last];
      InfoListsExactly(tables, f, front, col);
      SourcesOfKeys(tables, f, front);
      AddSourceLists(tables, f, SourcesOf(tables, f, front), sources[last], col);
      SomeSplit(tables, f, sources, col);
    }
  }

  lemma SomeSplit(tables: seq<TableInfo>, f: seq<Scope>, sources: seq<(string, Source)>, col: string)
    requires sources != []
    ensures var front, last := sources[..|sources| - 1], sources[|sources| - 1].1;
            && (SomeLists(tables, f, sources, col) <==> SomeLists(tables, f, front, col) || Lists(tables, f, last, col))
            && (SomeOpaque(tables, f, sources) <==> SomeOpaque(tables, f, front) || IsOpaque(tables, f, last))
  {
    var front := sources[..|sources| - 1];
    assert forall k :: 0 <= k < |front| ==> front[k] == sources[k];
  }

  /** The dictionary entry of a source that is no inner scope: its candidates, when it has any. */
  lemma {:induction false} InfoTableAt(tables: seq<TableInfo>, f: seq<Scope>, sources: seq<(string, Source)>, k: nat)
    requires DistinctSources(sources) && k < |sources|
    ensures var info := SourcesOf(tables, f, sources).tables;
            match Judge(tables, sources[k].1)
            case Known(c) => sources[k].0 in info && info[sources[k].0] == c
            case _ => sources[k].0 !in info
  {
    var last := |sources| - 1;
    if k < last {
      InfoTableAt(tables, f, sources[..last], k);
      assert sources[k].0 != sources[last].0;
    } else {
      SourcesOfKeys(tables, f, sources[..last]);
      assert !NamedIn(sources[..last], sources[last].0);
    }
  }

  /** The reports of one scope's columns, in order. */
  ghost function RejectedIn(tables: seq<TableInfo>, f: seq<Scope>, i: nat, columns: seq<ColumnRef>): seq<string>
    requires i < |f|
  {
    if columns == [] then []
    else RejectedIn(tables, f, i, columns[..|columns| - 1]) + ReportOf(tables, f, i, columns[|columns| - 1])
  }

  ghost function ReportOf(tables: seq<TableInfo>, f: seq<Scope>, i: nat, ref: ColumnRef): seq<string>
    requires i < |f|
  {
    if Rejected(tables, f, i, ref) then [Display(tables, f, i, ref)] else []
  }

  lemma RejectedInSnoc(tables: seq<TableInfo>, f: seq<Scope>, i: nat, columns: seq<ColumnRef>, c: nat)
    requires i < |f| && c < |columns|
    ensures RejectedIn(tables, f, i, columns[..c + 1])
         == RejectedIn(tables, f, i, columns[..c]) + ReportOf(tables, f, i, columns[c])
  {
    assert columns[..c + 1][..c] == columns[..c];
  }

  /** The reports of the first `n` scopes. */
  ghost function AllRejected(tables: seq<TableInfo>, f: seq<Scope>, n: nat): seq<string>
    requires n <= |f|
  {
    if n == 0 then [] else AllRejected(tables, f, n - 1) + RejectedIn(tables, f, n - 1, f[n - 1].columns)
  }

  predicate MemoEntry(tables: seq<TableInfo>, f: seq<Scope>, i: nat, info: ScopeSources) {
    i < |f| && info == SourcesOf(tables, f, f[i].sources)
  }

  ghost predicate UnknownAmong(tables: seq<TableInfo>, f: seq<Scope>, visited: set<nat>, d: string) {
    exists i :: i in visited && i < |f| && d in MissingIn(tables, f[i].sources)
  }

  /** The memo agrees with the sources of the scopes visited so far, and so do the recorded unknown tables. */
  ghost predicate MemoHolds(tables: seq<TableInfo>, f: seq<Scope>, resolved: map<nat, ScopeSources>,
                            unknown: seq<string>) {
    && (forall i {:trigger MemoEntry(tables, f, i, resolved[i])} :: i in resolved ==> MemoEntry(tables, f, i, resolved[i]))
    && (forall d {:trigger UnknownAmong(tables, f, resolved.Keys, d)} ::
          d in unknown <==> UnknownAmong(tables, f, resolved.Keys, d))
  }

  lemma MemoExtends(tables: seq<TableInfo>, f: seq<Scope>, resolved: map<nat, ScopeSources>, unknown: seq<string>,
                    i: nat)
    requires MemoHolds(tables, f, resolved, unknown) && i < |f|
    ensures MemoHolds(tables, f, resolved[i := SourcesOf(tables, f, f[i].sources)],
                      unknown + MissingIn(tables, f[i].sources))
  {
    var resolved' := resolved[i := SourcesOf(tables, f, f[i].sources)];
    forall d ensures d in unknown + MissingIn(tables, f[i].sources) <==> UnknownAmong(tables, f, resolved'.Keys, d) {
      assert d in unknown <==> UnknownAmong(tables, f, resolved.Keys, d);
      assert resolved'.Keys == resolved.Keys + {i};
    }
    forall j | j in resolved' ensures MemoEntry(tables, f, j, resolved'[j]) {
      if j != i {
        assert MemoEntry(tables, f, j, resolved[j]);
      }
    }
  }

  lemma MemoComplete(tables: seq<TableInfo>, f: seq<Scope>, resolved: map<nat, ScopeSources>, unknown: seq<string>)
    requires MemoHolds(tables, f, resolved, unknown)
    requires forall j :: 0 <= j < |f| ==> j in resolved.Keys
    ensures UnknownExactly(tables, f, Dedup(unknown))
  {
    forall d ensures d in unknown <==> exists i :: 0 <= i < |f| && d in MissingIn(tables, f[i].sources) {
      assert d in unknown <==> UnknownAmong(tables, f, resolved.Keys, d);
    }
  }

  /** No duplicates, and exactly the unknown tables of all the scopes. */
  ghost predicate UnknownExactly(tables: seq<TableInfo>, f: seq<Scope>, unknown: seq<string>) {
    && NoDuplicates(unknown)
    && forall d :: d in unknown <==> exists i :: 0 <= i < |f| && d in MissingIn(tables, f[i].sources)
  }

  /** The closure state of verify_identifiers. */
  class Verifier {
    const snapshot: seq<TableInfo>
    const forest: seq<Scope>
    const lookup: Lookup
    var resolved: map<nat, ScopeSources>
    var unknownTables: seq<string>
    var unknownColumns: seq<string>

    ghost predicate Indexed() {
      ValidForest(forest) && Faithful(lookup, snapshot)
    }

    ghost predicate Valid()
      reads this
    {
      Indexed() && MemoHolds(snapshot, forest, resolved, unknownTables)
    }

    constructor (snapshot: seq<TableInfo>, forest: seq<Scope>)
      requires ValidForest(forest)
      ensures Valid() && this.snapshot == snapshot && this.forest == forest
      ensures resolved == map[] && unknownTables == [] && unknownColumns == []
    {
      var l := BuildLookup(snapshot);
      this.snapshot, this.forest, lookup := snapshot, forest, l;
      resolved, unknownTables, unknownColumns := map[], [], [];
    }

    /** One round of the loop in scope_sources. */
    method Register(name: string, source: Source, before: ScopeSources) returns (info: ScopeSources)
      requires Indexed() && (source.Nested? ==> source.id < |forest|)
      modifies this`unknownTables
      ensures info == AddSource(snapshot, forest, before, (name, source))
      ensures unknownTables == old(unknownTables) + MissingOf(Judge(snapshot, source))
    {
      info := before;
      match source
      case Nested(id) =>
        info := info.(ctes := info.ctes[name := id]);
        if OutputNames(forest[id]).None? {
          info := info.(isOpaque := true);
        }
      case Other =>
        info := info.(isOpaque := true);
      case TableRef(db, table) =>
        if Lower(db) in SYSTEM_SCHEMAS {
          info := info.(isOpaque := true);
        } else {
          var candidates := lookup.Resolve(db, table);
          assert Agrees(lookup, snapshot, db, table);
          if candidates == [] {
            unknownTables := unknownTables + [if db != "" then db + "." + table else table];
            info := info.(isOpaque := true);
          } else {
            info := info.(tables := info.tables[name := candidates]);
          }
        }
    }

    /** scope_sources: memoised, and the only place where unknown tables are recorded. */
    method Sources(i: nat) returns (info: ScopeSources)
      requires Valid() && i < |forest|
      modifies this`resolved, this`unknownTables
      ensures Valid() && info == SourcesOf(snapshot, forest, forest[i].sources)
      ensures resolved.Keys == old(resolved.Keys) + {i}
    {
      if i in resolved {
        assert MemoEntry(snapshot, forest, i, resolved[i]);
        return resolved[i];
      }
      assert ValidScope(forest, i);
      var sources := forest[i].sources;
      info := NO_SOURCES;
      for k := 0 to |sources|
        invariant info == SourcesOf(snapshot, forest, sources[..k])
        invariant unknownTables == old(unknownTables) + MissingIn(snapshot, sources[..k])
        modifies this`unknownTables
      {
        assert sources[..k + 1][..k] == sources[..k];
        info := Register(sources[k].0, sources[k].1, info);
      }
      assert sources[..|sources|] == sources;
      MemoExtends(snapshot, forest, resolved, old(unknownTables), i);
      resolved := resolved[i := info];
    }

    /** The walk of check_qualified: outwards to the innermost scope that binds the qualifier. */
    method FindBinding(i: nat, name: string) returns (b: Option<(nat, nat)>)
      requires ValidForest(forest) && i < |forest|
      ensures b == Binding(forest, i, name)
    {
      var current := Some(i);
      while current.Some?
        invariant current.Some? ==> current.value < |forest|
        invariant Binding(forest, i, name) == if current.Some? then Binding(forest, current.value, name) else None
        decreases if current.Some? then |forest| - current.value else 0
      {
        assert ValidScope(forest, current.value);
        var found := SourceIndex(forest[current.value].sources, name);
        if found.Some? {
          return Some((current.value, found.value));
        }
        current := forest[current.value].parent;
      }
      return None;
    }

    /** check_qualified. */
    method CheckQualified(i: nat, column: ColumnRef)
      requires Valid() && i < |forest| && column.table != ""
      modifies this
      ensures Valid() && old(resolved.Keys) <= resolved.Keys
      ensures unknownColumns == old(unknownColumns) + ReportOf(snapshot, forest, i, column)
    {
      var binding := FindBinding(i, column.table);
      if binding.None? {
        return;
      }
      BindingFinds(forest, i, column.table);
      var (current, k) := binding.value;
      var source := forest[current].sources[k].1;
      assert ValidScope(forest, current);
      if source.Nested? {
        var visible := OutputNames(forest[source.id]);
        if visible.Some? && Lower(column.name) !in visible.value {
          unknownColumns := unknownColumns + [column.table + "." + column.name];
        }
        return;
      }
      var info := Sources(current);
      InfoTableAt(snapshot, forest, forest[current].sources, k);
      if column.table in info.tables {
        var candidates := info.tables[column.table];
        if candidates != [] && !AnyHas(candidates, Lower(column.name)) {
          unknownColumns := unknownColumns + [candidates[0].name + "." + column.name];
        }
      }
    }

    /** check_unqualified: searches every scope from `i` outwards, giving up at the first opaque one. */
    method CheckUnqualified(i: nat, column: ColumnRef)
      requires Valid() && i < |forest| && column.table == ""
      modifies this
      ensures Valid() && old(resolved.Keys) <= resolved.Keys
      ensures unknownColumns == old(unknownColumns) + ReportOf(snapshot, forest, i, column)
    {
      var col := Lower(column.name);
      if col in AliasNames(forest[i]) {
        return;
      }
      var current := Some(i);
      while current.Some?
        invariant Valid() && old(resolved.Keys) <= resolved.Keys
        invariant unknownColumns == old(unknownColumns)
        invariant current.Some? ==> current.value < |forest|
        invariant BareRejected(snapshot, forest, i, column)
             <==> current.None? || ChainUnexplained(snapshot, forest, current.value, col)
        decreases if current.Some? then |forest| - current.value else 0
      {
        var info := Sources(current.value);
        var sources := forest[current.value].sources;
        assert ValidScope(forest, current.value);
        InfoListsExactly(snapshot, forest, sources, col);
        UnexplainedChainSplit(snapshot, forest, current.value, col);
        if info.isOpaque || InfoLists(forest, info, col) {
          return;
        }
        current := forest[current.value].parent;
      }
      unknownColumns := unknownColumns + [column.name];
    }

    /** One round of the main loop: the scope's sources, then each of its columns. */
    method CheckScope(i: nat)
      requires Valid() && i < |forest|
      modifies this
      ensures Valid() && i in resolved.Keys && old(resolved.Keys) <= resolved.Keys
      ensures unknownColumns == old(unknownColumns) + RejectedIn(snapshot, forest, i, forest[i].columns)
    {
      var _ := Sources(i);
      var columns := forest[i].columns;
      for c := 0 to |columns|
        invariant Valid() && i in resolved.Keys && old(resolved.Keys) <= resolved.Keys
        invariant unknownColumns == old(unknownColumns) + RejectedIn(snapshot, forest, i, columns[..c])
      {
        RejectedInSnoc(snapshot, forest, i, columns, c);
        if columns[c].table != "" {
          CheckQualified(i, columns[c]);
        } else {
          CheckUnqualified(i, columns[c]);
        }
      }
      assert columns[..|columns|] == columns;
    }

    /** The main loop. */
    method CheckAll()
      requires Valid() && unknownColumns == []
      modifies this
      ensures UnknownExactly(snapshot, forest, Dedup(unknownTables))
      ensures unknownColumns == AllRejected(snapshot, forest, |forest|)
    {
      for i := 0 to |forest|
        invariant Valid()
        invariant forall j :: 0 <= j < i ==> j in resolved.Keys
        invariant unknownColumns == AllRejected(snapshot, forest, i)
      {
        CheckScope(i);
      }
      MemoComplete(snapshot, forest, resolved, unknownTables);
    }
  }

  ghost predicate ChainUnexplained(tables: seq<TableInfo>, f: seq<Scope>, i: nat, col: string)
    requires i < |f|
  {
    forall a :: a in Chain(f, i) ==> a < |f| && Unexplained(tables, f, a, col)
  }

  lemma UnexplainedChainSplit(tables: seq<TableInfo>, f: seq<Scope>, i: nat, col: string)
    requires i < |f| && ValidScope(f, i)
    ensures ChainUnexplained(tables, f, i, col)
       <==> Unexplained(tables, f, i, col)
            && (f[i].parent.Some? ==> ChainUnexplained(tables, f, f[i].parent.value, col))
  {
    assert i in Chain(f, i);
    if f[i].parent.Some? {
      var rest := Chain(f, f[i].parent.value);
      assert Chain(f, i) == [i] + rest;
      assert forall a :: a in Chain(f, i) <==> a == i || a in rest;
    }
  }

  /** verify_identifiers. `parsed` is `None` when parsing or scope analysis raises. */
  method VerifyIdentifiers(snapshot: seq<TableInfo>, parsed: Option<seq<Scope>>) returns (r: VerificationResult)
    requires parsed.Some? ==> ValidForest(parsed.value)
    ensures parsed.None? ==> r == VerificationResult([], [])
    ensures parsed.Some? ==> UnknownExactly(snapshot, parsed.value, r.unknownTables)
    ensures parsed.Some? ==> r.unknownColumns == Dedup(AllRejected(snapshot, parsed.value, |parsed.value|))
  {
    if parsed.None? {
      return VerificationResult([], []);
    }
    var f := parsed.value;
    var v := new Verifier(snapshot, f);
    v.CheckAll();
    r := VerificationResult(Dedup(v.unknownTables), Dedup(v.unknownColumns));
  }
}
