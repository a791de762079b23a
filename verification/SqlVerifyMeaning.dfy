/** What identifier verification reports, read off the statement's scopes and the snapshot alone. */
module SqlVerifyMeaning {
  import opened Common
  import opened Schema
  import opened SqlVerify
  import opened SqlVerifyProperties

  predicate SameName(a: string, b: string) { Lower(a) == Lower(b) }

  // ---------------------------------------------------------- what a source is

  /** The table matches the reference: by bare name, or by namespace and name. */
  predicate Matches(t: TableInfo, db: string, name: string) {
    (db == "" || SameName(t.schema, db)) && SameName(t.name, name)
  }

  /** The snapshot table at position `i` is what the reference may mean: any match of a bare name, the last match of
      a qualified one. */
  ghost predicate MayMean(tables: seq<TableInfo>, db: string, name: string, i: nat) {
    && i < |tables| && Matches(tables[i], db, name)
    && (db != "" ==> forall j :: i < j < |tables| ==> !Matches(tables[j], db, name))
  }

  /** Its columns cannot be listed: it selects a star, is no table, is a system table, or is not in the snapshot. */
  ghost predicate CannotBeListed(tables: seq<TableInfo>, f: seq<Scope>, source: Source) {
    match source
    case Nested(id) => id < |f| && "*" in f[id].outputs
    case Other => true
    case TableRef(db, name) =>
      Lower(db) in SYSTEM_SCHEMAS || forall t :: t in tables ==> !Matches(t, db, name)
  }

  /** It has a column of this name up to case. */
  ghost predicate Offers(tables: seq<TableInfo>, f: seq<Scope>, source: Source, col: string) {
    match source
    case Nested(id) => id < |f| && exists o :: o in f[id].outputs && SameName(o, col)
    case Other => false
    case TableRef(db, name) => exists i: nat :: MayMean(tables, db, name, i) && HasColumn(tables[i], col)
  }

  predicate HasColumn(t: TableInfo, col: string) { exists c :: c in t.columns && SameName(c.name, col) }

  lemma {:induction false} NamedTablesAre(tables: seq<TableInfo>, name: string)
    ensures forall t :: t in NamedTables(tables, Lower(name)) <==> t in tables && SameName(t.name, name)
  {
    if tables != [] {
      var last := |tables| - 1;
      assert tables == tables[..last] + [tables[last]];
      NamedTablesAre(tables[..last], name);
    }
  }

  lemma {:induction false} LastQualifiedIs(tables: seq<TableInfo>, db: string, name: string)
    requires db != ""
    ensures match LastQualified(tables, (Lower(db), Lower(name)))
            case Some(t) => exists i: nat :: MayMean(tables, db, name, i) && tables[i] == t
            case None => forall t :: t in tables ==> !Matches(t, db, name)
  {
    if tables != [] {
      var last := |tables| - 1;
      assert tables == tables[..last] + [tables[last]];
      if Matches(tables[last], db, name) {
        assert MayMean(tables, db, name, last);
      } else {
        LastQualifiedIs(tables[..last], db, name);
        if i: nat :| MayMean(tables[..last], db, name, i) {
          assert MayMean(tables, db, name, i);
        }
      }
    }
  }

  lemma OneLastMatch(tables: seq<TableInfo>, db: string, name: string, i: nat, j: nat)
    requires db != "" && MayMean(tables, db, name, i) && MayMean(tables, db, name, j)
    ensures i == j
  {}

  /** The candidates are the tables a reference may mean. */
  lemma CandidatesAre(tables: seq<TableInfo>, db: string, name: string)
    ensures forall t :: t in Candidates(tables, db, name) <==> exists i: nat :: MayMean(tables, db, name, i) && tables[i] == t
    ensures Candidates(tables, db, name) == [] <==> forall t :: t in tables ==> !Matches(t, db, name)
  {
    if db != "" {
      LastQualifiedIs(tables, db, name);
      forall i: nat, j: nat | MayMean(tables, db, name, i) && MayMean(tables, db, name, j) ensures i == j {
        OneLastMatch(tables, db, name, i, j);
      }
    } else {
      NamedTablesAre(tables, name);
      forall t ensures (t in tables && Matches(t, db, name)) <==> exists i: nat :: MayMean(tables, db, name, i) && tables[i] == t {
        if t in tables && Matches(t, db, name) {
          var i: nat :| i < |tables| && tables[i] == t;
          assert MayMean(tables, db, name, i);
        }
      }
      assert Candidates(tables, db, name) != [] ==> Candidates(tables, db, name)[0] in NamedTables(tables, Lower(name));
    }
  }

  lemma ColumnNamesAre(t: TableInfo, col: string)
    ensures Lower(col) in ColumnNames(t) <==> HasColumn(t, col)
  {}

  lemma OpaqueMeans(tables: seq<TableInfo>, f: seq<Scope>, source: Source)
    requires source.Nested? ==> source.id < |f|
    ensures IsOpaque(tables, f, source) <==> CannotBeListed(tables, f, source)
  {
    if source.TableRef? {
      CandidatesAre(tables, source.db, source.name);
    }
  }

  lemma ListsMeans(tables: seq<TableInfo>, f: seq<Scope>, source: Source, col: string)
    requires source.Nested? ==> source.id < |f|
    requires !CannotBeListed(tables, f, source)
    ensures Lists(tables, f, source, Lower(col)) <==> Offers(tables, f, source, col)
  {
    match source
    case Nested(id) =>
    case Other =>
    case TableRef(db, name) =>
      var candidates := Candidates(tables, db, name);
      CandidatesAre(tables, db, name);
      if AnyHas(candidates, Lower(col)) {
        var t :| t in candidates && Lower(col) in ColumnNames(t);
        ColumnNamesAre(t, col);
        var i: nat :| MayMean(tables, db, name, i) && tables[i] == t;
        assert HasColumn(tables[i], col);
      }
      if i: nat :| MayMean(tables, db, name, i) && HasColumn(tables[i], col) {
        ColumnNamesAre(tables[i], col);
        assert tables[i] in candidates;
      }
  }

  // -------------------------------------------------------- which scopes matter

  /** Each scope of the list is the parent of the one before it. */
  ghost predicate IsPath(f: seq<Scope>, path: seq<nat>) {
    && path != [] && (forall k :: 0 <= k < |path| ==> path[k] < |f|)
    && forall k :: 0 <= k < |path| - 1 ==> f[path[k]].parent == Some(path[k + 1])
  }

  /** `path` leads from scope `i` out to scope `a`. */
  ghost predicate LeadsTo(f: seq<Scope>, path: seq<nat>, i: nat, a: nat) {
    IsPath(f, path) && path[0] == i && path[|path| - 1] == a
  }

  lemma {:induction false} ChainIsEnclosing(f: seq<Scope>, i: nat, a: nat)
    requires ValidForest(f) && i < |f|
    ensures a in Chain(f, i) <==> exists path :: LeadsTo(f, path, i, a)
    decreases |f| - i
  {
    assert ValidScope(f, i);
    if a == i {
      assert LeadsTo(f, [i], i, a);
    } else if f[i].parent.Some? {
      var p := f[i].parent.value;
      ChainIsEnclosing(f, p, a);
      if path :| LeadsTo(f, path, p, a) {
        assert LeadsTo(f, [i] + path, i, a);
      }
      if path :| LeadsTo(f, path, i, a) {
        PathTail(f, path, i, a);
      }
    } else {
      if path :| LeadsTo(f, path, i, a) {
        assert |path| >= 2 ==> f[path[0]].parent == Some(path[0 + 1]);
      }
    }
  }

  lemma PathTail(f: seq<Scope>, path: seq<nat>, i: nat, a: nat)
    requires LeadsTo(f, path, i, a) && a != i
    ensures |path| >= 2 && f[i].parent == Some(path[1]) && LeadsTo(f, path[1..], path[1], a)
  {
    assert f[path[0]].parent == Some(path[0 + 1]);
  }

  // ------------------------------------------------------------- bare references

  /** Source `k` of scope `a` is visible from scope `i`. */
  ghost predicate Visible(f: seq<Scope>, i: nat, a: nat, k: nat) {
    a < |f| && k < |f[a].sources| && exists path :: LeadsTo(f, path, i, a)
  }

  /** Neither a select alias nor any visible source explains the name, and every visible source can be listed. */
  ghost predicate BareUnknown(tables: seq<TableInfo>, f: seq<Scope>, i: nat, name: string)
    requires i < |f|
  {
    && (forall alias :: alias in f[i].aliases ==> !SameName(alias, name))
    && forall a: nat, k: nat :: Visible(f, i, a, k) ==>
         !CannotBeListed(tables, f, f[a].sources[k].1) && !Offers(tables, f, f[a].sources[k].1, name)
  }

  lemma BareMeans(tables: seq<TableInfo>, f: seq<Scope>, i: nat, ref: ColumnRef)
    requires ValidForest(f) && i < |f| && ref.table == ""
    ensures Rejected(tables, f, i, ref) <==> BareUnknown(tables, f, i, ref.name)
  {
    ChainInForest(f, i);
    forall a: nat, k: nat | a < |f| && k < |f[a].sources|
      ensures Visible(f, i, a, k) <==> a in Chain(f, i)
      ensures SourceExplains(tables, f, a, k, ref.name)
          <==> CannotBeListed(tables, f, f[a].sources[k].1) || Offers(tables, f, f[a].sources[k].1, ref.name)
    {
      ChainIsEnclosing(f, i, a);
      assert ValidScope(f, a);
      ExplainsMeans(tables, f, f[a].sources[k].1, ref.name);
    }
    forall a: nat | a < |f|
      ensures Unexplained(tables, f, a, Lower(ref.name))
         <==> forall k: nat :: k < |f[a].sources| ==> !SourceExplains(tables, f, a, k, ref.name)
    {}
  }

  predicate SourceExplains(tables: seq<TableInfo>, f: seq<Scope>, a: nat, k: nat, name: string)
    requires a < |f| && k < |f[a].sources|
  {
    IsOpaque(tables, f, f[a].sources[k].1) || Lists(tables, f, f[a].sources[k].1, Lower(name))
  }

  lemma ExplainsMeans(tables: seq<TableInfo>, f: seq<Scope>, source: Source, name: string)
    requires source.Nested? ==> source.id < |f|
    ensures IsOpaque(tables, f, source) || Lists(tables, f, source, Lower(name))
       <==> CannotBeListed(tables, f, source) || Offers(tables, f, source, name)
  {
    OpaqueMeans(tables, f, source);
    if !CannotBeListed(tables, f, source) {
      ListsMeans(tables, f, source, name);
    }
  }

  // -------------------------------------------------------- qualified references

  ghost predicate HasSource(s: Scope, name: string) { exists k :: 0 <= k < |s.sources| && s.sources[k].0 == name }

  /** Source `k` of scope `a` is the innermost one called `name`, seen from scope `i`. */
  ghost predicate Binds(f: seq<Scope>, i: nat, name: string, a: nat, k: nat) {
    && a < |f| && k < |f[a].sources| && f[a].sources[k].0 == name
    && exists path :: LeadsTo(f, path, i, a) && forall j :: 0 <= j < |path| - 1 ==> !HasSource(f[path[j]], name)
  }

  lemma BindsHere(f: seq<Scope>, i: nat, name: string, k: nat)
    requires i < |f| && k < |f[i].sources| && f[i].sources[k].0 == name
    ensures Binds(f, i, name, i, k)
  {
    assert LeadsTo(f, [i], i, i);
  }

  lemma BindsOutside(f: seq<Scope>, i: nat, p: nat, name: string, a: nat, k: nat)
    requires i < |f| && f[i].parent == Some(p) && !HasSource(f[i], name) && Binds(f, p, name, a, k)
    ensures Binds(f, i, name, a, k)
  {
    var path :| LeadsTo(f, path, p, a) && forall j :: 0 <= j < |path| - 1 ==> !HasSource(f[path[j]], name);
    var longer := [i] + path;
    assert LeadsTo(f, longer, i, a);
    forall j | 0 <= j < |longer| - 1 ensures !HasSource(f[longer[j]], name) {
      assert j > 0 ==> longer[j] == path[j - 1];
    }
  }

  lemma BindsInside(f: seq<Scope>, i: nat, name: string, a: nat, k: nat)
    requires i < |f| && Binds(f, i, name, a, k)
    ensures a == i || (!HasSource(f[i], name) && f[i].parent.Some? && Binds(f, f[i].parent.value, name, a, k))
  {
    if a != i {
      var path :| LeadsTo(f, path, i, a) && forall j :: 0 <= j < |path| - 1 ==> !HasSource(f[path[j]], name);
      PathTail(f, path, i, a);
      assert !HasSource(f[path[0]], name);
      assert forall j :: 0 <= j < |path[1..]| - 1 ==> path[1..][j] == path[j + 1];
    }
  }

  /** The binding is the innermost source of that name, if any. */
  lemma {:induction false} BindingMeans(f: seq<Scope>, i: nat, name: string)
    requires ValidForest(f) && i < |f|
    ensures forall a: nat, k: nat :: Binding(f, i, name) == Some((a, k)) <==> Binds(f, i, name, a, k)
    decreases |f| - i
  {
    assert ValidScope(f, i);
    SourceIndexFinds(f[i].sources, name);
    match SourceIndex(f[i].sources, name)
    case Some(k) =>
      BindsHere(f, i, name, k);
      forall b: nat, j: nat | Binds(f, i, name, b, j) ensures b == i && j == k {
        BindsInside(f, i, name, b, j);
        assert HasSource(f[i], name);
        assert f[i].sources[j].0 == f[i].sources[k].0;
      }
    case None =>
      assert !HasSource(f[i], name);
      if f[i].parent.Some? {
        BindingMeans(f, f[i].parent.value, name);
        forall a: nat, k: nat ensures Binds(f, i, name, a, k) <==> Binds(f, f[i].parent.value, name, a, k) {
          if Binds(f, i, name, a, k) { BindsInside(f, i, name, a, k); }
          if Binds(f, f[i].parent.value, name, a, k) { BindsOutside(f, i, f[i].parent.value, name, a, k); }
        }
      } else {
        forall a: nat, k: nat | Binds(f, i, name, a, k) ensures false {
          BindsInside(f, i, name, a, k);
        }
      }
  }

  /** The innermost source of that name can be listed and has no such column. */
  ghost predicate QualifiedUnknown(tables: seq<TableInfo>, f: seq<Scope>, i: nat, ref: ColumnRef) {
    exists a: nat, k: nat :: Binds(f, i, ref.table, a, k)
      && !CannotBeListed(tables, f, f[a].sources[k].1) && !Offers(tables, f, f[a].sources[k].1, ref.name)
  }

  lemma QualifiedMeans(tables: seq<TableInfo>, f: seq<Scope>, i: nat, ref: ColumnRef)
    requires ValidForest(f) && i < |f| && ref.table != ""
    ensures Rejected(tables, f, i, ref) <==> QualifiedUnknown(tables, f, i, ref)
  {
    BindingFinds(f, i, ref.table);
    BindingMeans(f, i, ref.table);
    match Binding(f, i, ref.table)
    case None =>
    case Some(b) =>
      assert ValidScope(f, b.0);
      assert Binds(f, i, ref.table, b.0, b.1);
      ExplainsMeans(tables, f, f[b.0].sources[b.1].1, ref.name);
  }

  ghost predicate Unknown(tables: seq<TableInfo>, f: seq<Scope>, i: nat, ref: ColumnRef)
    requires i < |f|
  {
    if ref.table == "" then BareUnknown(tables, f, i, ref.name) else QualifiedUnknown(tables, f, i, ref)
  }

  /** What a rejection means, from the scopes and the snapshot alone. */
  lemma RejectedMeans(tables: seq<TableInfo>, f: seq<Scope>, i: nat, ref: ColumnRef)
    requires ValidForest(f) && i < |f|
    ensures Rejected(tables, f, i, ref) <==> Unknown(tables, f, i, ref)
  {
    if ref.table == "" { BareMeans(tables, f, i, ref); } else { QualifiedMeans(tables, f, i, ref); }
  }

  // ------------------------------------------------------------ the false alarms

  /** A bare reference from which a source that cannot be listed is visible is never reported, whatever it is called. */
  lemma NoAlarmBesideUnlistable(tables: seq<TableInfo>, f: seq<Scope>, i: nat, ref: ColumnRef, a: nat, k: nat)
    requires ValidForest(f) && i < |f| && ref.table == "" && Visible(f, i, a, k)
    requires CannotBeListed(tables, f, f[a].sources[k].1)
    ensures !Rejected(tables, f, i, ref)
  {
    RejectedMeans(tables, f, i, ref);
  }

  /** Nor is a qualified reference whose qualifier is such a source. */
  lemma NoAlarmOnUnlistable(tables: seq<TableInfo>, f: seq<Scope>, i: nat, ref: ColumnRef, a: nat, k: nat)
    requires ValidForest(f) && i < |f| && ref.table != "" && Binds(f, i, ref.table, a, k)
    requires CannotBeListed(tables, f, f[a].sources[k].1)
    ensures !Rejected(tables, f, i, ref)
  {
    RejectedMeans(tables, f, i, ref);
    BindingMeans(f, i, ref.table);
  }

  // --------------------------------------------------------------- what is shown

  /** The first table of the snapshot that the reference may mean. */
  ghost predicate FirstMeant(tables: seq<TableInfo>, db: string, name: string, t: TableInfo) {
    exists i: nat :: MayMean(tables, db, name, i) && tables[i] == t && forall j: nat :: j < i ==> !MayMean(tables, db, name, j)
  }

  lemma {:induction false} FirstNamedIs(tables: seq<TableInfo>, name: string)
    ensures NamedTables(tables, Lower(name)) != [] ==>
      exists i: nat :: i < |tables| && SameName(tables[i].name, name) && tables[i] == NamedTables(tables, Lower(name))[0]
                       && forall j: nat :: j < i ==> !SameName(tables[j].name, name)
  {
    if tables != [] {
      var last := |tables| - 1;
      FirstNamedIs(tables[..last], name);
      NamedTablesAre(tables[..last], name);
      if NamedTables(tables[..last], Lower(name)) == [] {
        forall j: nat | j < last ensures !SameName(tables[j].name, name) {
          assert tables[j] in tables[..last];
        }
      } else {
        var i: nat :| i < last && SameName(tables[..last][i].name, name)
                      && tables[..last][i] == NamedTables(tables[..last], Lower(name))[0]
                      && forall j: nat :: j < i ==> !SameName(tables[..last][j].name, name);
        assert forall j: nat :: j < i ==> tables[..last][j] == tables[j];
      }
    }
  }

  lemma FirstCandidateIs(tables: seq<TableInfo>, db: string, name: string)
    requires Candidates(tables, db, name) != []
    ensures FirstMeant(tables, db, name, Candidates(tables, db, name)[0])
  {
    if db != "" {
      LastQualifiedIs(tables, db, name);
      var i: nat :| MayMean(tables, db, name, i) && tables[i] == Candidates(tables, db, name)[0];
      forall j: nat | j < i && MayMean(tables, db, name, j) ensures false {
        OneLastMatch(tables, db, name, i, j);
      }
    } else {
      FirstNamedIs(tables, name);
      var i: nat :| i < |tables| && SameName(tables[i].name, name) && tables[i] == Candidates(tables, db, name)[0]
                    && forall j: nat :: j < i ==> !SameName(tables[j].name, name);
      assert MayMean(tables, db, name, i);
    }
  }

  lemma OneFirstMeant(tables: seq<TableInfo>, db: string, name: string, t: TableInfo, u: TableInfo)
    requires FirstMeant(tables, db, name, t) && FirstMeant(tables, db, name, u)
    ensures t == u
  {}

  /** How an unknown reference is shown: a bare one as written; a qualified one after the first table it may mean, or
      after its qualifier when that is an inner scope. */
  ghost predicate ShownAs(tables: seq<TableInfo>, f: seq<Scope>, i: nat, ref: ColumnRef, display: string) {
    if ref.table == "" then display == ref.name
    else exists a: nat, k: nat :: Binds(f, i, ref.table, a, k) && ShownAfter(tables, f[a].sources[k].1, ref, display)
  }

  ghost predicate ShownAfter(tables: seq<TableInfo>, source: Source, ref: ColumnRef, display: string) {
    match source
    case TableRef(db, name) => exists t :: FirstMeant(tables, db, name, t) && display == t.name + "." + ref.name
    case _ => display == ref.table + "." + ref.name
  }

  lemma DisplayMeans(tables: seq<TableInfo>, f: seq<Scope>, i: nat, ref: ColumnRef, display: string)
    requires ValidForest(f) && i < |f| && Rejected(tables, f, i, ref)
    ensures Display(tables, f, i, ref) == display <==> ShownAs(tables, f, i, ref, display)
  {
    if ref.table != "" {
      BindingFinds(f, i, ref.table);
      BindingMeans(f, i, ref.table);
      var b := Binding(f, i, ref.table).value;
      assert Binds(f, i, ref.table, b.0, b.1);
      DisplayAfter(tables, f[b.0].sources[b.1].1, ref, display);
    }
  }

  lemma DisplayAfter(tables: seq<TableInfo>, source: Source, ref: ColumnRef, display: string)
    requires !Judge(tables, source).Uncheckable? && !Judge(tables, source).Missing?
    ensures ShownAfter(tables, source, ref, display)
       <==> display == match Judge(tables, source)
                       case Known(candidates) => (if candidates != [] then candidates[0].name else "") + "." + ref.name
                       case _ => ref.table + "." + ref.name
  {
    match source
    case TableRef(db, name) =>
      var first := Candidates(tables, db, name)[0];
      FirstCandidateIs(tables, db, name);
      forall t | FirstMeant(tables, db, name, t) ensures t == first {
        OneFirstMeant(tables, db, name, t, first);
      }
    case _ =>
  }

  // ---------------------------------------------------------------- the whole result

  /** A source names no table of the snapshot and none of a system schema, and is shown as it was written. */
  predicate NamesNothing(tables: seq<TableInfo>, source: Source, display: string) {
    && source.TableRef? && Lower(source.db) !in SYSTEM_SCHEMAS
    && (forall t :: t in tables ==> !Matches(t, source.db, source.name))
    && display == if source.db == "" then source.name else source.db + "." + source.name
  }

  lemma MissingMeans(tables: seq<TableInfo>, source: Source, display: string)
    ensures Judge(tables, source) == Missing(display) <==> NamesNothing(tables, source, display)
  {
    if source.TableRef? {
      CandidatesAre(tables, source.db, source.name);
    }
  }

  /** Some scope holds an unknown reference that is shown so. */
  ghost predicate ColumnListed(tables: seq<TableInfo>, f: seq<Scope>, display: string) {
    exists i: nat, ref :: i < |f| && ref in f[i].columns && Unknown(tables, f, i, ref) && ShownAs(tables, f, i, ref, display)
  }

  /** Some scope has a source that names nothing and is shown so. */
  ghost predicate TableListed(tables: seq<TableInfo>, f: seq<Scope>, display: string) {
    exists i: nat, k: nat :: i < |f| && k < |f[i].sources| && NamesNothing(tables, f[i].sources[k].1, display)
  }

  lemma ColumnsMean(tables: seq<TableInfo>, f: seq<Scope>, display: string)
    requires ValidForest(f)
    ensures display in Dedup(AllRejected(tables, f, |f|)) <==> ColumnListed(tables, f, display)
  {
    ReportedIff(tables, f, display);
    forall i: nat, ref | i < |f| && ref in f[i].columns
      ensures ReportedFrom(tables, f, i, ref, display)
         <==> Unknown(tables, f, i, ref) && ShownAs(tables, f, i, ref, display)
    {
      RejectedMeans(tables, f, i, ref);
      if Rejected(tables, f, i, ref) {
        DisplayMeans(tables, f, i, ref, display);
      }
    }
  }

  lemma TablesMean(tables: seq<TableInfo>, f: seq<Scope>, unknown: seq<string>, display: string)
    requires UnknownExactly(tables, f, unknown)
    ensures display in unknown <==> TableListed(tables, f, display)
  {
    UnknownTablesExactly(tables, f, unknown, display);
    forall i: nat, k: nat | i < |f| && k < |f[i].sources|
      ensures FlaggedSource(tables, f, i, k, display) <==> NamesNothing(tables, f[i].sources[k].1, display)
    {
      MissingMeans(tables, f[i].sources[k].1, display);
    }
  }

  /** What verify_identifiers returns for a statement with scopes, from the scopes and the snapshot alone. */
  lemma ResultMeans(tables: seq<TableInfo>, f: seq<Scope>, r: VerificationResult)
    requires ValidForest(f) && UnknownExactly(tables, f, r.unknownTables)
    requires r.unknownColumns == Dedup(AllRejected(tables, f, |f|))
    ensures NoDuplicates(r.unknownTables) && NoDuplicates(r.unknownColumns)
    ensures forall d :: d in r.unknownColumns <==> ColumnListed(tables, f, d)
    ensures forall d :: d in r.unknownTables <==> TableListed(tables, f, d)
  {
    forall d ensures d in r.unknownColumns <==> ColumnListed(tables, f, d) {
      ColumnsMean(tables, f, d);
    }
    forall d ensures d in r.unknownTables <==> TableListed(tables, f, d) {
      TablesMean(tables, f, r.unknownTables, d);
    }
  }
}
