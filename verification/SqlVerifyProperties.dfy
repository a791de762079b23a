/** Identifier verification reports exactly the references no reading of the snapshot can explain. */
module SqlVerifyProperties {
  import opened Common
  import opened Schema
  import opened SqlVerify

  /** Picks one snapshot table for every table source, addressed by scope and position. */
  type Choice = (nat, nat) -> TableInfo

  ghost predicate ValidChoice(tables: seq<TableInfo>, f: seq<Scope>, pick: Choice) {
    forall a: nat, k: nat {:trigger pick(a, k)} :: a < |f| && k < |f[a].sources| ==>
      match Judge(tables, f[a].sources[k].1) case Known(c) => pick(a, k) in c case _ => true
  }

  /** With the picked tables in place, this source may provide the column. An opaque source may provide anything. */
  predicate MayProvide(tables: seq<TableInfo>, f: seq<Scope>, pick: Choice, a: nat, k: nat, col: string)
    requires a < |f| && k < |f[a].sources|
  {
    match Judge(tables, f[a].sources[k].1)
    case Inner(id) => id < |f| ==> OutputNames(f[id]).None? || col in OutputNames(f[id]).value
    case Uncheckable => true
    case Missing(_) => true
    case Known(_) => col in ColumnNames(pick(a, k))
  }

  /** A bare name may mean a select alias or a column of any scope on the chain; a qualified one a column
      of its innermost binding. A qualifier bound nowhere cannot be judged. */
  ghost predicate Resolves(tables: seq<TableInfo>, f: seq<Scope>, pick: Choice, i: nat, ref: ColumnRef)
    requires i < |f|
  {
    if ref.table == "" then
      || Lower(ref.name) in AliasNames(f[i])
      || exists a: nat, k: nat {:trigger MayProvide(tables, f, pick, a, k, Lower(ref.name))} ::
           && a in Chain(f, i) && a < |f| && k < |f[a].sources|
           && MayProvide(tables, f, pick, a, k, Lower(ref.name))
    else
      BindingFinds(f, i, ref.table);
      match Binding(f, i, ref.table)
      case None => true
      case Some(b) => MayProvide(tables, f, pick, b.0, b.1, Lower(ref.name))
  }

  const NO_TABLE := TableInfo("", "", "", [], [], [])

  function FirstCandidates(tables: seq<TableInfo>, f: seq<Scope>): Choice {
    (a: nat, k: nat) =>
      if a < |f| && k < |f[a].sources| then
        match Judge(tables, f[a].sources[k].1) case Known(c) => (if c != [] then c[0] else NO_TABLE) case _ => NO_TABLE
      else NO_TABLE
  }

  function Override(pick: Choice, a: nat, k: nat, t: TableInfo): Choice {
    (x: nat, y: nat) => if x == a && y == k then t else pick(x, y)
  }

  lemma FirstCandidatesValid(tables: seq<TableInfo>, f: seq<Scope>)
    ensures ValidChoice(tables, f, FirstCandidates(tables, f))
  {}

  lemma OverrideValid(tables: seq<TableInfo>, f: seq<Scope>, pick: Choice, a: nat, k: nat, t: TableInfo)
    requires ValidChoice(tables, f, pick) && a < |f| && k < |f[a].sources|
    requires Judge(tables, f[a].sources[k].1).Known? && t in Judge(tables, f[a].sources[k].1).candidates
    ensures ValidChoice(tables, f, Override(pick, a, k, t))
  {
    var picked := Override(pick, a, k, t);
    forall x: nat, y: nat {:trigger picked(x, y)} | x < |f| && y < |f[x].sources|
      ensures match Judge(tables, f[x].sources[y].1) case Known(c) => picked(x, y) in c case _ => true
    {
      assert picked(x, y) == if x == a && y == k then t else pick(x, y);
    }
  }

  /** A source that is opaque or lists the column provides it under some valid choice. */
  lemma SomeChoiceProvides(tables: seq<TableInfo>, f: seq<Scope>, a: nat, k: nat, col: string) returns (pick: Choice)
    requires a < |f| && k < |f[a].sources|
    requires IsOpaque(tables, f, f[a].sources[k].1) || Lists(tables, f, f[a].sources[k].1, col)
    ensures ValidChoice(tables, f, pick) && MayProvide(tables, f, pick, a, k, col)
  {
    pick := FirstCandidates(tables, f);
    FirstCandidatesValid(tables, f);
    if Judge(tables, f[a].sources[k].1).Known? {
      var t :| t in Judge(tables, f[a].sources[k].1).candidates && col in ColumnNames(t);
      OverrideValid(tables, f, pick, a, k, t);
      pick := Override(pick, a, k, t);
    }
  }

  /** A source that is neither provides it under no valid choice. */
  lemma NoChoiceProvides(tables: seq<TableInfo>, f: seq<Scope>, pick: Choice, a: nat, k: nat, col: string)
    requires ValidForest(f) && ValidChoice(tables, f, pick) && a < |f| && k < |f[a].sources|
    requires !IsOpaque(tables, f, f[a].sources[k].1) && !Lists(tables, f, f[a].sources[k].1, col)
    ensures !MayProvide(tables, f, pick, a, k, col)
  {
    assert ValidScope(f, a);
    match Judge(tables, f[a].sources[k].1)
    case Known(c) =>
      assert pick(a, k) in c;
      assert !AnyHas(c, col);
    case _ =>
  }

  lemma RejectedUnresolvable(tables: seq<TableInfo>, f: seq<Scope>, pick: Choice, i: nat, ref: ColumnRef)
    requires ValidForest(f) && i < |f| && ValidChoice(tables, f, pick) && Rejected(tables, f, i, ref)
    ensures !Resolves(tables, f, pick, i, ref)
  {
    var col := Lower(ref.name);
    if ref.table == "" {
      forall a: nat, k: nat | a in Chain(f, i) && a < |f| && k < |f[a].sources|
        ensures !MayProvide(tables, f, pick, a, k, col)
      {
        NoChoiceProvides(tables, f, pick, a, k, col);
      }
    } else {
      BindingFinds(f, i, ref.table);
      var b := Binding(f, i, ref.table).value;
      NoChoiceProvides(tables, f, pick, b.0, b.1, col);
    }
  }

  lemma AcceptedResolves(tables: seq<TableInfo>, f: seq<Scope>, i: nat, ref: ColumnRef) returns (pick: Choice)
    requires i < |f| && ValidForest(f) && !Rejected(tables, f, i, ref)
    ensures ValidChoice(tables, f, pick) && Resolves(tables, f, pick, i, ref)
  {
    var col := Lower(ref.name);
    pick := FirstCandidates(tables, f);
    FirstCandidatesValid(tables, f);
    if ref.table == "" {
      if col !in AliasNames(f[i]) {
        ChainInForest(f, i);
        var a :| a in Chain(f, i) && !Unexplained(tables, f, a, col);
        var k :| 0 <= k < |f[a].sources|
                 && (IsOpaque(tables, f, f[a].sources[k].1) || Lists(tables, f, f[a].sources[k].1, col));
        pick := SomeChoiceProvides(tables, f, a, k, col);
      }
    } else {
      BindingFinds(f, i, ref.table);
      if Binding(f, i, ref.table).Some? {
        var b := Binding(f, i, ref.table).value;
        pick := SomeChoiceProvides(tables, f, b.0, b.1, col);
      }
    }
  }

  lemma {:induction false} ChainInForest(f: seq<Scope>, i: nat)
    requires i < |f|
    ensures forall a :: a in Chain(f, i) ==> a < |f|
    decreases |f| - i
  {
    if f[i].parent.Some? && i < f[i].parent.value < |f| {
      ChainInForest(f, f[i].parent.value);
    }
  }

  /** Exactness, and no false alarm: a reference is rejected exactly when it resolves under no choice of
      candidate tables, with every opaque source assumed to provide anything. */
  lemma RejectedIffUnresolvable(tables: seq<TableInfo>, f: seq<Scope>, i: nat, ref: ColumnRef)
    requires ValidForest(f) && i < |f|
    ensures Rejected(tables, f, i, ref)
       <==> forall pick :: ValidChoice(tables, f, pick) ==> !Resolves(tables, f, pick, i, ref)
  {
    if Rejected(tables, f, i, ref) {
      forall pick | ValidChoice(tables, f, pick) ensures !Resolves(tables, f, pick, i, ref) {
        RejectedUnresolvable(tables, f, pick, i, ref);
      }
    } else {
      var pick := AcceptedResolves(tables, f, i, ref);
    }
  }

  ghost predicate ReportedFrom(tables: seq<TableInfo>, f: seq<Scope>, i: nat, ref: ColumnRef, display: string) {
    i < |f| && ref in f[i].columns && Rejected(tables, f, i, ref) && Display(tables, f, i, ref) == display
  }

  lemma {:induction false} RejectedInMembers(tables: seq<TableInfo>, f: seq<Scope>, i: nat,
                                             columns: seq<ColumnRef>, display: string)
    requires i < |f|
    ensures display in RejectedIn(tables, f, i, columns)
       <==> exists ref :: ref in columns && Rejected(tables, f, i, ref) && Display(tables, f, i, ref) == display
  {
    if columns != [] {
      var last := |columns| - 1;
      RejectedInMembers(tables, f, i, columns[..last], display);
      assert columns == columns[..last] + [columns[last]];
      assert forall ref :: ref in columns <==> ref in columns[..last] || ref == columns[last];
    }
  }

  lemma ScopeReports(tables: seq<TableInfo>, f: seq<Scope>, i: nat, display: string)
    requires i < |f|
    ensures ReportedIn(tables, f, i, display) <==> exists ref :: ReportedFrom(tables, f, i, ref, display)
  {
    RejectedInMembers(tables, f, i, f[i].columns, display);
    if ref :| ref in f[i].columns && Rejected(tables, f, i, ref) && Display(tables, f, i, ref) == display {
      assert ReportedFrom(tables, f, i, ref, display);
    }
  }

  ghost predicate ReportedIn(tables: seq<TableInfo>, f: seq<Scope>, i: nat, display: string) {
    i < |f| && display in RejectedIn(tables, f, i, f[i].columns)
  }

  lemma ReportedInLast(tables: seq<TableInfo>, f: seq<Scope>, n: nat, display: string)
    requires n < |f|
    ensures display in AllRejected(tables, f, n + 1)
       <==> display in AllRejected(tables, f, n) || ReportedIn(tables, f, n, display)
  {
    InConcat(AllRejected(tables, f, n), RejectedIn(tables, f, n, f[n].columns), display);
  }

  lemma AllRejectedMembers(tables: seq<TableInfo>, f: seq<Scope>, display: string)
    ensures display in AllRejected(tables, f, |f|) <==> exists i: nat :: i < |f| && ReportedIn(tables, f, i, display)
  {
    var has: nat -> bool := (k: nat) => k <= |f| && display in AllRejected(tables, f, k);
    var adds: nat -> bool := (k: nat) => ReportedIn(tables, f, k, display);
    forall k: nat | k < |f| ensures has(k + 1) <==> has(k) || adds(k) {
      ReportedInLast(tables, f, k, display);
    }
    AddedBySomeStep(has, adds, |f|);
    assert forall i: nat :: i < |f| ==> (adds(i) <==> ReportedIn(tables, f, i, display));
  }

  /** A column is in the result exactly when some scope holds a rejected reference that displays so. */
  lemma ReportedIff(tables: seq<TableInfo>, f: seq<Scope>, display: string)
    ensures display in Dedup(AllRejected(tables, f, |f|))
       <==> exists i: nat, ref :: ReportedFrom(tables, f, i, ref, display)
  {
    AllRejectedMembers(tables, f, display);
    forall i: nat | i < |f| {
      ScopeReports(tables, f, i, display);
    }
    if i: nat, ref :| ReportedFrom(tables, f, i, ref, display) {
      assert ReportedIn(tables, f, i, display);
    }
  }

  ghost predicate FlaggedSource(tables: seq<TableInfo>, f: seq<Scope>, i: nat, k: nat, display: string) {
    i < |f| && k < |f[i].sources| && Judge(tables, f[i].sources[k].1) == Missing(display)
  }

  lemma MissingInLast(tables: seq<TableInfo>, sources: seq<(string, Source)>, k: nat, display: string)
    requires k < |sources|
    ensures display in MissingIn(tables, sources[..k + 1])
       <==> display in MissingIn(tables, sources[..k]) || Judge(tables, sources[k].1) == Missing(display)
  {
    assert sources[..k + 1][..k] == sources[..k];
    InConcat(MissingIn(tables, sources[..k]), MissingOf(Judge(tables, sources[k].1)), display);
  }

  lemma MissingInMembers(tables: seq<TableInfo>, sources: seq<(string, Source)>, display: string)
    ensures display in MissingIn(tables, sources)
       <==> exists k: nat :: k < |sources| && Judge(tables, sources[k].1) == Missing(display)
  {
    var has: nat -> bool := (k: nat) => k <= |sources| && display in MissingIn(tables, sources[..k]);
    var adds: nat -> bool := (k: nat) => k < |sources| && Judge(tables, sources[k].1) == Missing(display);
    forall k: nat | k < |sources| ensures has(k + 1) <==> has(k) || adds(k) {
      MissingInLast(tables, sources, k, display);
    }
    AddedBySomeStep(has, adds, |sources|);
    assert sources[..|sources|] == sources;
    assert forall k: nat :: k < |sources| ==> (adds(k) <==> Judge(tables, sources[k].1) == Missing(display));
  }

  /** Whatever order the memoised visits happen in: the unknown tables are the unresolved, non-system
      table sources of all scopes, each once. */
  lemma UnknownTablesExactly(tables: seq<TableInfo>, f: seq<Scope>, unknown: seq<string>, display: string)
    requires UnknownExactly(tables, f, unknown)
    ensures display in unknown <==> exists i: nat, k: nat :: FlaggedSource(tables, f, i, k, display)
  {
    forall i | 0 <= i < |f| {
      MissingInMembers(tables, f[i].sources, display);
    }
    if display in unknown {
      var i :| 0 <= i < |f| && display in MissingIn(tables, f[i].sources);
      var k :| 0 <= k < |f[i].sources| && Judge(tables, f[i].sources[k].1) == Missing(display);
      assert FlaggedSource(tables, f, i, k, display);
    }
  }
}
