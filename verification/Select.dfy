/** Cost-aware schema selection (select.py): a greedy packer over ranked tables. */
module Select {
  import opened Common
  import opened Schema

  // ---------------------------------------------------------------- relevance

  predicate IsWordChar(c: char) { 'a' <= c <= 'z' || '0' <= c <= '9' }

  /** Length of the run of word characters at the start of `s`. */
  function WordRun(s: string): (n: nat)
    ensures n <= |s|
  {
    if s == "" || !IsWordChar(s[0]) then 0 else 1 + WordRun(s[1..])
  }

  function Words(lowered: string): set<string> {
    if lowered == "" then {}
    else
      var n := WordRun(lowered);
      if n == 0 then Words(lowered[1..])
      else (if n >= 3 then {lowered[..n]} else {}) + Words(lowered[n..])
  }

  /** Every run of other characters collapses to one blank. */
  function Cleaned(lowered: string, afterBlank: bool): string {
    if lowered == "" then ""
    else if IsWordChar(lowered[0]) then [lowered[0]] + Cleaned(lowered[1..], false)
    else (if afterBlank then "" else " ") + Cleaned(lowered[1..], true)
  }

  function Tokens(text: string): set<string> { Words(Lower(text)) }

  function Trigrams(text: string): set<string> {
    Windows(Cleaned(Lower(text), false))
  }

  function Windows(s: string): set<string> {
    if |s| < 3 then {} else {s[..3]} + Windows(s[1..])
  }

  predicate Contains(text: string, part: string) {
    part <= text || (text != "" && Contains(text[1..], part))
  }

  function ColumnWords(columns: seq<ColumnInfo>): seq<string> {
    if columns == [] then []
    else [columns[0].name] + (if columns[0].comment != "" then [columns[0].comment] else [])
         + ColumnWords(columns[1..])
  }

  datatype Query = Query(tokens: set<string>, trigrams: set<string>)

  /** Ten times `strong`: whole-word matches weigh 3, words inside the table name 2. */
  function Strong(t: TableInfo, q: Query): nat {
    var tableTokens := Tokens(Join(" ", [t.name, t.comment] + ColumnWords(t.columns)));
    30 * |q.tokens * tableTokens| + 20 * |set w | w in q.tokens && Contains(Lower(t.name), w)|
  }

  /** Ten times `total`: a shared trigram adds 0.1. */
  function Total(t: TableInfo, q: Query): nat {
    Strong(t, q) + |q.trigrams * Trigrams(Lower(t.name))|
  }

  function ByTotal(q: Query): TableInfo -> int { t => Total(t, q) }

  /** `scored.sort(key=total, reverse=True)`. */
  function Ranked(tables: seq<TableInfo>, q: Query): seq<TableInfo> { SortDescending(tables, ByTotal(q)) }

  /** The ranking is a permutation of the tables, in descending score, ties in snapshot order. */
  lemma RankedIsStableSort(tables: seq<TableInfo>, q: Query)
    ensures multiset(Ranked(tables, q)) == multiset(tables)
    ensures forall i, j :: 0 <= i < j < |Ranked(tables, q)| ==> Total(Ranked(tables, q)[i], q) >= Total(Ranked(tables, q)[j], q)
    ensures forall k: int :: WithKey(Ranked(tables, q), ByTotal(q), k) == WithKey(tables, ByTotal(q), k)
  {
    SortDescendingIsStableSort(tables, ByTotal(q));
    forall i, j | 0 <= i < j < |Ranked(tables, q)| ensures Total(Ranked(tables, q)[i], q) >= Total(Ranked(tables, q)[j], q) {
      assert ByTotal(q)(Ranked(tables, q)[i]) >= ByTotal(q)(Ranked(tables, q)[j]);
    }
  }

  function Matching(ranked: seq<TableInfo>, q: Query): seq<TableInfo> {
    if ranked == [] then []
    else (if Strong(ranked[0], q) > 0 then [ranked[0]] else []) + Matching(ranked[1..], q)
  }

  /** Tables with a direct match, or the highest-ranked table when nothing matches. */
  function Seeds(ranked: seq<TableInfo>, q: Query): seq<TableInfo>
    requires ranked != []
  {
    var matching := Matching(ranked, q);
    if matching != [] then matching else [ranked[0]]
  }

  // ------------------------------------------------------------------ packing

  function Names(tables: seq<TableInfo>): set<string> { set t | t in tables :: t.name }

  ghost predicate DistinctNames(tables: seq<TableInfo>) {
    forall i, j :: 0 <= i < j < |tables| ==> tables[i].name != tables[j].name
  }

  /** `{table["name"]: table for table in tables}`: the last table of a name wins. */
  function ByName(tables: seq<TableInfo>): map<string, TableInfo> {
    if tables == [] then map[]
    else ByName(tables[..|tables| - 1])[tables[|tables| - 1].name := tables[|tables| - 1]]
  }

  /** `selected` after `_try_add(t)`; `selected` lists the dict's values in insertion order. */
  function AfterTry(selected: seq<TableInfo>, t: TableInfo, budget: int): seq<TableInfo> {
    if t.name in Names(selected) then selected
    else if TablesTokens(selected + [t]) <= budget || selected == [] then selected + [t]
    else selected
  }

  function WithNeighbours(selected: seq<TableInfo>, fks: seq<ForeignKeyInfo>,
                         byName: map<string, TableInfo>, budget: int): seq<TableInfo>
    decreases |fks|
  {
    if fks == [] then selected
    else
      var next := if fks[0].refTable in byName then AfterTry(selected, byName[fks[0].refTable], budget) else selected;
      WithNeighbours(next, fks[1..], byName, budget)
  }

  /** The seed pass stops at the first seed that does not fit. */
  function WithSeeds(selected: seq<TableInfo>, seeds: seq<TableInfo>,
                    byName: map<string, TableInfo>, budget: int): seq<TableInfo>
    decreases |seeds|
  {
    if seeds == [] then selected
    else
      var next := AfterTry(selected, seeds[0], budget);
      if seeds[0].name !in Names(next) then next
      else WithSeeds(WithNeighbours(next, seeds[0].foreignKeys, byName, budget), seeds[1..], byName, budget)
  }

  function WithAll(selected: seq<TableInfo>, tables: seq<TableInfo>, budget: int): seq<TableInfo>
    decreases |tables|
  {
    if tables == [] then selected else WithAll(AfterTry(selected, tables[0], budget), tables[1..], budget)
  }

  function Packing(tables: seq<TableInfo>, q: Query, budget: int): seq<TableInfo>
    requires tables != []
  {
    RankedIsStableSort(tables, q);
    var ranked := Ranked(tables, q);
    WithAll(WithSeeds([], Seeds(ranked, q), ByName(tables), budget), ranked, budget)
  }

  /** The snapshot-order listing of the tables whose bare name was selected. */
  function Chosen(tables: seq<TableInfo>, selected: seq<TableInfo>): seq<TableInfo> {
    if tables == [] then []
    else (if tables[0].name in Names(selected) then [tables[0]] else []) + Chosen(tables[1..], selected)
  }

  datatype Warning = OverBudget(total: nat, sent: nat)

  datatype SelectedSchema = SelectedSchema(text: string, warnings: seq<Warning>, sent: nat, total: nat)

  function QueryOf(question: string): Query { Query(Tokens(question), Trigrams(question)) }

  function Budget(tables: seq<TableInfo>, maxTokens: int): int {
    maxTokens - EstimateTokens(Directory(tables))
  }

  predicate SendsAll(tables: seq<TableInfo>, maxTokens: int) {
    tables == [] || EstimateTokens(SchemaText(tables)) <= maxTokens
  }

  function ChosenFor(tables: seq<TableInfo>, question: string, maxTokens: int): seq<TableInfo>
    requires tables != []
  {
    Chosen(tables, Packing(tables, QueryOf(question), Budget(tables, maxTokens)))
  }

  /** What select_schema returns. */
  function Selection(tables: seq<TableInfo>, question: string, maxTokens: int): SelectedSchema {
    if SendsAll(tables, maxTokens) then SelectedSchema(SchemaText(tables), [], |tables|, |tables|)
    else
      Trimmed(tables, ChosenFor(tables, question, maxTokens))
  }

  function Trimmed(tables: seq<TableInfo>, chosen: seq<TableInfo>): SelectedSchema {
    SelectedSchema(Directory(tables) + "\n\n" + TablesText(chosen),
                   [OverBudget(|tables|, |chosen|)], |chosen|, |tables|)
  }

  /** The `selected` dict that the nested `_try_add` closes over. */
  class Packer {
    var selected: seq<TableInfo>
    const budget: int

    constructor (budget: int)
      ensures selected == [] && this.budget == budget
    {
      selected := [];
      this.budget := budget;
    }

    method TryAdd(t: TableInfo) returns (added: bool)
      modifies this
      ensures selected == AfterTry(old(selected), t, budget)
      ensures added <==> t.name in Names(selected)
    {
      if t.name in Names(selected) {
        return true;
      }
      if TablesTokens(selected + [t]) <= budget || selected == [] {
        selected := selected + [t];
        assert t in selected;
        return true;
      }
      return false;
    }

    /** Adds the foreign-key neighbours of one accepted seed. */
    method AddNeighbours(fks: seq<ForeignKeyInfo>, byName: map<string, TableInfo>)
      modifies this
      ensures selected == WithNeighbours(old(selected), fks, byName, budget)
    {
      for j := 0 to |fks|
        invariant WithNeighbours(selected, fks[j..], byName, budget) == WithNeighbours(old(selected), fks, byName, budget)
      {
        if fks[j].refTable in byName {
          var _ := TryAdd(byName[fks[j].refTable]);
        }
      }
    }

    /** The first pass: each seed with its neighbours, up to the first seed that does not fit. */
    method AddSeeds(seeds: seq<TableInfo>, byName: map<string, TableInfo>)
      modifies this
      ensures selected == WithSeeds(old(selected), seeds, byName, budget)
    {
      for i := 0 to |seeds|
        invariant WithSeeds(selected, seeds[i..], byName, budget) == WithSeeds(old(selected), seeds, byName, budget)
      {
        var added := TryAdd(seeds[i]);
        if !added {
          return;
        }
        AddNeighbours(seeds[i].foreignKeys, byName);
      }
    }

    /** The second pass: whatever still fits, in rank order. */
    method AddAll(ranked: seq<TableInfo>)
      modifies this
      ensures selected == WithAll(old(selected), ranked, budget)
    {
      for k := 0 to |ranked|
        invariant WithAll(selected, ranked[k..], budget) == WithAll(old(selected), ranked, budget)
      {
        var _ := TryAdd(ranked[k]);
      }
    }
  }

  method SelectSchema(tables: seq<TableInfo>, question: string, maxTokens: int) returns (r: SelectedSchema)
    ensures r == Selection(tables, question, maxTokens)
  {
    if SendsAll(tables, maxTokens) {
      return SelectedSchema(SchemaText(tables), [], |tables|, |tables|);
    }
    var q := QueryOf(question);
    RankedIsStableSort(tables, q);
    var ranked := Ranked(tables, q);
    var packer := new Packer(Budget(tables, maxTokens));
    packer.AddSeeds(Seeds(ranked, q), ByName(tables));
    packer.AddAll(ranked);
    r := Trimmed(tables, Chosen(tables, packer.selected));
  }
}
