/** What the budgeted selection guarantees, and exactly where its stated bound stops holding. */
module SelectProperties {
  import opened Common
  import opened Schema
  import opened Select

  ghost predicate Packed(selected: seq<TableInfo>, tables: seq<TableInfo>, budget: int) {
    && DistinctNames(selected)
    && (forall t :: t in selected ==> t in tables)
    && (|selected| <= 1 || TablesTokens(selected) <= budget)
  }

  ghost predicate DrawsFrom(byName: map<string, TableInfo>, tables: seq<TableInfo>) {
    forall n :: n in byName ==> byName[n] in tables
  }

  lemma {:induction false} ByNameDraws(tables: seq<TableInfo>)
    ensures DrawsFrom(ByName(tables), tables)
  {
    if tables != [] {
      ByNameDraws(tables[..|tables| - 1]);
    }
  }

  lemma AfterTryPacks(selected: seq<TableInfo>, t: TableInfo, tables: seq<TableInfo>, budget: int)
    requires Packed(selected, tables, budget) && t in tables
    ensures Packed(AfterTry(selected, t, budget), tables, budget)
    ensures selected <= AfterTry(selected, t, budget)
  {
    if t.name !in Names(selected) {
      forall i | 0 <= i < |selected| ensures selected[i].name != t.name {
        assert selected[i] in selected;
      }
    }
  }

  lemma {:induction false} AddNeighboursPacks(selected: seq<TableInfo>, fks: seq<ForeignKeyInfo>,
                                              byName: map<string, TableInfo>, tables: seq<TableInfo>, budget: int)
    requires Packed(selected, tables, budget) && DrawsFrom(byName, tables)
    ensures Packed(WithNeighbours(selected, fks, byName, budget), tables, budget)
    ensures selected <= WithNeighbours(selected, fks, byName, budget)
    decreases |fks|
  {
    if fks != [] {
      var next := if fks[0].refTable in byName then AfterTry(selected, byName[fks[0].refTable], budget) else selected;
      if fks[0].refTable in byName {
        AfterTryPacks(selected, byName[fks[0].refTable], tables, budget);
      }
      AddNeighboursPacks(next, fks[1..], byName, tables, budget);
    }
  }

  lemma {:induction false} AddSeedsPacks(selected: seq<TableInfo>, seeds: seq<TableInfo>,
                                         byName: map<string, TableInfo>, tables: seq<TableInfo>, budget: int)
    requires Packed(selected, tables, budget) && DrawsFrom(byName, tables)
    requires forall t :: t in seeds ==> t in tables
    ensures Packed(WithSeeds(selected, seeds, byName, budget), tables, budget)
    ensures selected <= WithSeeds(selected, seeds, byName, budget)
    ensures selected == [] && seeds != [] ==> [seeds[0]] <= WithSeeds(selected, seeds, byName, budget)
    decreases |seeds|
  {
    if seeds != [] {
      var next := AfterTry(selected, seeds[0], budget);
      AfterTryPacks(selected, seeds[0], tables, budget);
      if seeds[0].name in Names(next) {
        var linked := WithNeighbours(next, seeds[0].foreignKeys, byName, budget);
        AddNeighboursPacks(next, seeds[0].foreignKeys, byName, tables, budget);
        AddSeedsPacks(linked, seeds[1..], byName, tables, budget);
      }
    }
  }

  ghost predicate Saturated(selected: seq<TableInfo>, tables: seq<TableInfo>, budget: int) {
    forall t :: t in tables && t.name !in Names(selected) ==> TablesTokens(selected + [t]) > budget
  }

  /** A table turned away from an early, smaller selection would still be turned away at the end. */
  lemma StaysTurnedAway(selected: seq<TableInfo>, t: TableInfo, final: seq<TableInfo>, budget: int)
    requires AfterTry(selected, t, budget) <= final && t.name !in Names(final)
    ensures TablesTokens(final + [t]) > budget
  {
    assert Names(AfterTry(selected, t, budget)) <= Names(final);
    assert t in selected + [t];
    assert AfterTry(selected, t, budget) == selected;
    TokensMonotone(selected, final, t);
  }

  lemma {:induction false} AddAllSaturates(selected: seq<TableInfo>, more: seq<TableInfo>,
                                           tables: seq<TableInfo>, budget: int)
    requires Packed(selected, tables, budget)
    requires forall t :: t in more ==> t in tables
    ensures var final := WithAll(selected, more, budget);
            Packed(final, tables, budget) && selected <= final && Saturated(final, more, budget)
    decreases |more|
  {
    if more != [] {
      var t, next, final := more[0], AfterTry(selected, more[0], budget), WithAll(selected, more, budget);
      AfterTryPacks(selected, t, tables, budget);
      AddAllSaturates(next, more[1..], tables, budget);
      assert more == [t] + more[1..];
      if t.name !in Names(final) {
        StaysTurnedAway(selected, t, final, budget);
      }
    }
  }

  lemma {:induction false} MatchingIsPart(ranked: seq<TableInfo>, q: Query)
    ensures forall t :: t in Matching(ranked, q) <==> t in ranked && Strong(t, q) > 0
  {
    if ranked != [] {
      MatchingIsPart(ranked[1..], q);
      assert ranked == [ranked[0]] + ranked[1..];
    }
  }

  function TopSeed(tables: seq<TableInfo>, q: Query): TableInfo
    requires tables != []
  {
    RankedMembers(tables, q);
    Seeds(Ranked(tables, q), q)[0]
  }

  lemma RankedMembers(tables: seq<TableInfo>, q: Query)
    ensures |Ranked(tables, q)| == |tables|
    ensures forall t :: t in Ranked(tables, q) <==> t in tables
  {
    RankedIsStableSort(tables, q);
    var ranked := Ranked(tables, q);
    assert |multiset(ranked)| == |multiset(tables)|;
    forall t ensures t in ranked <==> t in tables {
      assert t in multiset(ranked) <==> t in multiset(tables);
    }
  }

  /** The whole packing run: bounded, started by the top seed, and greedy-maximal. */
  lemma PackingInvariant(tables: seq<TableInfo>, q: Query, budget: int)
    requires tables != []
    ensures Packed(Packing(tables, q, budget), tables, budget)
    ensures Saturated(Packing(tables, q, budget), tables, budget)
    ensures [TopSeed(tables, q)] <= Packing(tables, q, budget)
  {
    var ranked := Ranked(tables, q);
    RankedMembers(tables, q);
    MatchingIsPart(ranked, q);
    ByNameDraws(tables);
    var seeded := WithSeeds([], Seeds(ranked, q), ByName(tables), budget);
    AddSeedsPacks([], Seeds(ranked, q), ByName(tables), tables, budget);
    AddAllSaturates(seeded, ranked, tables, budget);
  }

  // ------------------------------------- from insertion order to snapshot order

  lemma {:induction false} ChosenMembers(tables: seq<TableInfo>, selected: seq<TableInfo>)
    ensures forall t :: t in Chosen(tables, selected) <==> t in tables && t.name in Names(selected)
    ensures DistinctNames(tables) ==> DistinctNames(Chosen(tables, selected))
  {
    if tables != [] {
      ChosenMembers(tables[1..], selected);
      assert tables == [tables[0]] + tables[1..];
      var rest := Chosen(tables[1..], selected);
      forall j | 0 <= j < |rest| && DistinctNames(tables) ensures rest[j].name != tables[0].name {
        assert rest[j] in tables[1..];
      }
    }
  }

  lemma DistinctNamesNoDuplicates(tables: seq<TableInfo>)
    requires DistinctNames(tables)
    ensures NoDuplicates(tables)
  {}

  /** No other table of the schema has one of these bare names. */
  ghost predicate UniqueAmong(tables: seq<TableInfo>, names: set<string>) {
    forall i, j :: 0 <= i < j < |tables| && tables[i].name in names ==> tables[i].name != tables[j].name
  }

  lemma {:induction false} UniqueChosenIsDistinct(tables: seq<TableInfo>, selected: seq<TableInfo>)
    requires UniqueAmong(tables, Names(selected))
    ensures DistinctNames(Chosen(tables, selected))
  {
    if tables != [] {
      UniqueChosenIsDistinct(tables[1..], selected);
      ChosenMembers(tables[1..], selected);
      var rest := Chosen(tables[1..], selected);
      forall j | 0 <= j < |rest| && tables[0].name in Names(selected) ensures rest[j].name != tables[0].name {
        assert rest[j] in tables[1..];
      }
    }
  }

  lemma UniqueChosenPermutes(tables: seq<TableInfo>, selected: seq<TableInfo>)
    requires UniqueAmong(tables, Names(selected)) && DistinctNames(selected)
    requires forall t :: t in selected ==> t in tables
    ensures multiset(Chosen(tables, selected)) == multiset(selected)
  {
    var chosen := Chosen(tables, selected);
    ChosenMembers(tables, selected);
    UniqueChosenIsDistinct(tables, selected);
    DistinctNamesNoDuplicates(chosen);
    DistinctNamesNoDuplicates(selected);
    forall t ensures t in chosen <==> t in selected {
      if t in chosen {
        var u :| u in selected && u.name == t.name;
        var i :| 0 <= i < |tables| && tables[i] == t;
        var j :| 0 <= j < |tables| && tables[j] == u;
        assert i == j;
      }
    }
    SameElementsPermute(chosen, selected);
  }

  /** No other table of the schema has a budgeted bare name. */
  ghost predicate UnsharedNames(tables: seq<TableInfo>, question: string, maxTokens: int)
    requires tables != []
  {
    UniqueAmong(tables, Names(Packing(tables, QueryOf(question), Budget(tables, maxTokens))))
  }

  /** The rounding of the whole text exceeds the sum of the two estimates. */
  predicate RoundingCarries(directory: string, body: string) { CarryOf(|directory| % 4, |body| % 4) == 1 }

  /** What rounding the whole text once adds to the sum of the two estimates. */
  function Carry(directory: string, body: string): int { CarryOf(|directory| % 4, |body| % 4) }

  /** The same from the lengths modulo 4, with two characters in between. */
  function CarryOf(r: nat, s: nat): int {
    if (r == 0 && (s == 0 || s == 3)) || (r == 3 && s == 0) then 1
    else if r == 1 && s == 1 then -1
    else 0
  }

  lemma Quarter(q: nat, r: nat)
    ensures (4 * q + r) / 4 == q + r / 4
  {}

  lemma CarryAdds(d: nat, r: nat, b: nat, s: nat)
    requires r < 4 && s < 4
    ensures (4 * d + r + 2 + 4 * b + s + 3) / 4 == (4 * d + r + 3) / 4 + (4 * b + s + 3) / 4 + CarryOf(r, s)
  {
    Quarter(d + b, r + s + 5);
    Quarter(d, r + 3);
    Quarter(b, s + 3);
  }

  lemma TextEstimate(directory: string, body: string)
    ensures EstimateTokens(directory + "\n\n" + body)
         == EstimateTokens(directory) + EstimateTokens(body) + Carry(directory, body)
  {
    CarryAdds(|directory| / 4, |directory| % 4, |body| / 4, |body| % 4);
  }

  /** What is sent, in snapshot order, costs what was budgeted, and includes the top seed. */
  lemma ChosenCost(tables: seq<TableInfo>, question: string, maxTokens: int)
    requires !SendsAll(tables, maxTokens) && UnsharedNames(tables, question, maxTokens)
    ensures var chosen, budget := ChosenFor(tables, question, maxTokens), Budget(tables, maxTokens);
            var top := TopSeed(tables, QueryOf(question));
            && top in chosen
            && TablesTokens(chosen) >= TablesTokens([top])
            && (TablesTokens(chosen) > budget ==> chosen == [top])
  {
    var q, budget := QueryOf(question), Budget(tables, maxTokens);
    var packed, chosen := Packing(tables, q, budget), ChosenFor(tables, question, maxTokens);
    var top := TopSeed(tables, q);
    PackingInvariant(tables, q, budget);
    UniqueChosenPermutes(tables, packed);
    TokensPermute(chosen, packed);
    TokensMonotone([top], packed, top);
    PermutedHead(chosen, packed);
  }

  lemma PermutedHead<T>(a: seq<T>, b: seq<T>)
    requires multiset(a) == multiset(b) && b != []
    ensures b[0] in a && |a| == |b| && (|b| == 1 ==> a == b)
  {
    assert b[0] in multiset(a) && |multiset(a)| == |multiset(b)|;
    if |b| == 1 {
      assert b == [b[0]] && a == [a[0]];
    }
  }

  /** When the schema does not fit: something is sent; it fits the remaining budget unless even the top
      seed alone does not, in which case that one table is sent; the text then overshoots `maxTokens`
      by one token exactly when the budget is used up and the rounding carries. */
  lemma SelectionIsBounded(tables: seq<TableInfo>, question: string, maxTokens: int)
    requires !SendsAll(tables, maxTokens) && UnsharedNames(tables, question, maxTokens)
    ensures var r, q := Selection(tables, question, maxTokens), QueryOf(question);
            var chosen, budget := ChosenFor(tables, question, maxTokens), Budget(tables, maxTokens);
            && r.sent == |chosen| >= 1
            && TopSeed(tables, q) in chosen
            && (TablesTokens(chosen) > budget <==> TablesTokens([TopSeed(tables, q)]) > budget)
            && (TablesTokens(chosen) > budget ==> chosen == [TopSeed(tables, q)])
            && (TablesTokens(chosen) <= budget ==>
                  && EstimateTokens(r.text) <= maxTokens + 1
                  && (EstimateTokens(r.text) == maxTokens + 1 <==>
                        TablesTokens(chosen) == budget && RoundingCarries(Directory(tables), TablesText(chosen))))
  {
    ChosenCost(tables, question, maxTokens);
    TextEstimate(Directory(tables), TablesText(ChosenFor(tables, question, maxTokens)));
  }

  /** The text when only the top seed is sent. */
  function TopText(tables: seq<TableInfo>, q: Query): string
    requires tables != []
  {
    Directory(tables) + "\n\n" + TablesText([TopSeed(tables, q)])
  }

  /** "Bounded by max_tokens", for every schema, question and limit: exactly when the sent tables with the rounding fit
      what the directory leaves. A schema that fits whole always is; the empty schema when its fixed notice is. */
  lemma BoundedIffSentFits(tables: seq<TableInfo>, question: string, maxTokens: int)
    ensures EstimateTokens(Selection(tables, question, maxTokens).text) <= maxTokens
       <==> if tables == [] then EstimateTokens(SchemaText([])) <= maxTokens
            else if SendsAll(tables, maxTokens) then true
            else
              var body := TablesText(ChosenFor(tables, question, maxTokens));
              EstimateTokens(body) + Carry(Directory(tables), body) <= Budget(tables, maxTokens)
  {
    if !SendsAll(tables, maxTokens) {
      TextEstimate(Directory(tables), TablesText(ChosenFor(tables, question, maxTokens)));
    }
  }

  /** The same where no budgeted name is shared: when the top seed alone exceeds the budget, the text is the directory
      and that table, and counts as it stands; when it does not, the text is bounded unless the budget is used up and
      the rounding carries. */
  lemma BoundedIff(tables: seq<TableInfo>, question: string, maxTokens: int)
    requires !SendsAll(tables, maxTokens) && UnsharedNames(tables, question, maxTokens)
    ensures var q, budget := QueryOf(question), Budget(tables, maxTokens);
            var chosen := ChosenFor(tables, question, maxTokens);
            EstimateTokens(Selection(tables, question, maxTokens).text) <= maxTokens
            <==> if TablesTokens([TopSeed(tables, q)]) > budget then EstimateTokens(TopText(tables, q)) <= maxTokens
                 else !(TablesTokens(chosen) == budget && RoundingCarries(Directory(tables), TablesText(chosen)))
  {
    SelectionIsBounded(tables, question, maxTokens);
  }

  /** What a caller can check beforehand: a directory whose length is 1 or 2 modulo 4 never carries, so the text is
      bounded as soon as the best table fits. */
  lemma BoundedWhenDirectoryCannotCarry(tables: seq<TableInfo>, question: string, maxTokens: int)
    requires !SendsAll(tables, maxTokens) && UnsharedNames(tables, question, maxTokens)
    requires |Directory(tables)| % 4 == 1 || |Directory(tables)| % 4 == 2
    requires TablesTokens([TopSeed(tables, QueryOf(question))]) <= Budget(tables, maxTokens)
    ensures EstimateTokens(Selection(tables, question, maxTokens).text) <= maxTokens
  {
    SelectionIsBounded(tables, question, maxTokens);
  }

  /** Elements without repetition that all occur in `whole` can be completed to a permutation of it. */
  lemma {:induction false} Completion<T(!new)>(part: seq<T>, whole: seq<T>) returns (rest: seq<T>)
    requires NoDuplicates(part) && forall x :: x in part ==> x in whole
    ensures multiset(part + rest) == multiset(whole)
    decreases |part|
  {
    if part == [] {
      assert part + whole == whole;
      return whole;
    }
    assert part[0] in whole;
    var k :| 0 <= k < |whole| && whole[k] == part[0];
    var others := whole[..k] + whole[k + 1..];
    MultisetWithout(whole, k);
    forall i | 1 <= i < |part| ensures part[i] in others {
      assert part[i] in whole && part[i] != part[0];
      var j :| 0 <= j < |whole| && whole[j] == part[i];
      assert others[if j < k then j else j - 1] == part[i];
    }
    rest := Completion(part[1..], others);
    assert part + rest == [part[0]] + (part[1..] + rest);
  }

  /** Greedy maximality, whatever names the tables share: no table that was left out can be added within the budget. */
  lemma SelectionIsMaximal(tables: seq<TableInfo>, question: string, maxTokens: int, t: TableInfo)
    requires !SendsAll(tables, maxTokens)
    requires t in tables && t !in ChosenFor(tables, question, maxTokens)
    ensures TablesTokens(ChosenFor(tables, question, maxTokens) + [t]) > Budget(tables, maxTokens)
  {
    var q, budget := QueryOf(question), Budget(tables, maxTokens);
    var packed, chosen := Packing(tables, q, budget), ChosenFor(tables, question, maxTokens);
    PackingInvariant(tables, q, budget);
    ChosenMembers(tables, packed);
    DistinctNamesNoDuplicates(packed);
    var rest := Completion(packed, chosen);
    TokensMonotone(packed, packed + rest, t);
    TokensPermute(chosen + [t], packed + rest + [t]);
  }

  // ------------------------------------------------ where the bounds stop holding

  lemma {:induction false} DistinctChosenIsUnique(tables: seq<TableInfo>, selected: seq<TableInfo>)
    requires DistinctNames(Chosen(tables, selected))
    ensures UniqueAmong(tables, Names(selected))
  {
    if tables != [] {
      var chosen, rest := Chosen(tables, selected), Chosen(tables[1..], selected);
      assert rest == chosen[|chosen| - |rest|..];
      DistinctChosenIsUnique(tables[1..], selected);
      ChosenMembers(tables[1..], selected);
      forall j | 0 < j < |tables| && tables[0].name in Names(selected) ensures tables[0].name != tables[j].name {
        if tables[j].name in Names(selected) {
          assert tables[1..][j - 1] in rest;
          var k :| 0 <= k < |rest| && rest[k] == tables[j];
          assert chosen[0] == tables[0] && chosen[k + 1] == rest[k];
        }
      }
    }
  }

  function NameOf(t: TableInfo): string { t.name }

  lemma PermuteDistinctNames(a: seq<TableInfo>, b: seq<TableInfo>)
    requires multiset(a) == multiset(b) && DistinctNames(b)
    ensures DistinctNames(a)
  {
    MapPermute(NameOf, a, b);
    forall i, j | 0 <= i < j < |a| ensures a[i].name != a[j].name {
      CountOnce(Map(NameOf, b), a[i].name);
      CountRepeated(Map(NameOf, a), i, j);
    }
  }

  /** Selection goes by bare name, so what is sent is a permutation of what was budgeted
      exactly when no other table of the schema shares a selected name. */
  lemma ChosenMatchesBudgetedIff(tables: seq<TableInfo>, question: string, maxTokens: int)
    requires !SendsAll(tables, maxTokens)
    ensures var packed := Packing(tables, QueryOf(question), Budget(tables, maxTokens));
            multiset(ChosenFor(tables, question, maxTokens)) == multiset(packed) <==> UniqueAmong(tables, Names(packed))
  {
    var packed := Packing(tables, QueryOf(question), Budget(tables, maxTokens));
    var chosen := Chosen(tables, packed);
    PackingInvariant(tables, QueryOf(question), Budget(tables, maxTokens));
    if multiset(chosen) == multiset(packed) {
      PermuteDistinctNames(chosen, packed);
      DistinctChosenIsUnique(tables, packed);
    }
    if UniqueAmong(tables, Names(packed)) {
      UniqueChosenPermutes(tables, packed);
    }
  }

  // Two one-letter tables, the second with a comment; no question word matches either.
  const TABLE_A := TableInfo("public", "a", "", [], [], [])
  const TABLE_B := TableInfo("public", "b", "x", [], [], [])
  const TWO_TABLES := [TABLE_A, TABLE_B]
  // Same bare name in two namespaces.
  const OTHER_A := TableInfo("crm", "a", "", [], [], [])
  const SHARED_NAME := [TABLE_A, OTHER_A]

  lemma SmallTexts()
    ensures TableText(TABLE_A) == "TABLE a" && TableText(TABLE_B) == "TABLE b  -- x"
    ensures TableText(OTHER_A) == "TABLE crm.a"
    ensures TablesText([TABLE_A]) == "TABLE a"
    ensures |TablesText(TWO_TABLES)| == 22 && |TablesText(SHARED_NAME)| == 20
    ensures |Directory(TWO_TABLES)| == 12 && |Directory(SHARED_NAME)| == 16
  {
    assert TableLines(TABLE_A) == [HeaderLine(TABLE_A)];
    assert TableLines(TABLE_B) == [HeaderLine(TABLE_B)];
    assert TableLines(OTHER_A) == [HeaderLine(OTHER_A)];
    assert Qualified(OTHER_A) == "crm.a";
    assert TableTexts([TABLE_A]) == [TableText(TABLE_A)];
    PairLength(TABLE_A, TABLE_B);
    PairLength(TABLE_A, OTHER_A);
    DirectoryLength(TWO_TABLES);
    DirectoryLength(SHARED_NAME);
  }

  lemma DirectoryLength(tables: seq<TableInfo>)
    requires |tables| == 2
    ensures |Directory(tables)| == 10 + |Qualified(tables[0])| + |Qualified(tables[1])|
  {
    var names := seq(|tables|, i requires 0 <= i < |tables| => Qualified(tables[i]));
    assert Join(", ", names) == names[0] + ", " + Join(", ", names[1..]);
    assert Join(", ", names[1..]) == names[1];
  }

  lemma PairLength(a: TableInfo, b: TableInfo)
    ensures |TablesText([a, b])| == |TableText(a)| + 2 + |TableText(b)|
  {
    var texts := TableTexts([a, b]);
    assert Join("\n\n", texts) == texts[0] + "\n\n" + Join("\n\n", texts[1..]);
    assert Join("\n\n", texts[1..]) == texts[1];
  }

  lemma NothingMatches(t: TableInfo)
    requires |t.name| == 1
    ensures Total(t, QueryOf("")) == Strong(t, QueryOf("")) == 0
  {
    var q := QueryOf("");
    assert q.tokens == {} && q.trigrams == {};
    assert q.tokens * Tokens(Join(" ", [t.name, t.comment] + ColumnWords(t.columns))) == {};
    assert (set w | w in q.tokens && Contains(Lower(t.name), w)) == {};
    assert q.trigrams * Trigrams(Lower(t.name)) == {};
  }

  lemma PackTwo(a: TableInfo, b: TableInfo, budget: int)
    requires |a.name| == |b.name| == 1 && a.foreignKeys == []
    ensures Packing([a, b], QueryOf(""), budget) == AfterTry([a], b, budget)
  {
    var q := QueryOf("");
    NothingMatches(a);
    NothingMatches(b);
    var ranked := Ranked([a, b], q);
    assert [a, b][1..] == [b] && [b][1..] == [];
    assert SortDescending([b], ByTotal(q)) == [b];
    assert ranked == [a, b];
    assert ranked[1..] == [b];
    assert Matching([b], q) == [];
    assert Matching(ranked, q) == Matching(ranked[1..], q);
    assert AfterTry([], a, budget) == [a];
    assert a in [a];
    assert Seeds(ranked, q) == [a] && [a][1..] == [];
    assert a.name in Names([a]);
    assert WithNeighbours([a], [], ByName([a, b]), budget) == [a];
    assert WithSeeds([], [a], ByName([a, b]), budget) == WithSeeds([a], [], ByName([a, b]), budget) == [a];
    assert AfterTry([a], a, budget) == [a];
    assert WithAll([a], ranked, budget) == WithAll([a], [b], budget) == WithAll(AfterTry([a], b, budget), [], budget);
  }

  lemma OnlyTheFirstIsSent()
    ensures !SendsAll(TWO_TABLES, 5)
    ensures Budget(TWO_TABLES, 5) == 2
    ensures ChosenFor(TWO_TABLES, "", 5) == [TABLE_A]
  {
    SmallTexts();
    PackTwo(TABLE_A, TABLE_B, 2);
    assert TABLE_A in [TABLE_A];
    assert [TABLE_A] + [TABLE_B] == TWO_TABLES;
    assert TWO_TABLES[1..] == [TABLE_B] && [TABLE_B][1..] == [];
    assert "a" in Names([TABLE_A]);
    assert "b" !in Names([TABLE_A]);
    assert Chosen([TABLE_B], [TABLE_A]) == [];
  }

  /** The docstring says "bounded by max_tokens"; here the text estimates to max_tokens + 1. */
  lemma OvershootWitness()
    ensures DistinctNames(TWO_TABLES) && !SendsAll(TWO_TABLES, 5)
    ensures Selection(TWO_TABLES, "", 5).sent == 1
    ensures TablesTokens(ChosenFor(TWO_TABLES, "", 5)) <= Budget(TWO_TABLES, 5)
    ensures EstimateTokens(Selection(TWO_TABLES, "", 5).text) == 6
  {
    SmallTexts();
    OnlyTheFirstIsSent();
    assert |Selection(TWO_TABLES, "", 5).text| == 12 + 2 + 7;
  }

  /** With a shared bare name two tables are sent where one was budgeted. */
  lemma SharedNameWitness()
    ensures !SendsAll(SHARED_NAME, 4)
    ensures |Packing(SHARED_NAME, QueryOf(""), Budget(SHARED_NAME, 4))| == 1
    ensures ChosenFor(SHARED_NAME, "", 4) == SHARED_NAME
    ensures TablesTokens(SHARED_NAME) > Budget(SHARED_NAME, 4)
  {
    SmallTexts();
    PackTwo(TABLE_A, OTHER_A, 0);
    assert TABLE_A in [TABLE_A];
    assert "a" in Names([TABLE_A]);
    assert SHARED_NAME[1..] == [OTHER_A] && [OTHER_A][1..] == [];
    assert Packing(SHARED_NAME, QueryOf(""), 0) == [TABLE_A];
    assert Chosen([OTHER_A], [TABLE_A]) == [OTHER_A];
  }
}
