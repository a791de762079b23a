/** What the relevance score means in words, and what each pass of the selection offers. */
module SelectRelevance {
  import opened Common
  import opened Schema
  import opened Select
  import opened SelectProperties

  // ------------------------------------------------------------------- words

  ghost predicate IsRun(s: string, i: nat, j: nat) {
    i <= j <= |s| && forall k :: i <= k < j ==> IsWordChar(s[k])
  }

  /** `w` stands in `s` as a whole word: a run of word characters that cannot be extended. */
  ghost predicate StandsAt(s: string, w: string, i: nat, j: nat) {
    && i < j <= |s| && s[i..j] == w && IsRun(s, i, j)
    && (i == 0 || !IsWordChar(s[i - 1])) && (j == |s| || !IsWordChar(s[j]))
  }

  ghost predicate IsWordOf(s: string, w: string) { exists i: nat, j: nat :: StandsAt(s, w, i, j) }

  lemma {:induction false} WordRunIsMaximal(s: string)
    ensures IsRun(s, 0, WordRun(s)) && (WordRun(s) == |s| || !IsWordChar(s[WordRun(s)]))
  {
    if s != "" && IsWordChar(s[0]) {
      var n := WordRun(s[1..]);
      WordRunIsMaximal(s[1..]);
      forall k | 0 <= k < n + 1 ensures IsWordChar(s[k]) {
        assert k > 0 ==> s[k] == s[1..][k - 1];
      }
      assert n < |s[1..]| ==> s[1..][n] == s[n + 1];
    }
  }

  /** Behind a character that is no word character, or behind a whole word, the remaining words are the words of the rest. */
  lemma WordsBehind(s: string, n: nat, w: string)
    requires n <= |s| && (n > 0 ==> !IsWordChar(s[n - 1]) || n == |s| || !IsWordChar(s[n]))
    ensures IsWordOf(s[n..], w) <==> exists i: nat, j: nat :: n <= i && StandsAt(s, w, i, j)
  {
    if i: nat, j: nat :| StandsAt(s[n..], w, i, j) {
      assert s[n..][i..j] == s[i + n..j + n];
      assert forall k :: i + n <= k < j + n ==> s[k] == s[n..][k - n];
      assert StandsAt(s, w, i + n, j + n);
    }
    if i: nat, j: nat :| n <= i && StandsAt(s, w, i, j) {
      assert s[n..][i - n..j - n] == s[i..j];
      assert forall k :: i - n <= k < j - n ==> s[n..][k] == s[k + n];
      assert StandsAt(s[n..], w, i - n, j - n);
    }
  }

  lemma FirstWord(s: string, w: string, i: nat, j: nat)
    requires StandsAt(s, w, i, j) && i < WordRun(s)
    ensures i == 0 && j == WordRun(s) && w == s[..WordRun(s)]
  {
    WordRunIsMaximal(s);
  }

  /** The tokens of a text are its words of three or more characters. */
  lemma {:induction false} WordsAre(s: string, w: string)
    ensures w in Words(s) <==> |w| >= 3 && IsWordOf(s, w)
    decreases |s|
  {
    if s != "" {
      var n := WordRun(s);
      WordRunIsMaximal(s);
      if n == 0 {
        WordsAre(s[1..], w);
        WordsBehind(s, 1, w);
      } else {
        WordsAre(s[n..], w);
        WordsBehind(s, n, w);
        assert StandsAt(s, s[..n], 0, n);
        forall i: nat, j: nat | StandsAt(s, w, i, j) && i < n ensures w == s[..n] {
          FirstWord(s, w, i, j);
        }
      }
    }
  }

  lemma WordOfFirst(a: string, b: string, w: string, i: nat, j: nat)
    requires StandsAt(a, w, i, j)
    ensures StandsAt(a + " " + b, w, i, j)
  {
    var s := a + " " + b;
    assert s[i..j] == a[i..j];
    assert s[|a|] == ' ';
  }

  lemma WordBeforeBlank(a: string, b: string, w: string, i: nat, j: nat)
    requires StandsAt(a + " " + b, w, i, j) && i <= |a|
    ensures StandsAt(a, w, i, j)
  {
    var s := a + " " + b;
    assert s[|a|] == ' ' && !IsWordChar(s[|a|]);
    assert s[i..j] == a[i..j];
    assert forall k :: i <= k < j ==> s[k] == a[k];
  }

  /** Joining two texts with a blank makes no new word and breaks none. */
  lemma WordsOfBoth(a: string, b: string, w: string)
    ensures IsWordOf(a + " " + b, w) <==> IsWordOf(a, w) || IsWordOf(b, w)
  {
    var s, n := a + " " + b, |a| + 1;
    assert s[|a|] == ' ' && s[n..] == b;
    WordsBehind(s, n, w);
    if i: nat, j: nat :| StandsAt(a, w, i, j) {
      WordOfFirst(a, b, w, i, j);
    }
    if i: nat, j: nat :| StandsAt(s, w, i, j) && i < n {
      WordBeforeBlank(a, b, w, i, j);
    }
  }

  lemma {:induction false} WordsOfJoin(parts: seq<string>, w: string)
    ensures IsWordOf(Lower(Join(" ", parts)), w) <==> exists p :: p in parts && IsWordOf(Lower(p), w)
  {
    if |parts| == 1 {
      assert parts[0] in parts;
    } else if |parts| > 1 {
      var rest := Join(" ", parts[1..]);
      WordsOfJoin(parts[1..], w);
      assert Lower(parts[0] + " " + rest) == Lower(parts[0]) + " " + Lower(rest);
      WordsOfBoth(Lower(parts[0]), Lower(rest), w);
      assert parts == [parts[0]] + parts[1..];
    }
  }

  // ------------------------------------------------------------------- matches

  /** A word of the question that counts: three or more characters. */
  ghost predicate QuestionWord(question: string, w: string) { |w| >= 3 && IsWordOf(Lower(question), w) }

  /** A word of the table's name or comment, or of a column's name or comment. */
  ghost predicate TableWord(t: TableInfo, w: string) {
    || IsWordOf(Lower(t.name), w) || IsWordOf(Lower(t.comment), w)
    || exists c :: c in t.columns && (IsWordOf(Lower(c.name), w) || IsWordOf(Lower(c.comment), w))
  }

  ghost predicate OccursIn(text: string, part: string) { exists i: nat :: OccursAt(text, part, i) }

  predicate OccursAt(text: string, part: string, i: nat) {
    i + |part| <= |text| && text[i..i + |part|] == part
  }

  lemma OccursBehind(text: string, part: string)
    requires text != ""
    ensures OccursIn(text, part) <==> part <= text || OccursIn(text[1..], part)
  {
    if i: nat :| OccursAt(text, part, i) {
      if i == 0 {
        assert part <= text;
      } else {
        assert text[1..][i - 1..i - 1 + |part|] == text[i..i + |part|];
        assert OccursAt(text[1..], part, i - 1);
      }
    }
    if i: nat :| OccursAt(text[1..], part, i) {
      assert text[i + 1..i + 1 + |part|] == text[1..][i..i + |part|];
      assert OccursAt(text, part, i + 1);
    }
    if part <= text {
      assert OccursAt(text, part, 0);
    }
  }

  lemma {:induction false} ContainsMeans(text: string, part: string)
    ensures Contains(text, part) <==> OccursIn(text, part)
  {
    if text == "" {
      assert OccursAt(text, part, 0) <==> part == "";
    } else {
      ContainsMeans(text[1..], part);
      OccursBehind(text, part);
    }
  }

  lemma {:induction false} ColumnWordsAre(columns: seq<ColumnInfo>, p: string)
    ensures p in ColumnWords(columns) <==> exists c :: c in columns && (p == c.name || (p == c.comment && p != ""))
  {
    if columns != [] {
      ColumnWordsAre(columns[1..], p);
      assert columns == [columns[0]] + columns[1..];
    }
  }

  lemma TableWordsAre(t: TableInfo, w: string)
    ensures w in Tokens(Join(" ", [t.name, t.comment] + ColumnWords(t.columns))) <==> |w| >= 3 && TableWord(t, w)
  {
    var parts := [t.name, t.comment] + ColumnWords(t.columns);
    WordsAre(Lower(Join(" ", parts)), w);
    WordsOfJoin(parts, w);
    if p :| p in parts && IsWordOf(Lower(p), w) {
      ColumnWordsAre(t.columns, p);
    }
    assert t.name == parts[0] && t.comment == parts[1];
    if c :| c in t.columns && (IsWordOf(Lower(c.name), w) || IsWordOf(Lower(c.comment), w)) {
      ColumnWordsAre(t.columns, c.name);
      ColumnWordsAre(t.columns, c.comment);
      assert Lower("") == "";
      assert forall p :: p in ColumnWords(t.columns) ==> p in parts;
    }
  }

  /** The question words that are words of the table, and those inside its name. */
  ghost function SharedWords(t: TableInfo, question: string): set<string> {
    set w | w in Tokens(question) && TableWord(t, w)
  }

  ghost function NameHits(t: TableInfo, question: string): set<string> {
    set w | w in Tokens(question) && OccursIn(Lower(t.name), w)
  }

  lemma TokensAre(question: string, w: string)
    ensures w in Tokens(question) <==> QuestionWord(question, w)
  {
    WordsAre(Lower(question), w);
  }

  /** Three points per question word that is a word of the table, two per question word inside its name (times ten). */
  lemma StrongMeans(t: TableInfo, question: string)
    ensures Strong(t, QueryOf(question)) == 30 * |SharedWords(t, question)| + 20 * |NameHits(t, question)|
    ensures forall w :: w in Tokens(question) <==> QuestionWord(question, w)
  {
    var q := QueryOf(question);
    forall w ensures w in Tokens(question) <==> QuestionWord(question, w) { TokensAre(question, w); }
    var tableTokens := Tokens(Join(" ", [t.name, t.comment] + ColumnWords(t.columns)));
    forall w ensures w in q.tokens * tableTokens <==> w in SharedWords(t, question) { TableWordsAre(t, w); }
    assert q.tokens * tableTokens == SharedWords(t, question);
    var hits := set w | w in q.tokens && Contains(Lower(t.name), w);
    forall w ensures w in hits <==> w in NameHits(t, question) { ContainsMeans(Lower(t.name), w); }
    assert hits == NameHits(t, question);
  }

  /** A direct match: some question word is a word of the table or occurs in its name. */
  ghost predicate DirectMatch(t: TableInfo, question: string) {
    exists w :: QuestionWord(question, w) && (TableWord(t, w) || OccursIn(Lower(t.name), w))
  }

  lemma MatchMeans(t: TableInfo, question: string)
    ensures Strong(t, QueryOf(question)) > 0 <==> DirectMatch(t, question)
  {
    StrongMeans(t, question);
    if DirectMatch(t, question) {
      var w :| QuestionWord(question, w) && (TableWord(t, w) || OccursIn(Lower(t.name), w));
      assert w in SharedWords(t, question) || w in NameHits(t, question);
    }
    if w :| w in SharedWords(t, question) {
    }
    if w :| w in NameHits(t, question) {
    }
  }

  lemma SmallerSet<T>(a: set<T>, b: set<T>)
    requires a <= b
    ensures |a| <= |b| && (a != b ==> |a| < |b|)
  {
    assert b == a + (b - a);
    assert a != b ==> b - a != {};
  }

  /** Matching every word that `u` matches, and one more, scores higher. */
  lemma MoreMatchesScoreHigher(t: TableInfo, u: TableInfo, question: string)
    requires SharedWords(u, question) <= SharedWords(t, question) && NameHits(u, question) <= NameHits(t, question)
    requires SharedWords(u, question) != SharedWords(t, question) || NameHits(u, question) != NameHits(t, question)
    ensures Strong(t, QueryOf(question)) > Strong(u, QueryOf(question))
  {
    StrongMeans(t, question);
    StrongMeans(u, question);
    SmallerSet(SharedWords(u, question), SharedWords(t, question));
    SmallerSet(NameHits(u, question), NameHits(t, question));
  }

  // ------------------------------------------------------------------ trigrams

  /** Cleaning a text: word characters stay, ... */
  lemma {:induction false} CleanedWord(a: string, afterBlank: bool)
    requires IsRun(a, 0, |a|)
    ensures Cleaned(a, afterBlank) == a
  {
    if a != "" {
      assert forall k :: 0 <= k < |a[1..]| ==> a[1..][k] == a[k + 1];
      CleanedWord(a[1..], false);
    }
  }

  /** ... every run of others becomes one blank, ... */
  lemma {:induction false} CleanedGap(a: string, afterBlank: bool)
    requires a != "" && forall k :: 0 <= k < |a| ==> !IsWordChar(a[k])
    ensures Cleaned(a, afterBlank) == if afterBlank then "" else " "
  {
    if |a| == 1 {
      assert a[1..] == "";
    } else {
      assert forall k :: 0 <= k < |a[1..]| ==> a[1..][k] == a[k + 1];
      CleanedGap(a[1..], true);
    }
  }

  function CleanedChar(c: char, afterBlank: bool): string {
    if IsWordChar(c) then [c] else if afterBlank then "" else " "
  }

  lemma CleanedFirst(s: string, afterBlank: bool)
    requires s != ""
    ensures Cleaned(s, afterBlank) == CleanedChar(s[0], afterBlank) + Cleaned(s[1..], !IsWordChar(s[0]))
  {}

  lemma Regroup(x: string, y: string, z: string)
    ensures x + (y + z) == x + y + z
  {}

  lemma RestOfBoth(a: string, b: string)
    requires a != ""
    ensures (a + b)[0] == a[0] && (a + b)[1..] == a[1..] + b
  {}

  /** ... and the parts are cleaned one after the other, a gap at the seam counting once. */
  lemma {:induction false} CleanedParts(a: string, b: string, afterBlank: bool)
    ensures Cleaned(a + b, afterBlank)
         == Cleaned(a, afterBlank) + Cleaned(b, if a == "" then afterBlank else !IsWordChar(a[|a| - 1]))
  {
    if a == "" {
      assert a + b == b;
    } else {
      var gap, end := !IsWordChar(a[0]), !IsWordChar(a[|a| - 1]);
      RestOfBoth(a, b);
      CleanedFirst(a + b, afterBlank);
      CleanedFirst(a, afterBlank);
      CleanedParts(a[1..], b, gap);
      Regroup(CleanedChar(a[0], afterBlank), Cleaned(a[1..], gap), Cleaned(b, end));
    }
  }

  /** The trigrams are the windows of three characters. */
  lemma {:induction false} WindowsAre(s: string, x: string)
    ensures x in Windows(s) <==> |x| == 3 && OccursIn(s, x)
  {
    if |s| >= 3 {
      WindowsAre(s[1..], x);
      OccursBehind(s, x);
      assert x == s[..3] <==> |x| == 3 && x <= s;
    }
  }

  /** The total adds one (times ten: 0.1) for each trigram of the question that the table's name has. */
  lemma TotalMeans(t: TableInfo, question: string)
    ensures Total(t, QueryOf(question)) == Strong(t, QueryOf(question)) + |Trigrams(question) * Trigrams(Lower(t.name))|
    ensures forall x :: x in Trigrams(question) <==> |x| == 3 && OccursIn(Cleaned(Lower(question), false), x)
    ensures forall x :: x in Trigrams(Lower(t.name)) <==> |x| == 3 && OccursIn(Cleaned(Lower(t.name), false), x)
  {
    assert Lower(Lower(t.name)) == Lower(t.name) by {
      assert forall i :: 0 <= i < |t.name| ==> LowerChar(LowerChar(t.name[i])) == LowerChar(t.name[i]);
    }
    forall x ensures x in Trigrams(question) <==> |x| == 3 && OccursIn(Cleaned(Lower(question), false), x) {
      WindowsAre(Cleaned(Lower(question), false), x);
    }
    forall x ensures x in Trigrams(Lower(t.name)) <==> |x| == 3 && OccursIn(Cleaned(Lower(t.name), false), x) {
      WindowsAre(Cleaned(Lower(t.name), false), x);
    }
  }

  // ------------------------------------------------------------- who comes first

  /** Position `i` holds the first table with a direct match. */
  predicate FirstMatch(ranked: seq<TableInfo>, q: Query, i: nat) {
    i < |ranked| && Strong(ranked[i], q) > 0 && forall j: nat :: j < i ==> Strong(ranked[j], q) == 0
  }

  lemma {:induction false} MatchingFirst(ranked: seq<TableInfo>, q: Query) returns (i: nat)
    requires Matching(ranked, q) != []
    ensures FirstMatch(ranked, q, i) && ranked[i] == Matching(ranked, q)[0]
  {
    if Strong(ranked[0], q) > 0 {
      return 0;
    }
    var k := MatchingFirst(ranked[1..], q);
    i := k + 1;
    forall j: nat | j < i ensures Strong(ranked[j], q) == 0 {
      assert j > 0 ==> ranked[j] == ranked[1..][j - 1];
    }
  }

  /** If any table matches the question directly, the first table selected does, and none that matches scores higher; if
      none does, it is the best of all. */
  lemma TopSeedIsBestMatch(tables: seq<TableInfo>, question: string, t: TableInfo)
    requires t in tables
    ensures var q := QueryOf(question);
            && (DirectMatch(t, question) ==>
                  DirectMatch(TopSeed(tables, q), question) && Total(t, q) <= Total(TopSeed(tables, q), q))
            && (!DirectMatch(TopSeed(tables, q), question) ==> Total(t, q) <= Total(TopSeed(tables, q), q))
  {
    var q := QueryOf(question);
    MatchMeans(t, question);
    MatchMeans(TopSeed(tables, q), question);
    TopSeedIsBest(tables, q, t);
  }

  lemma TopSeedIsBest(tables: seq<TableInfo>, q: Query, t: TableInfo)
    requires t in tables
    ensures Strong(t, q) > 0 ==> Strong(TopSeed(tables, q), q) > 0
    ensures Strong(t, q) > 0 || Strong(TopSeed(tables, q), q) == 0 ==> Total(t, q) <= Total(TopSeed(tables, q), q)
  {
    var ranked := Ranked(tables, q);
    RankedMembers(tables, q);
    RankedIsStableSort(tables, q);
    MatchingIsPart(ranked, q);
    var k: nat :| k < |ranked| && ranked[k] == t;
    if Matching(ranked, q) != [] {
      var i := MatchingFirst(ranked, q);
      if Strong(t, q) > 0 {
        assert i <= k;
        assert Total(ranked[i], q) >= Total(ranked[k], q);
      }
    } else {
      assert ranked[0] == TopSeed(tables, q);
    }
  }

  // ------------------------------------------------------------------ the passes

  /** The last table of this bare name. */
  ghost predicate IsLastNamed(tables: seq<TableInfo>, name: string, i: nat) {
    i < |tables| && tables[i].name == name && forall j :: i < j < |tables| ==> tables[j].name != name
  }

  /** A foreign key leads to the last table of the referenced bare name, if there is one. */
  lemma {:induction false} ByNameIsLast(tables: seq<TableInfo>, name: string, i: nat)
    requires IsLastNamed(tables, name, i)
    ensures name in ByName(tables) && ByName(tables)[name] == tables[i]
  {
    var last := |tables| - 1;
    if i < last {
      assert IsLastNamed(tables[..last], name, i);
      ByNameIsLast(tables[..last], name, i);
      assert tables[last].name != name;
    }
  }

  lemma {:induction false} ByNameHasOnly(tables: seq<TableInfo>, name: string)
    ensures name in ByName(tables) ==> exists i: nat :: IsLastNamed(tables, name, i)
  {
    if tables != [] {
      var last := |tables| - 1;
      if tables[last].name == name {
        assert IsLastNamed(tables, name, last);
      } else {
        ByNameHasOnly(tables[..last], name);
        if i: nat :| IsLastNamed(tables[..last], name, i) {
          assert IsLastNamed(tables, name, i);
        }
      }
    }
  }

  /** The tables the foreign keys lead to. */
  ghost predicate Referenced(fks: seq<ForeignKeyInfo>, byName: map<string, TableInfo>, t: TableInfo) {
    exists fk :: fk in fks && fk.refTable in byName && byName[fk.refTable] == t
  }

  /** A table was offered by the time `selected` was reached: it is in, or it did not fit. */
  ghost predicate Offered(selected: seq<TableInfo>, t: TableInfo, budget: int) {
    t.name in Names(selected) || TablesTokens(selected + [t]) > budget
  }

  lemma OfferedStays(selected: seq<TableInfo>, more: seq<TableInfo>, t: TableInfo, budget: int)
    requires Offered(selected, t, budget) && selected <= more
    ensures Offered(more, t, budget)
  {
    TokensMonotone(selected, more, t);
  }

  lemma TriedIsOffered(selected: seq<TableInfo>, t: TableInfo, budget: int)
    ensures Offered(AfterTry(selected, t, budget), t, budget) && selected <= AfterTry(selected, t, budget)
    ensures forall u :: u in AfterTry(selected, t, budget) ==> u in selected || u == t
  {
    assert t in selected + [t];
  }

  /** The neighbours of a seed: each is offered, and nothing else comes in. */
  lemma {:induction false} NeighboursOffered(selected: seq<TableInfo>, fks: seq<ForeignKeyInfo>,
                                             byName: map<string, TableInfo>, budget: int)
    ensures var after := WithNeighbours(selected, fks, byName, budget);
            && selected <= after
            && (forall t :: Referenced(fks, byName, t) ==> Offered(after, t, budget))
            && (forall t :: t in after ==> t in selected || Referenced(fks, byName, t))
    decreases |fks|
  {
    if fks != [] {
      var known := fks[0].refTable in byName;
      var next := if known then AfterTry(selected, byName[fks[0].refTable], budget) else selected;
      var after := WithNeighbours(selected, fks, byName, budget);
      if known {
        TriedIsOffered(selected, byName[fks[0].refTable], budget);
      }
      NeighboursOffered(next, fks[1..], byName, budget);
      assert fks == [fks[0]] + fks[1..];
      forall t | Referenced(fks, byName, t) ensures Offered(after, t, budget) {
        if !Referenced(fks[1..], byName, t) {
          OfferedStays(next, after, t, budget);
        }
      }
    }
  }

  /** One seed of the first pass: it gets in, all tables its foreign keys lead to are offered before the next seed, and
      nothing else comes in. */
  ghost predicate SeedStage(before: seq<TableInfo>, seed: TableInfo, byName: map<string, TableInfo>, budget: int,
                            after: seq<TableInfo>)
  {
    && before <= after && seed.name in Names(after)
    && (forall t :: Referenced(seed.foreignKeys, byName, t) ==> Offered(after, t, budget))
    && (forall t :: t in after ==> t in before || t == seed || Referenced(seed.foreignKeys, byName, t))
  }

  /** The first pass: seed after seed, until one does not fit. */
  ghost predicate FirstPass(before: seq<TableInfo>, seeds: seq<TableInfo>, byName: map<string, TableInfo>, budget: int,
                            after: seq<TableInfo>)
    decreases |seeds|
  {
    if seeds == [] then after == before
    else
      || (after == before && before != [] && seeds[0].name !in Names(before) && TablesTokens(before + [seeds[0]]) > budget)
      || exists stage :: SeedStage(before, seeds[0], byName, budget, stage)
                         && FirstPass(stage, seeds[1..], byName, budget, after)
  }

  lemma {:induction false} SeedsInStages(selected: seq<TableInfo>, seeds: seq<TableInfo>, byName: map<string, TableInfo>,
                                         budget: int)
    ensures FirstPass(selected, seeds, byName, budget, WithSeeds(selected, seeds, byName, budget))
    decreases |seeds|
  {
    if seeds != [] {
      var next := AfterTry(selected, seeds[0], budget);
      TriedIsOffered(selected, seeds[0], budget);
      assert seeds[0] in selected + [seeds[0]];
      if seeds[0].name in Names(next) {
        var stage := WithNeighbours(next, seeds[0].foreignKeys, byName, budget);
        NeighboursOffered(next, seeds[0].foreignKeys, byName, budget);
        assert Names(next) <= Names(stage);
        assert SeedStage(selected, seeds[0], byName, budget, stage);
        SeedsInStages(stage, seeds[1..], byName, budget);
      }
    }
  }

  /** The second pass: table after table in ranking order, each added exactly when its name is new and it fits. */
  ghost predicate SecondPass(before: seq<TableInfo>, ranked: seq<TableInfo>, budget: int, after: seq<TableInfo>)
    decreases |ranked|
  {
    if ranked == [] then after == before
    else
      var isNew := ranked[0].name !in Names(before) && (before == [] || TablesTokens(before + [ranked[0]]) <= budget);
      SecondPass(if isNew then before + [ranked[0]] else before, ranked[1..], budget, after)
  }

  lemma {:induction false} RankedInOrder(selected: seq<TableInfo>, ranked: seq<TableInfo>, budget: int)
    ensures SecondPass(selected, ranked, budget, WithAll(selected, ranked, budget))
    decreases |ranked|
  {
    if ranked != [] {
      RankedInOrder(AfterTry(selected, ranked[0], budget), ranked[1..], budget);
    }
  }

  /** The seeds are the direct matches in ranking order, or the best table when nothing matches. */
  lemma SeedsMean(tables: seq<TableInfo>, question: string)
    requires tables != []
    ensures var q := QueryOf(question);
            var ranked := Ranked(tables, q);
            && ranked != []
            && (forall t :: t in Matching(ranked, q) <==> t in tables && DirectMatch(t, question))
            && Seeds(ranked, q) == if Matching(ranked, q) != [] then Matching(ranked, q) else [ranked[0]]
  {
    var q := QueryOf(question);
    RankedMembers(tables, q);
    MatchingIsPart(Ranked(tables, q), q);
    forall t { MatchMeans(t, question); }
  }

  /** What is selected, pass by pass: the seeds with the tables their foreign keys lead to, then the ranking. */
  lemma SelectedInPasses(tables: seq<TableInfo>, question: string, budget: int)
    requires tables != []
    ensures var q := QueryOf(question);
            exists seeded :: FirstPass([], Seeds(Ranked(tables, q), q), ByName(tables), budget, seeded)
                             && SecondPass(seeded, Ranked(tables, q), budget, Packing(tables, q, budget))
  {
    var q := QueryOf(question);
    var ranked := Ranked(tables, q);
    RankedMembers(tables, q);
    var seeded := WithSeeds([], Seeds(ranked, q), ByName(tables), budget);
    SeedsInStages([], Seeds(ranked, q), ByName(tables), budget);
    RankedInOrder(seeded, ranked, budget);
  }

  // ------------------------------------------------------------ what is sent

  lemma {:induction false} ChosenInOrder(tables: seq<TableInfo>, selected: seq<TableInfo>)
    ensures InOrder(Chosen(tables, selected), tables)
  {
    if tables != [] {
      var rest := Chosen(tables[1..], selected);
      ChosenInOrder(tables[1..], selected);
      if tables[0].name in Names(selected) {
        assert Chosen(tables, selected)[1..] == rest;
        assert tables[0] == Chosen(tables, selected)[0] && InOrder(rest, tables[0 + 1..]);
      } else {
        InOrderWithin(rest, tables);
        assert Chosen(tables, selected) == rest;
      }
    }
  }

  /** A schema that does not fit is sent as its directory and the tables with a selected name, in schema order, with a
      warning that tells how many of how many. */
  lemma SentInSchemaOrder(tables: seq<TableInfo>, question: string, maxTokens: int)
    requires tables != [] && EstimateTokens(TablesText(tables)) > maxTokens
    ensures var selected := Packing(tables, QueryOf(question), Budget(tables, maxTokens));
            var r, chosen := Selection(tables, question, maxTokens), ChosenFor(tables, question, maxTokens);
            && InOrder(chosen, tables)
            && (forall t :: t in chosen <==> t in tables && exists u :: u in selected && u.name == t.name)
            && r.text == Directory(tables) + "\n\n" + TablesText(chosen)
            && r.sent == |chosen| && r.total == |tables| && r.warnings == [OverBudget(|tables|, |chosen|)]
  {
    var selected := Packing(tables, QueryOf(question), Budget(tables, maxTokens));
    ChosenInOrder(tables, selected);
    ChosenMembers(tables, selected);
  }
}
