/** Shared value types and the few list operations several components use. */
module Common {
  datatype Option<+T> = None | Some(value: T)

  datatype Result<+T, +E> = Ok(value: T) | Err(error: E)

  /** `sep.join(parts)`. */
  function Join(sep: string, parts: seq<string>): string {
    if |parts| == 0 then ""
    else if |parts| == 1 then parts[0]
    else parts[0] + sep + Join(sep, parts[1..])
  }

  /** Order-preserving de-duplication: `list(dict.fromkeys(s))`. */
  function Dedup<T(==,!new)>(s: seq<T>): (r: seq<T>)
    ensures forall x :: x in r <==> x in s
    ensures NoDuplicates(r)
  {
    if s == [] then []
    else
      var d := Dedup(s[..|s| - 1]);
      if s[|s| - 1] in d then d else d + [s[|s| - 1]]
  }

  ghost predicate NoDuplicates<T>(s: seq<T>) {
    forall i, j :: 0 <= i < j < |s| ==> s[i] != s[j]
  }

  lemma InConcat<T>(a: seq<T>, b: seq<T>, x: T)
    ensures x in a + b <==> x in a || x in b
  {}

  /** A list grown step by step has what some step added. */
  lemma {:induction false} AddedBySomeStep(has: nat -> bool, adds: nat -> bool, n: nat)
    requires !has(0) && forall k: nat :: k < n ==> (has(k + 1) <==> has(k) || adds(k))
    ensures has(n) <==> exists i: nat :: i < n && adds(i)
  {
    if n > 0 {
      AddedBySomeStep(has, adds, n - 1);
      assert has(n - 1 + 1) <==> has(n - 1) || adds(n - 1);
    }
  }

  lemma DedupSnoc<T(!new)>(s: seq<T>, x: T)
    ensures Dedup(s + [x]) == if x in s then Dedup(s) else Dedup(s) + [x]
  {
    assert (s + [x])[..|s|] == s;
  }

  lemma {:induction false} DedupIdentity<T(!new)>(s: seq<T>)
    requires NoDuplicates(s)
    ensures Dedup(s) == s
  {
    if s != [] {
      DedupIdentity(s[..|s| - 1]);
      assert s == s[..|s| - 1] + [s[|s| - 1]];
    }
  }

  /** `part` lists some of the entries of `whole` in the same order. */
  ghost predicate InOrder<T>(part: seq<T>, whole: seq<T>) {
    if part == [] then true
    else exists k :: 0 <= k < |whole| && whole[k] == part[0] && InOrder(part[1..], whole[k + 1..])
  }

  lemma {:induction false} InOrderWithin<T>(part: seq<T>, whole: seq<T>)
    requires whole != [] && InOrder(part, whole[1..])
    ensures InOrder(part, whole)
  {
    if part != [] {
      var k :| 0 <= k < |whole| - 1 && whole[1..][k] == part[0] && InOrder(part[1..], whole[1..][k + 1..]);
      assert whole[1..][k + 1..] == whole[k + 2..];
      assert whole[k + 1] == part[0] && InOrder(part[1..], whole[k + 1 + 1..]);
    }
  }

  /** Two lists without repetition that hold the same elements are permutations of each other. */
  lemma SameElementsPermute<T(!new)>(a: seq<T>, b: seq<T>)
    requires NoDuplicates(a) && NoDuplicates(b)
    requires forall x :: x in a <==> x in b
    ensures multiset(a) == multiset(b)
  {
    forall x ensures multiset(a)[x] == multiset(b)[x] {
      CountOnce(a, x);
      CountOnce(b, x);
    }
  }

  lemma {:induction false} CountOnce<T>(s: seq<T>, x: T)
    requires NoDuplicates(s)
    ensures multiset(s)[x] == if x in s then 1 else 0
  {
    if s != [] {
      CountOnce(s[1..], x);
      assert s == [s[0]] + s[1..];
    }
  }

  lemma CountRepeated<T>(s: seq<T>, i: nat, j: nat)
    requires i < j < |s|
    ensures s[i] == s[j] ==> multiset(s)[s[i]] >= 2
  {
    assert s == s[..j] + [s[j]] + s[j + 1..];
    assert s[..j][i] == s[i];
    assert s[i] in multiset(s[..j]);
  }

  /** ASCII lower case; other characters are left alone. */
  function LowerChar(c: char): char {
    if 'A' <= c <= 'Z' then (c as int - 'A' as int + 'a' as int) as char else c
  }

  function Lower(s: string): (r: string)
    ensures |r| == |s|
  {
    seq(|s|, i requires 0 <= i < |s| => LowerChar(s[i]))
  }

  /** ASCII white space, as Python strips it. */
  predicate IsSpace(c: char) { c == ' ' || '\t' <= c <= '\r' || '\U{1c}' <= c <= '\U{1f}' }

  ghost predicate Blank(s: string) { forall c :: c in s ==> IsSpace(c) }

  function StripLeft(s: string): string {
    if s != "" && IsSpace(s[0]) then StripLeft(s[1..]) else s
  }

  function Strip(s: string): string { StripRight(StripLeft(s)) }

  function StripRight(s: string): string {
    if s != "" && IsSpace(s[|s| - 1]) then StripRight(s[..|s| - 1]) else s
  }

  lemma {:induction false} StripLeftMeans(s: string) returns (pad: string)
    ensures Blank(pad) && s == pad + StripLeft(s)
    ensures StripLeft(s) != "" ==> !IsSpace(StripLeft(s)[0])
  {
    pad := "";
    if s != "" && IsSpace(s[0]) {
      var rest := StripLeftMeans(s[1..]);
      pad := [s[0]] + rest;
      assert s == [s[0]] + s[1..];
    }
  }

  lemma {:induction false} StripRightMeans(s: string) returns (pad: string)
    ensures Blank(pad) && s == StripRight(s) + pad
    ensures StripRight(s) != "" ==> !IsSpace(StripRight(s)[|StripRight(s)| - 1])
  {
    pad := "";
    if s != "" && IsSpace(s[|s| - 1]) {
      var rest := StripRightMeans(s[..|s| - 1]);
      pad := rest + [s[|s| - 1]];
      assert s == s[..|s| - 1] + [s[|s| - 1]];
    }
  }

  /** Stripping takes off white space on both sides, all of it and nothing else. */
  lemma StripMeans(s: string) returns (left: string, right: string)
    ensures Blank(left) && Blank(right) && s == left + Strip(s) + right
    ensures Strip(s) != "" ==> !IsSpace(Strip(s)[0]) && !IsSpace(Strip(s)[|Strip(s)| - 1])
  {
    left := StripLeftMeans(s);
    right := StripRightMeans(StripLeft(s));
    assert Strip(s) != "" ==> Strip(s)[0] == StripLeft(s)[0];
  }

  /** Character length of the concatenation of `parts`. */
  function TotalLength(parts: seq<string>): nat {
    if parts == [] then 0 else TotalLength(parts[..|parts| - 1]) + |parts[|parts| - 1]|
  }

  lemma {:induction false} TotalLengthConcat(a: seq<string>, b: seq<string>)
    ensures TotalLength(a + b) == TotalLength(a) + TotalLength(b)
  {
    if b == [] {
      assert a + b == a;
    } else {
      assert (a + b)[..|a + b| - 1] == a + b[..|b| - 1];
      TotalLengthConcat(a, b[..|b| - 1]);
    }
  }

  lemma {:induction false} JoinLength(sep: string, parts: seq<string>)
    ensures |Join(sep, parts)| == TotalLength(parts) + (if parts == [] then 0 else (|parts| - 1) * |sep|)
  {
    if |parts| >= 1 {
      assert parts == [parts[0]] + parts[1..];
      assert [parts[0]][..0] == [];
      TotalLengthConcat([parts[0]], parts[1..]);
      assert TotalLength([parts[0]]) == |parts[0]|;
      if |parts| >= 2 {
        JoinLength(sep, parts[1..]);
        assert (|parts| - 1) * |sep| == |sep| + (|parts| - 2) * |sep|;
      }
    }
  }

  lemma TotalLengthWithout(b: seq<string>, k: nat)
    requires k < |b|
    ensures TotalLength(b) == TotalLength(b[..k] + b[k + 1..]) + |b[k]|
  {
    var tail := b[k + 1..];
    assert b == b[..k] + ([b[k]] + tail);
    TotalLengthConcat(b[..k], [b[k]] + tail);
    TotalLengthConcat([b[k]], tail);
    TotalLengthConcat(b[..k], tail);
    assert [b[k]][..0] == [];
    assert TotalLength([b[k]]) == |b[k]|;
  }

  lemma MultisetWithout<T>(b: seq<T>, k: nat)
    requires k < |b|
    ensures multiset(b) == multiset(b[..k] + b[k + 1..]) + multiset{b[k]}
  {
    assert b == b[..k] + [b[k]] + b[k + 1..];
  }

  /** The total length does not depend on the order of the parts. */
  lemma {:induction false} TotalLengthPermute(a: seq<string>, b: seq<string>)
    requires multiset(a) == multiset(b)
    ensures |a| == |b|
    ensures TotalLength(a) == TotalLength(b)
    decreases |a|
  {
    if a == [] {
      assert b == [];
    } else {
      var k := MatchingIndex(a, b);
      TotalLengthPermute(a[1..], b[..k] + b[k + 1..]);
      assert a[..0] + a[1..] == a[1..];
      TotalLengthWithout(a, 0);
      TotalLengthWithout(b, k);
    }
  }

  function Map<T, U>(f: T -> U, s: seq<T>): (r: seq<U>)
    ensures |r| == |s| && forall i :: 0 <= i < |s| ==> r[i] == f(s[i])
  {
    seq(|s|, i requires 0 <= i < |s| => f(s[i]))
  }

  lemma MapSnoc<T, U>(f: T -> U, s: seq<T>, i: nat)
    requires i < |s|
    ensures Map(f, s[..i + 1]) == Map(f, s[..i]) + [f(s[i])]
  {}

  lemma MapWithout<T, U>(f: T -> U, s: seq<T>, k: nat)
    requires k < |s|
    ensures multiset(Map(f, s)) == multiset(Map(f, s[..k] + s[k + 1..])) + multiset{f(s[k])}
  {
    var image := Map(f, s);
    MultisetWithout(image, k);
    assert image[..k] + image[k + 1..] == Map(f, s[..k] + s[k + 1..]);
  }

  lemma MapHead<T, U>(f: T -> U, s: seq<T>)
    requires s != []
    ensures multiset(Map(f, s)) == multiset(Map(f, s[1..])) + multiset{f(s[0])}
  {
    MapWithout(f, s, 0);
    assert s[..0] + s[1..] == s[1..];
  }

  lemma {:induction false} MapPermute<T, U>(f: T -> U, a: seq<T>, b: seq<T>)
    requires multiset(a) == multiset(b)
    ensures multiset(Map(f, a)) == multiset(Map(f, b))
    decreases |a|
  {
    if a == [] {
      assert b == [];
    } else {
      var k := MatchingIndex(a, b);
      MapPermute(f, a[1..], b[..k] + b[k + 1..]);
      MapHead(f, a);
      MapWithout(f, b, k);
    }
  }

  lemma MatchingIndex<T>(a: seq<T>, b: seq<T>) returns (k: nat)
    requires multiset(a) == multiset(b) && a != []
    ensures k < |b| && b[k] == a[0]
    ensures multiset(a[1..]) == multiset(b[..k] + b[k + 1..])
  {
    assert a[0] in multiset(b);
    k :| 0 <= k < |b| && b[k] == a[0];
    MultisetWithout(b, k);
    assert a == [a[0]] + a[1..];
    assert multiset(a) == multiset{a[0]} + multiset(a[1..]);
    assert multiset(a[1..]) == multiset(a) - multiset{a[0]};
    assert multiset(b[..k] + b[k + 1..]) == multiset(b) - multiset{b[k]};
  }

  /** Stable insertion, largest key first. */
  function Insert<T>(x: T, sorted: seq<T>, key: T -> int): seq<T> {
    if sorted == [] || key(x) >= key(sorted[0]) then [x] + sorted
    else [sorted[0]] + Insert(x, sorted[1..], key)
  }

  /** Python's `sort(key=key, reverse=True)`. */
  function SortDescending<T>(s: seq<T>, key: T -> int): seq<T> {
    if s == [] then [] else Insert(s[0], SortDescending(s[1..], key), key)
  }

  function WithKey<T>(s: seq<T>, key: T -> int, k: int): seq<T> {
    if s == [] then [] else (if key(s[0]) == k then [s[0]] else []) + WithKey(s[1..], key, k)
  }

  ghost predicate Descending<T>(s: seq<T>, key: T -> int) {
    forall i, j :: 0 <= i < j < |s| ==> key(s[i]) >= key(s[j])
  }

  lemma {:induction false} InsertPermutes<T>(x: T, sorted: seq<T>, key: T -> int)
    ensures multiset(Insert(x, sorted, key)) == multiset{x} + multiset(sorted)
  {
    if sorted == [] || key(x) >= key(sorted[0]) {
    } else {
      InsertPermutes(x, sorted[1..], key);
      assert sorted == [sorted[0]] + sorted[1..];
    }
  }

  lemma {:induction false} InsertSorts<T>(x: T, sorted: seq<T>, key: T -> int)
    requires Descending(sorted, key)
    ensures Descending(Insert(x, sorted, key), key)
  {
    if sorted == [] || key(x) >= key(sorted[0]) {
    } else {
      var rest := Insert(x, sorted[1..], key);
      InsertSorts(x, sorted[1..], key);
      InsertPermutes(x, sorted[1..], key);
      forall j | 0 <= j < |rest| ensures key(sorted[0]) >= key(rest[j]) {
        assert rest[j] in multiset(rest);
        assert rest[j] == x || rest[j] in sorted[1..];
      }
    }
  }

  lemma WithKeyFirst<T>(x: T, rest: seq<T>, key: T -> int, k: int)
    ensures WithKey([x] + rest, key, k) == (if key(x) == k then [x] else []) + WithKey(rest, key, k)
  {
    assert ([x] + rest)[1..] == rest;
  }

  lemma {:induction false} InsertStable<T>(x: T, sorted: seq<T>, key: T -> int, k: int)
    ensures WithKey(Insert(x, sorted, key), key, k) == WithKey([x] + sorted, key, k)
  {
    if sorted == [] || key(x) >= key(sorted[0]) {
    } else {
      InsertStable(x, sorted[1..], key, k);
      WithKeyFirst(sorted[0], Insert(x, sorted[1..], key), key, k);
      WithKeyFirst(x, sorted[1..], key, k);
      WithKeyFirst(x, sorted, key, k);
    }
  }

  lemma {:induction false} SortDescendingIsStableSort<T>(s: seq<T>, key: T -> int)
    ensures Descending(SortDescending(s, key), key)
    ensures multiset(SortDescending(s, key)) == multiset(s)
    ensures forall k :: WithKey(SortDescending(s, key), key, k) == WithKey(s, key, k)
  {
    if s != [] {
      var rest := SortDescending(s[1..], key);
      SortDescendingIsStableSort(s[1..], key);
      InsertSorts(s[0], rest, key);
      InsertPermutes(s[0], rest, key);
      assert s == [s[0]] + s[1..];
      forall k ensures WithKey(SortDescending(s, key), key, k) == WithKey(s, key, k) {
        InsertStable(s[0], rest, key, k);
        assert ([s[0]] + rest)[1..] == rest;
      }
    }
  }

  /** The first `n` elements, or all of them. */
  function First<T>(s: seq<T>, n: nat): seq<T> { if |s| <= n then s else s[..n] }

  /** `before` after the first `n` elements of `more` were appended to it. */
  function Appended<T>(before: seq<T>, more: seq<T>, n: nat): seq<T>
    requires n <= |more|
  {
    if n == 0 then before else Appended(before, more, n - 1) + [more[n - 1]]
  }

  lemma {:induction false} AppendedAll<T>(before: seq<T>, more: seq<T>, n: nat)
    requires n <= |more|
    ensures Appended(before, more, n) == before + more[..n]
  {
    if n > 0 {
      AppendedAll(before, more, n - 1);
      assert more[..n] == more[..n - 1] + [more[n - 1]];
    }
  }

  /** Concatenation of the lists `f` gives for each element. */
  function FlatMap<T, U>(f: T -> seq<U>, s: seq<T>): seq<U> {
    if s == [] then [] else FlatMap(f, s[..|s| - 1]) + f(s[|s| - 1])
  }

  lemma FlatMapSnoc<T, U>(f: T -> seq<U>, s: seq<T>, i: nat)
    requires i < |s|
    ensures FlatMap(f, s[..i + 1]) == FlatMap(f, s[..i]) + f(s[i])
  {
    assert s[..i + 1][..i] == s[..i];
  }

  lemma {:induction false} FlatMapConcat<T, U>(f: T -> seq<U>, a: seq<T>, b: seq<T>)
    ensures FlatMap(f, a + b) == FlatMap(f, a) + FlatMap(f, b)
  {
    if b == [] {
      assert a + b == a;
    } else {
      assert (a + b)[..|a + b| - 1] == a + b[..|b| - 1];
      FlatMapConcat(f, a, b[..|b| - 1]);
    }
  }

  lemma FlatMapFirst<T, U>(f: T -> seq<U>, s: seq<T>)
    requires s != []
    ensures FlatMap(f, s) == f(s[0]) + FlatMap(f, s[1..])
  {
    assert s == [s[0]] + s[1..];
    FlatMapConcat(f, [s[0]], s[1..]);
    assert [s[0]][..0] == [];
  }
}
