/** What discovery renders: exactly the tables the executed requests name, in snapshot order. */
module DiscoverProperties {
  import opened Common
  import opened Schema
  import opened ToolChat
  import opened Discover

  // ------------------------------------------------------- what a name means

  /** `table` and, outside the public schema, `schema.table`. */
  ghost predicate GoesBy(t: TableInfo, key: string) {
    key == t.name || (t.schema != "public" && key == t.schema + "." + t.name)
  }

  /** Among the tables that go by this key, the last one. */
  ghost predicate LastOf(tables: seq<TableInfo>, key: string, t: TableInfo) {
    exists i: nat :: i < |tables| && tables[i] == t && GoesBy(t, key)
                     && forall j :: i < j < |tables| ==> !GoesBy(tables[j], key)
  }

  ghost predicate NoneOf(tables: seq<TableInfo>, key: string) { forall t :: t in tables ==> !GoesBy(t, key) }

  lemma NamedMeans(tables: seq<TableInfo>, key: string)
    ensures TableNamed(tables, key).None? <==> NoneOf(tables, key)
    ensures TableNamed(tables, key).Some? ==> LastOf(tables, key, TableNamed(tables, key).value)
  {
    LastNamedFinds(tables, key);
    forall t | t in tables ensures GoesBy(t, key) <==> Bears(t, key) {}
    match LastNamed(tables, key)
    case Some(i) => forall j | i < j < |tables| ensures !GoesBy(tables[j], key) {}
    case None =>
  }

  /** A requested name means the last table that goes by it exactly as given; only if there is none, the last that goes
      by it without the white space around it. */
  lemma RequestedMeans(tables: seq<TableInfo>, name: string)
    ensures Requested(tables, name).None? <==> NoneOf(tables, name) && NoneOf(tables, Strip(name))
    ensures Requested(tables, name).Some? ==>
      LastOf(tables, if NoneOf(tables, name) then Strip(name) else name, Requested(tables, name).value)
  {
    NamedMeans(tables, name);
    NamedMeans(tables, Strip(name));
  }

  ghost predicate Names(tables: seq<TableInfo>, names: seq<string>, t: TableInfo) {
    exists n :: n in names && Requested(tables, n) == Some(t)
  }

  /** None of these names, or all of them, mean a table. */
  ghost predicate NoneExist(tables: seq<TableInfo>, names: seq<string>) {
    forall n {:trigger Requested(tables, n)} :: n in names ==> Requested(tables, n).None?
  }

  ghost predicate AllExist(tables: seq<TableInfo>, names: seq<string>) {
    forall n {:trigger Requested(tables, n)} :: n in names ==> Requested(tables, n).Some?
  }

  lemma ExistSnoc(tables: seq<TableInfo>, names: seq<string>)
    requires names != []
    ensures var front, last := names[..|names| - 1], names[|names| - 1];
            && (NoneExist(tables, names) <==> NoneExist(tables, front) && Requested(tables, last).None?)
            && (AllExist(tables, names) <==> AllExist(tables, front) && Requested(tables, last).Some?)
  {
    assert names == names[..|names| - 1] + [names[|names| - 1]];
  }

  lemma {:induction false} KnownNone(tables: seq<TableInfo>, names: seq<string>)
    ensures Known(tables, names) == [] <==> NoneExist(tables, names)
    ensures Unknown(tables, names) == [] <==> AllExist(tables, names)
  {
    if names != [] {
      KnownNone(tables, names[..|names| - 1]);
      ExistSnoc(tables, names);
    }
  }

  /** The answer to a details call: an error exactly when nothing it asked for exists, else the details it resolved, with
      a note exactly when something else was asked for. */
  lemma DetailsMean(tables: seq<TableInfo>, call: ToolCall, names: seq<string>, render: Render)
    requires names == NamesIn(call)
    ensures var r := DetailsResult(call, Known(tables, names), Unknown(tables, names), render);
            && r.callId == call.id
            && (r.isError <==> NoneExist(tables, names))
            && (!r.isError ==> render(Known(tables, names)) <= r.content)
            && (!r.isError ==> (r.content == render(Known(tables, names)) <==> AllExist(tables, names)))
  {
    KnownNone(tables, names);
  }

  // ---------------------------------------------------------- what is rendered

  ghost predicate UniqueQualified(tables: seq<TableInfo>) {
    forall i, j :: 0 <= i < j < |tables| ==> Qualified(tables[i]) != Qualified(tables[j])
  }

  lemma SameQualifiedSameTable(tables: seq<TableInfo>, a: TableInfo, b: TableInfo)
    requires UniqueQualified(tables) && a in tables && b in tables && Qualified(a) == Qualified(b)
    ensures a == b
  {
    var i :| 0 <= i < |tables| && tables[i] == a;
    var j :| 0 <= j < |tables| && tables[j] == b;
    assert i == j;
  }

  lemma RequestedIsTable(tables: seq<TableInfo>, name: string)
    ensures Requested(tables, name).Some? ==> Requested(tables, name).value in tables
  {
    LastNamedFinds(tables, name);
    LastNamedFinds(tables, Strip(name));
  }

  ghost predicate Subset(part: seq<TableInfo>, tables: seq<TableInfo>) {
    forall t :: t in part ==> t in tables
  }

  lemma {:induction false} KnownMembers(tables: seq<TableInfo>, names: seq<string>)
    requires UniqueQualified(tables)
    ensures Subset(Known(tables, names), tables)
    ensures forall t :: t in Known(tables, names) <==> Names(tables, names, t)
  {
    if names != [] {
      var last := |names| - 1;
      var before := Known(tables, names[..last]);
      KnownMembers(tables, names[..last]);
      RequestedIsTable(tables, names[last]);
      assert names == names[..last] + [names[last]];
      forall t ensures Names(tables, names, t) <==> Names(tables, names[..last], t) || Requested(tables, names[last]) == Some(t) {
        assert forall n :: n in names <==> n in names[..last] || n == names[last];
      }
      if Requested(tables, names[last]).Some? {
        RepeatedRequest(tables, before, Requested(tables, names[last]).value);
      }
    }
  }

  lemma RepeatedRequest(tables: seq<TableInfo>, before: seq<TableInfo>, t: TableInfo)
    requires UniqueQualified(tables) && Subset(before, tables) && t in tables
    ensures Qualified(t) in QualifiedNames(before) <==> t in before
  {
    if Qualified(t) in QualifiedNames(before) {
      var u :| u in before && Qualified(u) == Qualified(t);
      SameQualifiedSameTable(tables, u, t);
    }
  }

  lemma PutMembers(tables: seq<TableInfo>, expanded: seq<TableInfo>, t: TableInfo)
    requires UniqueQualified(tables) && Subset(expanded, tables) && t in tables
    ensures forall u :: u in Put(expanded, t) <==> u in expanded || u == t
  {
    PositionFinds(expanded, Qualified(t));
    match Position(expanded, Qualified(t))
    case Some(k) =>
      SameQualifiedSameTable(tables, expanded[k], t);
      assert expanded[k := t] == expanded;
    case None =>
  }

  lemma {:induction false} PutAllMembers(tables: seq<TableInfo>, expanded: seq<TableInfo>, more: seq<TableInfo>)
    requires UniqueQualified(tables) && Subset(expanded, tables) && Subset(more, tables)
    ensures forall u :: u in PutAll(expanded, more) <==> u in expanded || u in more
  {
    if more != [] {
      var last := |more| - 1;
      assert more == more[..last] + [more[last]];
      PutAllMembers(tables, expanded, more[..last]);
      PutMembers(tables, PutAll(expanded, more[..last]), more[last]);
    }
  }

  /** Some executed call names the table. */
  ghost predicate Asked(tables: seq<TableInfo>, granted: seq<ToolCall>, t: TableInfo) {
    exists k :: 0 <= k < |granted| && Names(tables, NamesIn(granted[k]), t)
  }

  lemma {:induction false} ExpansionMembers(tables: seq<TableInfo>, granted: seq<ToolCall>)
    requires UniqueQualified(tables)
    ensures Subset(Expansion(tables, granted), tables)
    ensures forall t :: t in Expansion(tables, granted) <==> Asked(tables, granted, t)
  {
    if granted != [] {
      var last := |granted| - 1;
      var before, known := Expansion(tables, granted[..last]), Known(tables, NamesIn(granted[last]));
      ExpansionMembers(tables, granted[..last]);
      KnownMembers(tables, NamesIn(granted[last]));
      PutAllMembers(tables, before, known);
      forall t ensures Asked(tables, granted, t)
                  <==> Asked(tables, granted[..last], t) || Names(tables, NamesIn(granted[last]), t)
      {
        assert forall k :: 0 <= k < last ==> granted[..last][k] == granted[k];
      }
    }
  }

  lemma {:induction false} ChosenFromMembers(tables: seq<TableInfo>, keys: set<string>)
    ensures forall t :: t in ChosenFrom(tables, keys) <==> t in tables && Qualified(t) in keys
  {
    if tables != [] {
      ChosenFromMembers(tables[1..], keys);
      assert tables == [tables[0]] + tables[1..];
    }
  }

  lemma {:induction false} ChosenFromInOrder(tables: seq<TableInfo>, keys: set<string>)
    ensures InOrder(ChosenFrom(tables, keys), tables)
  {
    if tables != [] {
      var rest := ChosenFrom(tables[1..], keys);
      ChosenFromInOrder(tables[1..], keys);
      if Qualified(tables[0]) in keys {
        assert ChosenFrom(tables, keys)[1..] == rest;
        assert tables[0] == ChosenFrom(tables, keys)[0] && InOrder(rest, tables[0 + 1..]);
      } else {
        InOrderWithin(rest, tables);
        assert ChosenFrom(tables, keys) == rest;
      }
    }
  }

  /** With unique qualified names, the rendered tables are exactly the ones that executed calls resolved,
      in snapshot order. */
  lemma RendersTheRequests(tables: seq<TableInfo>, granted: seq<ToolCall>)
    requires UniqueQualified(tables)
    ensures var chosen := ChosenFrom(tables, QualifiedNames(Expansion(tables, granted)));
            InOrder(chosen, tables) && forall t :: t in chosen <==> Asked(tables, granted, t)
  {
    var expanded := Expansion(tables, granted);
    var keys := QualifiedNames(expanded);
    ExpansionMembers(tables, granted);
    ChosenFromMembers(tables, keys);
    ChosenFromInOrder(tables, keys);
    forall t | t in tables ensures Qualified(t) in keys <==> t in expanded {
      RepeatedRequest(tables, expanded, t);
    }
  }

  /** No details call is executed once the limit is reached; the last one executed may overshoot it. */
  ghost predicate GrantedBelowLimit(tables: seq<TableInfo>, granted: seq<ToolCall>, limit: int) {
    forall k {:trigger Expansion(tables, granted[..k])} ::
      0 <= k < |granted| ==> |Expansion(tables, granted[..k])| < limit
  }

  /** `granted` is what is executed of `calls`: all of them, or those before the limit was reached. */
  ghost predicate UntilLimit(tables: seq<TableInfo>, granted: seq<ToolCall>, calls: seq<ToolCall>, limit: int) {
    && GrantedBelowLimit(tables, granted, limit)
    && (granted == calls || (granted <= calls && |Expansion(tables, granted)| >= limit))
  }

  lemma GrantUntilLimit(tables: seq<TableInfo>, granted: seq<ToolCall>, calls: seq<ToolCall>, call: ToolCall,
                        limit: int)
    requires UntilLimit(tables, granted, calls, limit)
    ensures UntilLimit(tables, Grant(tables, granted, call, limit), calls + [call], limit)
  {
    if |Expansion(tables, granted)| < limit {
      forall k | 0 <= k < |granted| + 1 ensures |Expansion(tables, (granted + [call])[..k])| < limit {
        assert (granted + [call])[..k] == granted[..k];
      }
    }
  }

  lemma {:induction false} GrantedFromUntilLimit(tables: seq<TableInfo>, before: seq<ToolCall>, granted: seq<ToolCall>,
                                                calls: seq<ToolCall>, n: nat, limit: int)
    requires n <= |calls| && UntilLimit(tables, granted, before, limit)
    ensures UntilLimit(tables, GrantedFrom(tables, granted, calls, n, limit), Appended(before, calls, n), limit)
  {
    if n > 0 {
      GrantedFromUntilLimit(tables, before, granted, calls, n - 1, limit);
      GrantUntilLimit(tables, GrantedFrom(tables, granted, calls, n - 1, limit), Appended(before, calls, n - 1), calls[n - 1],
                      limit);
    }
  }

  /** Over a whole run: the model's details calls are executed in order until the table limit is reached, none after;
      only the last one executed can overshoot it. */
  lemma {:induction false} GrantedUntilLimit(tables: seq<TableInfo>, replies: seq<ChatOutcome>, limit: int)
    ensures UntilLimit(tables, Granted(tables, replies, limit), CallsOf(replies), limit)
  {
    if replies != [] {
      var last := |replies| - 1;
      var calls := CallsIn(replies[last]);
      GrantedUntilLimit(tables, replies[..last], limit);
      GrantedFromUntilLimit(tables, CallsOf(replies[..last]), Granted(tables, replies[..last], limit), calls, |calls|, limit);
      AppendedAll(CallsOf(replies[..last]), calls, |calls|);
      assert calls[..|calls|] == calls;
    }
  }
}
