/** Reading the allowed values out of enum and CHECK definitions (schema/introspect.py). */
module Literals {
  import opened Common

  const QUOTE: char := '\''

  /** The rest of a literal after its opening quote, as the pattern `(?:[^']|'')*'` matches it: a doubled
      quote is taken as content first, and given back only when no closing quote would be left.
      Yields the raw body and what follows the closing quote. */
  function LiteralBody(s: string): (m: Option<(string, string)>)
    ensures m.Some? ==> |m.value.1| < |s|
  {
    if s == "" then None
    else if s[0] != QUOTE then
      match LiteralBody(s[1..])
      case Some(m) => Some(([s[0]] + m.0, m.1))
      case None => None
    else if |s| > 1 && s[1] == QUOTE then
      match LiteralBody(s[2..])
      case Some(m) => Some(([QUOTE, QUOTE] + m.0, m.1))
      case None => Some(("", s[1..]))
    else Some(("", s[1..]))
  }

  /** `_STRING_LITERAL_RE.findall(text)`. */
  function FindAll(text: string): seq<string>
    decreases |text|
  {
    if text == "" then []
    else if text[0] != QUOTE then FindAll(text[1..])
    else
      match LiteralBody(text[1..])
      case Some(m) => [m.0] + FindAll(m.1)
      case None => FindAll(text[1..])
  }

  /** `raw.replace("''", "'")`. */
  function Unescape(raw: string): string {
    if |raw| >= 2 && raw[0] == QUOTE && raw[1] == QUOTE then [QUOTE] + Unescape(raw[2..])
    else if raw == "" then ""
    else [raw[0]] + Unescape(raw[1..])
  }

  function Values(raws: seq<string>): seq<string> { Dedup(Map(Unescape, raws)) }

  function LiteralsIn(text: string): seq<string> { Values(FindAll(text)) }

  lemma ValuesSnoc(raws: seq<string>, i: nat)
    requires i < |raws|
    ensures var value := Unescape(raws[i]);
            Values(raws[..i + 1]) == Values(raws[..i]) + (if value in Values(raws[..i]) then [] else [value])
  {
    MapSnoc(Unescape, raws, i);
    DedupSnoc(Map(Unescape, raws[..i]), Unescape(raws[i]));
  }

  /** _string_literals: the keys of a dict filled in order. */
  method StringLiterals(text: string) returns (values: seq<string>)
    ensures values == LiteralsIn(text)
  {
    var raws := FindAll(text);
    values := [];
    for i := 0 to |raws|
      invariant values == Values(raws[..i])
    {
      ValuesSnoc(raws, i);
      var value := Unescape(raws[i]);
      if value !in values {
        values := values + [value];
      }
    }
    assert raws[..|raws|] == raws;
  }

  /** _parse_enum_type. */
  method ParseEnumType(columnType: string) returns (labels: Option<seq<string>>)
    ensures labels == EnumLabels(columnType)
  {
    if !("enum(" <= Lower(Strip(columnType))) {
      return None;
    }
    var values := StringLiterals(columnType);
    return if values != [] then Some(values) else None;
  }

  function EnumLabels(columnType: string): Option<seq<string>> {
    if "enum(" <= Lower(Strip(columnType)) && LiteralsIn(columnType) != [] then Some(LiteralsIn(columnType)) else None
  }

  // -------------------------------------------------------------- round trip

  function Doubled(v: string): string {
    if v == "" then "" else (if v[0] == QUOTE then [QUOTE, QUOTE] else [v[0]]) + Doubled(v[1..])
  }

  function Quoted(v: string): string { [QUOTE] + Doubled(v) + [QUOTE] }

  ghost predicate QuoteFree(s: string) { QUOTE !in s }

  lemma {:induction false} UnescapeDoubled(v: string)
    ensures Unescape(Doubled(v)) == v
  {
    if v != "" {
      UnescapeDoubled(v[1..]);
      var rest := Doubled(v[1..]);
      if v[0] == QUOTE {
        assert Doubled(v)[2..] == rest;
      } else {
        assert Doubled(v)[1..] == rest;
      }
    }
  }

  lemma {:induction false} LiteralBodyReads(v: string, rest: string)
    requires rest == "" || rest[0] != QUOTE
    ensures LiteralBody(Doubled(v) + [QUOTE] + rest) == Some((Doubled(v), rest))
  {
    var s := Doubled(v) + [QUOTE] + rest;
    if v == "" {
      assert s[1..] == rest;
    } else {
      LiteralBodyReads(v[1..], rest);
      var tail := Doubled(v[1..]) + [QUOTE] + rest;
      if v[0] == QUOTE {
        assert s[2..] == tail;
      } else {
        assert s[1..] == tail;
      }
    }
  }

  lemma {:induction false} FindAllSkips(gap: string, s: string)
    requires QuoteFree(gap)
    ensures FindAll(gap + s) == FindAll(s)
  {
    if gap == "" {
      assert gap + s == s;
    } else {
      FindAllSkips(gap[1..], s);
      assert (gap + s)[0] == gap[0] && (gap + s)[1..] == gap[1..] + s;
    }
  }

  /** Literals, each after a gap (separator, charset prefix, cast, ...), then a trailing text. */
  function Listing(pieces: seq<(string, string)>, suffix: string): string {
    if pieces == [] then suffix else pieces[0].0 + (Quoted(pieces[0].1) + Listing(pieces[1..], suffix))
  }

  /** No quotes outside the literals, and something between any two of them. */
  ghost predicate Separated(pieces: seq<(string, string)>, suffix: string) {
    && QuoteFree(suffix)
    && (forall i :: 0 <= i < |pieces| ==> QuoteFree(pieces[i].0))
    && (forall i :: 0 < i < |pieces| ==> pieces[i].0 != "")
  }

  function RawOf(piece: (string, string)): string { Doubled(piece.1) }

  /** One literal is found at an opening quote, and the scan goes on behind it. */
  lemma FindAllStep(s: string, raw: string, rest: string)
    requires s != "" && s[0] == QUOTE && LiteralBody(s[1..]) == Some((raw, rest))
    ensures FindAll(s) == [raw] + FindAll(rest)
  {}

  lemma QuotedBody(v: string, rest: string)
    requires rest == "" || rest[0] != QUOTE
    ensures LiteralBody((Quoted(v) + rest)[1..]) == Some((Doubled(v), rest))
  {
    LiteralBodyReads(v, rest);
    assert (Quoted(v) + rest)[1..] == Doubled(v) + [QUOTE] + rest;
  }

  lemma FindAllOne(gap: string, v: string, rest: string)
    requires QuoteFree(gap)
    requires rest == "" || rest[0] != QUOTE
    ensures FindAll(gap + (Quoted(v) + rest)) == [Doubled(v)] + FindAll(rest)
  {
    QuotedBody(v, rest);
    FindAllStep(Quoted(v) + rest, Doubled(v), rest);
    FindAllSkips(gap, Quoted(v) + rest);
  }

  lemma ListingStart(pieces: seq<(string, string)>, suffix: string)
    requires Separated(pieces, suffix) && (pieces == [] || pieces[0].0 != "")
    ensures var text := Listing(pieces, suffix); text == "" || text[0] != QUOTE
  {
    if pieces != [] {
      assert pieces[0].0[0] in pieces[0].0;
    } else if suffix != "" {
      assert suffix[0] in suffix;
    }
  }

  lemma {:induction false} FindAllListing(pieces: seq<(string, string)>, suffix: string)
    requires Separated(pieces, suffix)
    ensures FindAll(Listing(pieces, suffix)) == Map(RawOf, pieces)
  {
    if pieces == [] {
      FindAllSkips(suffix, "");
      assert suffix + "" == suffix;
    } else {
      ListingStart(pieces[1..], suffix);
      FindAllOne(pieces[0].0, pieces[0].1, Listing(pieces[1..], suffix));
      FindAllListing(pieces[1..], suffix);
      assert Map(RawOf, pieces) == [RawOf(pieces[0])] + Map(RawOf, pieces[1..]);
    }
  }

  function ValueOf(piece: (string, string)): string { piece.1 }

  /** Round trip: whatever the separators, prefixes and casts around quoted literals, scanning them gives
      the values back, in order, each once. */
  lemma LiteralsRoundTrip(pieces: seq<(string, string)>, suffix: string)
    requires Separated(pieces, suffix)
    ensures LiteralsIn(Listing(pieces, suffix)) == Dedup(Map(ValueOf, pieces))
  {
    FindAllListing(pieces, suffix);
    forall i | 0 <= i < |pieces| ensures Unescape(Doubled(pieces[i].1)) == pieces[i].1 {
      UnescapeDoubled(pieces[i].1);
    }
    assert Map(Unescape, Map(RawOf, pieces)) == Map(ValueOf, pieces);
  }

  function PieceAfter(v: string): (string, string) { (",", v) }

  /** `prefix'v1','v2',...suffix`. */
  function CommaList(prefix: string, values: seq<string>, suffix: string): string {
    if values == [] then prefix + suffix
    else Listing([(prefix, values[0])] + Map(PieceAfter, values[1..]), suffix)
  }

  /** Distinct values come back exactly; repeated ones come back once. */
  lemma CommaListRoundTrip(prefix: string, values: seq<string>, suffix: string)
    requires QuoteFree(prefix) && QuoteFree(suffix)
    ensures LiteralsIn(CommaList(prefix, values, suffix)) == Dedup(values)
    ensures NoDuplicates(values) ==> LiteralsIn(CommaList(prefix, values, suffix)) == values
  {
    if values == [] {
      LiteralsRoundTrip([], prefix + suffix);
      assert Listing([], prefix + suffix) == prefix + suffix;
      assert Map(ValueOf, []) == values;
    } else {
      var pieces := [(prefix, values[0])] + Map(PieceAfter, values[1..]);
      assert QuoteFree(",");
      LiteralsRoundTrip(pieces, suffix);
      assert Map(ValueOf, pieces) == values;
    }
    if NoDuplicates(values) {
      DedupIdentity(values);
    }
  }

  lemma {:induction false} StripLeftSkips(pad: string, s: string)
    requires Blank(pad) && s != "" && !IsSpace(s[0])
    ensures StripLeft(pad + s) == s
  {
    if pad == "" {
      assert pad + s == s;
    } else {
      assert pad[0] in pad;
      StripLeftSkips(pad[1..], s);
      assert (pad + s)[1..] == pad[1..] + s;
    }
  }

  lemma {:induction false} StripRightKeeps(s: string, n: nat)
    requires 0 < n <= |s| && !IsSpace(s[n - 1])
    ensures |StripRight(s)| >= n && StripRight(s)[..n] == s[..n]
  {
    if IsSpace(s[|s| - 1]) {
      StripRightKeeps(s[..|s| - 1], n);
      assert s[..|s| - 1][..n] == s[..n];
    }
  }

  /** A head that reads "enum(" in any case contains no quote and no white space. */
  lemma EnumHead(head: string)
    requires Lower(head) == "enum("
    ensures |head| == 5 && QuoteFree(head) && !IsSpace(head[0]) && !IsSpace(head[4])
  {
    assert |head| == |Lower(head)| == 5;
    forall i | 0 <= i < 5 ensures head[i] != QUOTE && !IsSpace(head[i]) {
      assert LowerChar(head[i]) == Lower(head)[i] == "enum("[i];
    }
  }

  /** "enum(" in any case, after white space, is recognised. */
  lemma RecognisedAsEnum(pad: string, head: string, rest: string)
    requires Blank(pad) && Lower(head) == "enum("
    ensures "enum(" <= Lower(Strip(pad + (head + rest)))
  {
    EnumHead(head);
    var s := head + rest;
    assert s[0] == head[0] && s[4] == head[4] && s[..5] == head;
    StripLeftSkips(pad, s);
    StripRightKeeps(s, 5);
    var stripped := StripRight(s);
    forall i | 0 <= i < 5 ensures Lower(stripped)[i] == "enum("[i] {
      assert stripped[i] == stripped[..5][i] == head[i];
      assert Lower(head)[i] == LowerChar(head[i]);
    }
  }

  /** A MySQL enum type yields its labels in order, each once, in any letter case and with white space around it; one
      without labels yields nothing. */
  lemma EnumRoundTrip(pad: string, head: string, labels: seq<string>, tail: string)
    requires Blank(pad) && Lower(head) == "enum(" && QuoteFree(tail)
    ensures EnumLabels(pad + CommaList(head, labels, tail)) == if labels == [] then None else Some(Dedup(labels))
  {
    EnumHead(head);
    assert QuoteFree(pad + head);
    CommaListRoundTrip(pad + head, labels, tail);
    CommaListStarts(pad, head, labels, tail);
    var rest := CommaList(head, labels, tail)[5..];
    assert CommaList(head, labels, tail) == head + rest;
    RecognisedAsEnum(pad, head, rest);
    assert labels != [] ==> labels[0] in Dedup(labels);
  }

  lemma CommaListStarts(pad: string, head: string, labels: seq<string>, tail: string)
    ensures head <= CommaList(head, labels, tail)
    ensures CommaList(pad + head, labels, tail) == pad + CommaList(head, labels, tail)
  {
    if labels == [] {
      assert pad + head + tail == pad + (head + tail);
    } else {
      var more := Map(PieceAfter, labels[1..]);
      var pieces, padded := [(head, labels[0])] + more, [(pad + head, labels[0])] + more;
      var rest := Quoted(labels[0]) + Listing(more, tail);
      assert pieces[1..] == more && padded[1..] == more;
      assert Listing(pieces, tail) == head + rest && Listing(padded, tail) == pad + head + rest;
      assert pad + head + rest == pad + (head + rest);
    }
  }

  /** The separator is needed: two literals side by side read as one, with a quote inside. */
  lemma AdjacentLiteralsMerge()
    ensures LiteralsIn(Listing([("", "a"), ("", "b")], "")) == ["a'b"]
  {
    var text := ['\'', 'a', '\'', '\'', 'b', '\''];
    assert Doubled("a") == "a" && Doubled("b") == "b";
    assert Listing([("", "b")], "") == "'b'";
    assert Listing([("", "a"), ("", "b")], "") == text;
    LiteralBodyReads("a'b", "");
    assert Doubled("'b") == "''b";
    assert text[1..] == Doubled("a'b") + [QUOTE] + "";
    assert FindAll(text) == [Doubled("a'b")] + FindAll("");
    UnescapeDoubled("a'b");
    assert Map(Unescape, [Doubled("a'b")]) == ["a'b"];
    DedupIdentity(["a'b"]);
  }
}
