/**
 What merging means in terms of the names themselves, letter by letter: without lower-casing, keys or a map. It says
 which lines of a request make which header or query, and in what order headers come.
 */
module HeaderNames {
  import opened Metadata
  import opened HeaderSpec

  // ----- letters and names -----

  predicate IsCapital(ch: char) {
    65 <= ch as int <= 90
  }

  /** `upper` is the capital of `lower`: in ASCII, 32 before it. */
  predicate IsCaseOf(upper: char, lower: char) {
    IsCapital(upper) && lower as int == upper as int + 32
  }

  predicate SameLetter(a: char, b: char) {
    a == b || IsCaseOf(a, b) || IsCaseOf(b, a)
  }

  /** Names that differ at most in the case of letters. */
  predicate SameName(a: string, b: string) {
    |a| == |b| && forall i | 0 <= i < |a| :: SameLetter(a[i], b[i])
  }

  /** Lower-casing leaves everything but capitals, turns those into their small letters, and does nothing twice. */
  lemma LowerIsLower(s: string)
    ensures |Lower(s)| == |s|
    ensures forall i | 0 <= i < |s| :: if IsCapital(s[i]) then IsCaseOf(s[i], Lower(s)[i]) else Lower(s)[i] == s[i]
    ensures forall i | 0 <= i < |s| :: !IsCapital(Lower(s)[i])
    ensures Lower(Lower(s)) == Lower(s)
  {
    assert forall i | 0 <= i < |s| :: Lower(Lower(s))[i] == Lower(s)[i];
  }

  /** Two names are lower-cased alike if and only if they differ only in case. */
  lemma LowerIff(a: string, b: string)
    ensures Lower(a) == Lower(b) <==> SameName(a, b)
  {
    LowerIsLower(a);
    LowerIsLower(b);
    if Lower(a) == Lower(b) {
      forall i | 0 <= i < |a| ensures SameLetter(a[i], b[i]) {
        assert Lower(a)[i] == Lower(b)[i];
      }
    }
    if SameName(a, b) {
      assert forall i | 0 <= i < |a| :: SameLetter(a[i], b[i]) && Lower(a)[i] == Lower(b)[i];
    }
  }

  /** The names of which only the first line counts are these 17. */
  lemma DiscardedNames(key: string)
    ensures key in DISCARD_DUPLICATES <==>
              || key == "age" || key == "authorization" || key == "content-length" || key == "content-type"
              || key == "etag" || key == "expires" || key == "from" || key == "host" || key == "if-modified-since"
              || key == "if-unmodified-since" || key == "last-modified" || key == "location"
              || key == "max-forwards" || key == "proxy-authorization" || key == "referer" || key == "retry-after"
              || key == "user-agent"
  {
  }

  // ----- order -----

  /** The first `k` characters agree, and then `a` ends or has the smaller character. */
  predicate ComesBeforeAt(a: string, b: string, k: nat) {
    && k <= |a| && k < |b| && a[..k] == b[..k]
    && (k == |a| || a[k] as int < b[k] as int)
  }

  /** A name comes first if it is a proper prefix or smaller at the first difference. */
  lemma {:induction false} LessIff(a: string, b: string)
    ensures Less(a, b) <==> exists k: nat :: ComesBeforeAt(a, b, k)
    decreases |a|
  {
    if a == "" && b != "" {
      assert ComesBeforeAt(a, b, 0);
    } else if a != "" && b != "" {
      LessIff(a[1..], b[1..]);
      if Less(a, b) && a[0] == b[0] {
        var k: nat :| ComesBeforeAt(a[1..], b[1..], k);
        assert a[..k + 1] == [a[0]] + a[1..][..k] && b[..k + 1] == [b[0]] + b[1..][..k];
        assert ComesBeforeAt(a, b, k + 1);
      } else if Less(a, b) {
        assert ComesBeforeAt(a, b, 0);
      }
      if k: nat :| ComesBeforeAt(a, b, k) {
        ComesBeforeCons(a, b, k);
      }
    }
  }

  lemma ComesBeforeCons(a: string, b: string, k: nat)
    requires a != "" && b != "" && ComesBeforeAt(a, b, k)
    ensures a[0] as int < b[0] as int || (a[0] == b[0] && k > 0 && ComesBeforeAt(a[1..], b[1..], k - 1))
  {
    if k > 0 {
      assert a[..k][0] == b[..k][0];
      assert a[1..][..k - 1] == a[..k][1..] && b[1..][..k - 1] == b[..k][1..];
    }
  }

  /** Headers are listed in that order. */
  lemma ListIsOrdered(hs: seq<Header>, res: seq<Header>, i: nat, j: nat)
    requires IsHeaderList(hs, res) && i < j < |res|
    ensures exists k: nat :: ComesBeforeAt(res[i].name, res[j].name, k)
  {
    LessIff(res[i].name, res[j].name);
  }

  // ----- which lines make which header -----

  /** The lines with this name in any spelling, in order. */
  function LinesNamed(hs: seq<Header>, name: string): seq<Header> {
    if hs == [] then []
    else (if SameName(hs[0].name, name) then [hs[0]] else []) + LinesNamed(hs[1..], name)
  }

  /** The queries with exactly this name, in order. */
  function QueriesNamed(qs: seq<Header>, name: string): seq<Header> {
    if qs == [] then []
    else (if qs[0].name == name then [qs[0]] else []) + QueriesNamed(qs[1..], name)
  }

  lemma {:induction false} MatchingIsLines(hs: seq<Header>, name: string)
    ensures Matching(true, hs, Lower(name)) == LinesNamed(hs, name)
  {
    if hs != [] {
      MatchingIsLines(hs[1..], name);
      MatchingAppend(true, [hs[0]], hs[1..], Lower(name));
      MatchingSingle(true, hs[0], Lower(name));
      LowerIff(hs[0].name, name);
      assert hs == [hs[0]] + hs[1..];
    }
  }

  lemma {:induction false} MatchingIsQueries(qs: seq<Header>, name: string)
    ensures Matching(false, qs, name) == QueriesNamed(qs, name)
  {
    if qs != [] {
      MatchingIsQueries(qs[1..], name);
      MatchingAppend(false, [qs[0]], qs[1..], name);
      MatchingSingle(false, qs[0], name);
      assert qs == [qs[0]] + qs[1..];
    }
  }

  /** The values of these lines one after another, each appended with a comma. */
  function Collected(lines: seq<Header>): string {
    if lines == [] then "" else AppendWithComma(Collected(lines[..|lines| - 1]), lines[|lines| - 1].value)
  }

  lemma {:induction false} JoinedIsCollected(lines: seq<Header>)
    ensures Joined(Values(lines)) == Collected(lines)
    decreases |lines|
  {
    if lines == [] {
      assert Values(lines) == [];
    } else {
      var front, last := lines[..|lines| - 1], lines[|lines| - 1];
      JoinedIsCollected(front);
      JoinedSnoc(Values(front), last.value);
      assert Values(lines) == Values(front) + [last.value];
    }
  }

  /** A header of this request: the first spelling of a name some line has, with the first value for the 17 names and
      all values otherwise. */
  predicate IsHeaderOf(hs: seq<Header>, h: Header) {
    var lines := LinesNamed(hs, h.name);
    && lines != [] && h.name == lines[0].name
    && h.value == if Lower(h.name) in DISCARD_DUPLICATES then lines[0].value else Collected(lines)
  }

  lemma HeadersAreLines(hs: seq<Header>, res: seq<Header>)
    requires IsHeaderList(hs, res)
    ensures forall h: Header :: h in res <==> IsHeaderOf(hs, h)
  {
    forall h: Header ensures h in res <==> IsHeaderOf(hs, h) {
      MatchingIsLines(hs, h.name);
      JoinedIsCollected(LinesNamed(hs, h.name));
    }
  }

  /** The header list is made of exactly these, and never has two spellings of one name. */
  lemma HeadersByName(hs: seq<Header>, res: seq<Header>)
    requires IsHeaderList(hs, res)
    ensures forall h: Header :: h in res <==> IsHeaderOf(hs, h)
    ensures forall i, j | 0 <= i < j < |res| :: !SameName(res[i].name, res[j].name)
  {
    HeadersAreLines(hs, res);
    forall i, j | 0 <= i < j < |res| ensures !SameName(res[i].name, res[j].name) {
      HeaderListKeys(hs, res, i, j);
      LowerIff(res[i].name, res[j].name);
    }
  }

  /** Every line of the request is in exactly one header, under a spelling of its own name. */
  lemma EveryLineHasAHeader(hs: seq<Header>, res: seq<Header>, k: nat)
    requires IsHeaderList(hs, res) && k < |hs|
    ensures exists i :: 0 <= i < |res| && SameName(res[i].name, hs[k].name)
                        && forall j | 0 <= j < |res| && SameName(res[j].name, hs[k].name) :: j == i
  {
    HeadersByName(hs, res);
    var key := Lower(hs[k].name);
    MatchingMembers(true, hs, key);
    assert hs[k] in Matching(true, hs, key);
    var h := Merged(Matching(true, hs, key), KeepFirst(true, key));
    assert Matching(true, hs, key)[0] in Matching(true, hs, key);
    assert IsMerged(true, hs, h);
    var i :| 0 <= i < |res| && res[i] == h;
    LowerIff(res[i].name, hs[k].name);
    forall j | 0 <= j < |res| && SameName(res[j].name, hs[k].name) ensures j == i {
      LowerIff(res[j].name, hs[k].name);
      LowerIff(res[i].name, res[j].name);
      LowerIff(res[j].name, res[i].name);
    }
  }

  /** The query list is made of exactly one query per name, case and all, with all its values: none is discarded. */
  lemma QueriesByName(qs: seq<Header>, res: seq<Header>)
    requires IsQueryList(qs, res)
    ensures forall q: Header :: q in res <==>
              QueriesNamed(qs, q.name) != [] && q.value == Collected(QueriesNamed(qs, q.name))
  {
    forall q: Header ensures q in res <==>
        QueriesNamed(qs, q.name) != [] && q.value == Collected(QueriesNamed(qs, q.name))
    {
      MatchingIsQueries(qs, q.name);
      JoinedIsCollected(QueriesNamed(qs, q.name));
      MatchingMembers(false, qs, q.name);
      if QueriesNamed(qs, q.name) != [] {
        assert QueriesNamed(qs, q.name)[0] in Matching(false, qs, q.name);
      }
    }
  }

  // ----- examples -----

  lemma CollectedTwo(x: Header, y: Header)
    ensures Collected([x]) == x.value && Collected([x, y]) == AppendWithComma(x.value, y.value)
  {
    assert [x][..0] == [] && Collected([]) == "";
    assert [x, y][..1] == [x];
  }

  lemma TwoLines(x: Header, y: Header, h: Header)
    requires SameName(y.name, x.name)
    ensures IsHeaderOf([x, y], h) <==>
              h == Header(x.name, if Lower(x.name) in DISCARD_DUPLICATES then x.value
                                  else AppendWithComma(x.value, y.value))
  {
    CollectedTwo(x, y);
    LowerIff(x.name, h.name);
    LowerIff(y.name, h.name);
    LowerIff(y.name, x.name);
    assert [x, y][1..] == [y] && [y][1..] == [];
    assert LinesNamed([y], h.name) == if SameName(y.name, h.name) then [y] else [];
    assert LinesNamed([x, y], h.name) == if SameName(x.name, h.name) then [x, y] else [];
  }

  /** Two lines of one name in any two spellings make exactly one header, under the first. */
  lemma TwoSpellings(x: Header, y: Header, res: seq<Header>)
    requires SameName(y.name, x.name) && IsHeaderList([x, y], res)
    ensures res == [Header(x.name, if Lower(x.name) in DISCARD_DUPLICATES then x.value
                                   else AppendWithComma(x.value, y.value))]
  {
    var h := Header(x.name, if Lower(x.name) in DISCARD_DUPLICATES then x.value
                            else AppendWithComma(x.value, y.value));
    TwoLines(x, y, h);
    HeadersAreLines([x, y], res);
    assert h in res;
    forall g | g in res ensures g == h { TwoLines(x, y, g); }
    OnlyMember([x, y], res, h);
  }

  lemma OnlyMember(hs: seq<Header>, res: seq<Header>, h: Header)
    requires IsHeaderList(hs, res) && h in res && forall g | g in res :: g == h
    ensures res == [h]
  {
    assert forall i | 0 <= i < |res| :: res[i] in res;
    if |res| > 1 {
      HeaderListKeys(hs, res, 0, 1);
    }
  }

  lemma AcceptTwice(res: seq<Header>)
    requires IsHeaderList([Header("Accept", "a"), Header("accept", "b")], res)
    ensures res == [Header("Accept", "a,b")]
  {
    assert Lower("Accept") == "accept" && "accept" !in DISCARD_DUPLICATES;
    assert AppendWithComma("a", "b") == "a,b";
    TwoSpellings(Header("Accept", "a"), Header("accept", "b"), res);
  }

  /** For one of the 17 names only the first line counts. */
  lemma HostTwice(res: seq<Header>)
    requires IsHeaderList([Header("Host", "a"), Header("HOST", "b")], res)
    ensures res == [Header("Host", "a")]
  {
    assert Lower("Host") == "host";
    TwoSpellings(Header("Host", "a"), Header("HOST", "b"), res);
  }

  lemma QueriesOfTwo(x: Header, y: Header, name: string)
    ensures QueriesNamed([x, y], name) ==
            if x.name == name && y.name == name then [x, y]
            else if x.name == name then [x] else if y.name == name then [y] else []
  {
    assert [x, y][1..] == [y] && [y][1..] == [];
    assert QueriesNamed([y], name) == if y.name == name then [y] else [];
  }

  /** Queries whose names differ only in case stay apart. */
  lemma QueriesStayApart(x: Header, y: Header, res: seq<Header>)
    requires IsQueryList([x, y], res) && x.name != y.name
    ensures x in res && y in res
  {
    QueriesByName([x, y], res);
    QueriesOfTwo(x, y, x.name);
    QueriesOfTwo(x, y, y.name);
    CollectedTwo(x, y);
    CollectedTwo(y, x);
  }

  /** A repeated query keeps both its values, whatever its name. */
  lemma QueriesKeepAll(x: Header, y: Header, res: seq<Header>)
    requires IsQueryList([x, y], res) && x.name == y.name
    ensures Header(x.name, AppendWithComma(x.value, y.value)) in res
  {
    QueriesByName([x, y], res);
    QueriesOfTwo(x, y, x.name);
    CollectedTwo(x, y);
  }
}
