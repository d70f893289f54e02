/**
 What the merged header list and query list of a request are, said without loops: one entry per name, carrying
 the first spelling and either the first value or all non-empty values joined by commas.
 */
module HeaderSpec {
  import opened Metadata

  /** `::tolower` in the C locale. */
  function LowerChar(ch: char): char {
    if 'A' <= ch <= 'Z' then ch - 'A' + 'a' else ch
  }

  function Lower(s: string): (r: string)
    ensures |r| == |s|
  {
    seq(|s|, i requires 0 <= i < |s| => LowerChar(s[i]))
  }

  const DISCARD_DUPLICATES: set<string> := {
    "age", "authorization", "content-length", "content-type", "etag", "expires",
    "from", "host", "if-modified-since", "if-unmodified-since", "last-modified", "location",
    "max-forwards", "proxy-authorization", "referer", "retry-after", "user-agent"
  }

  // ----- joining values -----

  function AppendWithComma(str: string, tail: string): string {
    if str == "" then tail else if tail == "" then str else str + "," + tail
  }

  /** Joining is associative with the empty string as identity. */
  lemma AppendWithCommaAssociative(a: string, b: string, c: string)
    ensures AppendWithComma(AppendWithComma(a, b), c) == AppendWithComma(a, AppendWithComma(b, c))
    ensures AppendWithComma("", a) == a && AppendWithComma(a, "") == a
  {
  }

  function NonEmpty(values: seq<string>): seq<string> {
    if values == [] then []
    else if values[0] == "" then NonEmpty(values[1..])
    else [values[0]] + NonEmpty(values[1..])
  }

  /** The values with `sep` between each two. */
  function Separated(sep: string, values: seq<string>): string {
    if values == [] then "" else if |values| == 1 then values[0] else values[0] + sep + Separated(sep, values[1..])
  }

  /** The non-empty values separated by single commas. */
  function Joined(values: seq<string>): string {
    Separated(",", NonEmpty(values))
  }

  lemma {:induction false} SeparatedNonEmpty(values: seq<string>)
    ensures NonEmpty(values) == [] <==> Joined(values) == ""
  {
    if values != [] {
      SeparatedNonEmpty(values[1..]);
      if values[0] != "" {
        var rest := NonEmpty(values[1..]);
        assert ([values[0]] + rest)[1..] == rest;
      }
    }
  }

  lemma {:induction false} JoinedSplit(a: seq<string>, b: seq<string>)
    ensures Joined(a + b) == AppendWithComma(Joined(a), Joined(b))
  {
    SeparatedNonEmpty(b);
    if a == [] {
      assert a + b == b;
    } else {
      JoinedSplit(a[1..], b);
      SeparatedNonEmpty(a[1..]);
      SeparatedNonEmpty(a[1..] + b);
      assert (a + b)[0] == a[0] && (a + b)[1..] == a[1..] + b;
      if a[0] != "" {
        JoinedCons(a[0], NonEmpty(a[1..]));
        JoinedCons(a[0], NonEmpty(a[1..] + b));
        AppendWithCommaAssociative(a[0], Joined(a[1..]), Joined(b));
        SeparatedNonEmpty(a);
      }
    }
  }

  lemma JoinedCons(x: string, rest: seq<string>)
    requires x != "" && (rest == [] <==> Separated(",", rest) == "")
    ensures Separated(",", [x] + rest) == AppendWithComma(x, Separated(",", rest))
  {
  }

  lemma JoinedSnoc(values: seq<string>, v: string)
    ensures Joined(values + [v]) == AppendWithComma(Joined(values), v)
    ensures Joined([v]) == v
  {
    JoinedSplit(values, [v]);
    assert [v][1..] == [];
    assert NonEmpty([v]) == if v == "" then [] else [v];
  }

  // ----- merging -----

  /** The entries whose key is `key`, in order. `fold` is whether keys ignore case. */
  function KeyOf(fold: bool, name: string): string {
    if fold then Lower(name) else name
  }

  function Matching(fold: bool, hs: seq<Header>, key: string): seq<Header>
    decreases |hs|
  {
    if hs == [] then []
    else
      var before, last := Matching(fold, hs[..|hs| - 1], key), hs[|hs| - 1];
      if KeyOf(fold, last.name) == key then before + [last] else before
  }

  function Values(hs: seq<Header>): (vs: seq<string>)
    ensures |vs| == |hs|
  {
    seq(|hs|, i requires 0 <= i < |hs| => hs[i].value)
  }

  /** The entries with one key, as one: first spelling, and the first value or all of them. */
  function Merged(entries: seq<Header>, keepFirst: bool): Header
    requires entries != []
  {
    Header(entries[0].name, if keepFirst then entries[0].value else Joined(Values(entries)))
  }

  function KeepFirst(fold: bool, key: string): bool {
    fold && key in DISCARD_DUPLICATES
  }

  /** `h` is the merged entry of its key in `hs`. */
  predicate IsMerged(fold: bool, hs: seq<Header>, h: Header) {
    var key := KeyOf(fold, h.name);
    Matching(fold, hs, key) != [] && h == Merged(Matching(fold, hs, key), KeepFirst(fold, key))
  }

  // ----- order -----

  /** `<` on `std::string`. */
  predicate Less(a: string, b: string) {
    if b == "" then false
    else if a == "" then true
    else a[0] < b[0] || (a[0] == b[0] && Less(a[1..], b[1..]))
  }

  lemma {:induction false} LessTotal(a: string, b: string)
    ensures a == b || Less(a, b) || Less(b, a)
    ensures !(Less(a, b) && Less(b, a))
    decreases |a|
  {
    if a != "" && b != "" {
      LessTotal(a[1..], b[1..]);
      assert a == [a[0]] + a[1..] && b == [b[0]] + b[1..];
    }
  }

  lemma {:induction false} LessTransitive(a: string, b: string, c: string)
    requires Less(a, b) && Less(b, c)
    ensures Less(a, c)
    decreases |a|
  {
    if a != "" && a[0] == b[0] && b[0] == c[0] {
      LessTransitive(a[1..], b[1..], c[1..]);
    }
  }

  predicate StrictlySorted(hs: seq<Header>) {
    forall i, j | 0 <= i < j < |hs| :: Less(hs[i].name, hs[j].name)
  }

  /** The list of merged headers: exactly the merged entries, in order of name. */
  ghost predicate IsHeaderList(hs: seq<Header>, res: seq<Header>) {
    StrictlySorted(res) && forall h: Header :: h in res <==> IsMerged(true, hs, h)
  }

  /** The list of merged queries: exactly the merged entries, each once, in no particular order. */
  ghost predicate IsQueryList(hs: seq<Header>, res: seq<Header>) {
    (forall i, j | 0 <= i < j < |res| :: res[i].name != res[j].name)
    && forall h: Header :: h in res <==> IsMerged(false, hs, h)
  }

  // ----- the list is determined -----

  lemma SortedTail(hs: seq<Header>)
    requires hs != [] && StrictlySorted(hs)
    ensures StrictlySorted(hs[1..]) && hs[0] !in hs[1..]
    ensures forall h | h in hs[1..] :: Less(hs[0].name, h.name)
  {
    LessTotal(hs[0].name, hs[0].name);
  }

  /** Sorted lists with the same members are the same list. */
  lemma {:induction false} SortedUnique(a: seq<Header>, b: seq<Header>)
    requires StrictlySorted(a) && StrictlySorted(b)
    requires forall h: Header :: h in a <==> h in b
    ensures a == b
    decreases |a|
  {
    assert a != [] ==> a[0] in a && a[0] in b;
    assert b != [] ==> b[0] in b && b[0] in a;
    if a != [] {
      SortedTail(a);
      SortedTail(b);
      LessTotal(a[0].name, b[0].name);
      assert a == [a[0]] + a[1..] && b == [b[0]] + b[1..];
      assert a[0] == b[0];
      forall h: Header ensures h in a[1..] <==> h in b[1..] {
        assert h in a <==> h == a[0] || h in a[1..];
        assert h in b <==> h == b[0] || h in b[1..];
      }
      SortedUnique(a[1..], b[1..]);
    }
  }

  /** The header list does not depend on how it was computed, the order of a hash map included. */
  lemma HeaderListUnique(hs: seq<Header>, a: seq<Header>, b: seq<Header>)
    requires IsHeaderList(hs, a) && IsHeaderList(hs, b)
    ensures a == b
  {
    SortedUnique(a, b);
  }

  lemma {:induction false} MatchingAppend(fold: bool, a: seq<Header>, b: seq<Header>, key: string)
    ensures Matching(fold, a + b, key) == Matching(fold, a, key) + Matching(fold, b, key)
    decreases |b|
  {
    if b == [] {
      assert a + b == a;
    } else {
      assert (a + b)[..|a + b| - 1] == a + b[..|b| - 1];
      MatchingAppend(fold, a, b[..|b| - 1], key);
    }
  }

  lemma MatchingSingle(fold: bool, h: Header, key: string)
    ensures Matching(fold, [h], key) == if KeyOf(fold, h.name) == key then [h] else []
  {
  }

  /** Exchanging two neighbouring lines with different names changes nothing. */
  lemma SwapKeepsHeaderList(before: seq<Header>, x: Header, y: Header, after: seq<Header>, res: seq<Header>)
    requires Lower(x.name) != Lower(y.name)
    ensures IsHeaderList(before + [x, y] + after, res) <==> IsHeaderList(before + [y, x] + after, res)
  {
    var a, b := before + [x, y] + after, before + [y, x] + after;
    forall key: string ensures Matching(true, a, key) == Matching(true, b, key) {
      MatchingAppend(true, before + [x, y], after, key);
      MatchingAppend(true, before + [y, x], after, key);
      MatchingAppend(true, before, [x, y], key);
      MatchingAppend(true, before, [y, x], key);
      assert [x, y] == [x] + [y] && [y, x] == [y] + [x];
      MatchingAppend(true, [x], [y], key);
      MatchingAppend(true, [y], [x], key);
      MatchingSingle(true, x, key);
      MatchingSingle(true, y, key);
    }
    forall h: Header ensures IsMerged(true, a, h) <==> IsMerged(true, b, h) {
    }
  }

  lemma {:induction false} MatchingMembers(fold: bool, hs: seq<Header>, key: string)
    ensures forall h: Header :: h in Matching(fold, hs, key) <==> h in hs && KeyOf(fold, h.name) == key
    decreases |hs|
  {
    if hs != [] {
      MatchingMembers(fold, hs[..|hs| - 1], key);
      assert hs == hs[..|hs| - 1] + [hs[|hs| - 1]];
    }
  }

  lemma {:induction false} NoneMatching(fold: bool, hs: seq<Header>, key: string)
    requires forall i | 0 <= i < |hs| :: KeyOf(fold, hs[i].name) != key
    ensures Matching(fold, hs, key) == []
    decreases |hs|
  {
    if hs != [] {
      NoneMatching(fold, hs[..|hs| - 1], key);
    }
  }

  lemma MatchingMiddle(fold: bool, a: seq<Header>, h: Header, b: seq<Header>)
    requires Matching(fold, a, KeyOf(fold, h.name)) == [] && Matching(fold, b, KeyOf(fold, h.name)) == []
    ensures Matching(fold, a + [h] + b, KeyOf(fold, h.name)) == [h]
  {
    MatchingAppend(fold, a + [h], b, KeyOf(fold, h.name));
    MatchingAppend(fold, a, [h], KeyOf(fold, h.name));
    MatchingSingle(fold, h, KeyOf(fold, h.name));
  }

  lemma MatchingDistinct(fold: bool, hs: seq<Header>, k: nat)
    requires k < |hs| && forall i, j | 0 <= i < j < |hs| :: KeyOf(fold, hs[i].name) != KeyOf(fold, hs[j].name)
    ensures Matching(fold, hs, KeyOf(fold, hs[k].name)) == [hs[k]]
  {
    var key := KeyOf(fold, hs[k].name);
    NoneMatching(fold, hs[..k], key);
    NoneMatching(fold, hs[k + 1..], key);
    MatchingMiddle(fold, hs[..k], hs[k], hs[k + 1..]);
    assert hs == hs[..k] + [hs[k]] + hs[k + 1..];
  }

  /** Members of a header list have different keys. */
  lemma HeaderListKeys(hs: seq<Header>, res: seq<Header>, i: nat, j: nat)
    requires IsHeaderList(hs, res) && i < j < |res|
    ensures Lower(res[i].name) != Lower(res[j].name)
  {
    assert res[i] in res && res[j] in res;
    assert IsMerged(true, hs, res[i]) && IsMerged(true, hs, res[j]);
    LessTotal(res[i].name, res[i].name);
  }

  /** Merging is idempotent: a merged list, taken as input, is its own merged list. */
  lemma HeaderListIsFixed(hs: seq<Header>, res: seq<Header>)
    requires IsHeaderList(hs, res)
    ensures IsHeaderList(res, res)
  {
    forall i, j | 0 <= i < j < |res| ensures KeyOf(true, res[i].name) != KeyOf(true, res[j].name) {
      HeaderListKeys(hs, res, i, j);
    }
    forall h: Header ensures h in res <==> IsMerged(true, res, h) {
      var key := KeyOf(true, h.name);
      if h in res {
        var k :| 0 <= k < |res| && res[k] == h;
        MatchingDistinct(true, res, k);
        assert Values([h]) == [h.value];
        JoinedSnoc([], h.value);
      }
      if IsMerged(true, res, h) {
        MatchingMembers(true, res, key);
        var first := Matching(true, res, key)[0];
        assert first in Matching(true, res, key);
        var k :| 0 <= k < |res| && res[k] == first;
        MatchingDistinct(true, res, k);
        assert Values([first]) == [first.value];
        JoinedSnoc([], first.value);
      }
    }
  }

  lemma JoinTwo(sep: string, a: string, b: string)
    requires a != "" && b != ""
    ensures Separated(sep, NonEmpty([a, b])) == a + sep + b
  {
    assert [a, b][1..] == [b] && [b][1..] == [];
    assert NonEmpty([b]) == [b] && NonEmpty([a, b]) == [a, b];
    assert Separated(sep, [b]) == b;
  }

  lemma MatchingTwo(fold: bool, x: Header, y: Header)
    requires KeyOf(fold, x.name) == KeyOf(fold, y.name)
    ensures Matching(fold, [x, y], KeyOf(fold, x.name)) == [x, y]
  {
    assert [x, y] == [x] + [y];
    MatchingAppend(fold, [x], [y], KeyOf(fold, x.name));
    MatchingSingle(fold, x, KeyOf(fold, x.name));
    MatchingSingle(fold, y, KeyOf(fold, x.name));
  }

  // ----- what the comment above the source's loop promises -----

  /** The values of all lines with one key that have any, joined by a comma and a space. */
  function Documented(hs: seq<Header>, key: string): string {
    Separated(", ", NonEmptyValues(hs, key))
  }

  function NonEmptyValues(hs: seq<Header>, key: string): seq<string> {
    NonEmpty(Values(Matching(true, hs, key)))
  }

  lemma {:induction false} SpacesCount(values: seq<string>)
    requires values != []
    ensures |Separated(", ", values)| == |Separated(",", values)| + |values| - 1
  {
    if |values| > 1 {
      SpacesCount(values[1..]);
    }
  }

  /** For every list of lines and every merged header outside the 17 names: its value is the documented one if and
      only if at most one of its lines has a value. */
  lemma DocumentedIff(hs: seq<Header>, h: Header)
    requires IsMerged(true, hs, h) && Lower(h.name) !in DISCARD_DUPLICATES
    ensures h.value == Documented(hs, Lower(h.name)) <==> |NonEmptyValues(hs, Lower(h.name))| <= 1
  {
    var values := NonEmptyValues(hs, Lower(h.name));
    if values != [] {
      SpacesCount(values);
    }
  }

  /** So the whole list is as documented if and only if no such name has two lines with a value. */
  lemma DocumentedListIff(hs: seq<Header>, res: seq<Header>)
    requires IsHeaderList(hs, res)
    ensures (forall h | h in res && Lower(h.name) !in DISCARD_DUPLICATES :: h.value == Documented(hs, Lower(h.name)))
            <==> forall h | h in res && Lower(h.name) !in DISCARD_DUPLICATES ::
                   |NonEmptyValues(hs, Lower(h.name))| <= 1
  {
    forall h | h in res && Lower(h.name) !in DISCARD_DUPLICATES
      ensures h.value == Documented(hs, Lower(h.name)) <==> |NonEmptyValues(hs, Lower(h.name))| <= 1
    {
      DocumentedIff(hs, h);
    }
  }

  /** A request whose list is not as documented: two lines of one name. The values are joined by a bare comma. */
  lemma JoinedByBareComma(name: string, a: string, b: string)
    requires a != "" && b != "" && Lower(name) !in DISCARD_DUPLICATES
    ensures IsMerged(true, [Header(name, a), Header(name, b)], Header(name, a + "," + b))
    ensures !IsMerged(true, [Header(name, a), Header(name, b)], Header(name, a + ", " + b))
    ensures Documented([Header(name, a), Header(name, b)], Lower(name)) == a + ", " + b
  {
    var both := [Header(name, a), Header(name, b)];
    MatchingTwo(true, both[0], both[1]);
    assert Values(both) == [a, b];
    JoinTwo(",", a, b);
    JoinTwo(", ", a, b);
    var comment := a + ", " + b;
    assert |Joined([a, b])| == |a| + 1 + |b| && |comment| == |a| + 2 + |b|;
  }
}
