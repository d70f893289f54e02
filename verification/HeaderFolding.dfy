/** The loops that merge request headers and queries, over a map walked in an order nobody knows. */
module HeaderFolding {
  import opened Metadata
  import opened HeaderSpec

  /** The map holds the merged entry of every key seen, and nothing else. */
  ghost predicate MapOk(fold: bool, hs: seq<Header>, m: map<string, Header>) {
    forall key: string ::
      && (key in m <==> Matching(fold, hs, key) != [])
      && (key in m ==> m[key] == Merged(Matching(fold, hs, key), KeepFirst(fold, key)))
  }

  /** What one more line does to the map. */
  function Absorb(fold: bool, m: map<string, Header>, h: Header): map<string, Header> {
    var key := KeyOf(fold, h.name);
    if key !in m then m[key := h]
    else if KeepFirst(fold, key) then m
    else m[key := m[key].(value := AppendWithComma(m[key].value, h.value))]
  }

  lemma MergedSingle(h: Header, keepFirst: bool)
    ensures Merged([h], keepFirst) == h
  {
    assert Values([h]) == [h.value];
    JoinedSnoc([], h.value);
  }

  lemma MergedSnoc(entries: seq<Header>, h: Header, keepFirst: bool)
    requires entries != []
    ensures var merged := Merged(entries, keepFirst);
            Merged(entries + [h], keepFirst) ==
            if keepFirst then merged else merged.(value := AppendWithComma(merged.value, h.value))
  {
    assert Values(entries + [h]) == Values(entries) + [h.value];
    JoinedSnoc(Values(entries), h.value);
  }

  /** One more line with this key. */
  lemma AbsorbKey(fold: bool, hs: seq<Header>, m: map<string, Header>, h: Header)
    requires MapOk(fold, hs, m)
    ensures var key := KeyOf(fold, h.name);
            Matching(fold, hs + [h], key) != [] && key in Absorb(fold, m, h)
            && Absorb(fold, m, h)[key] == Merged(Matching(fold, hs + [h], key), KeepFirst(fold, key))
  {
    var key := KeyOf(fold, h.name);
    var entries := Matching(fold, hs, key);
    assert key in m <==> entries != [];
    assert Matching(fold, hs + [h], key) == entries + [h] by {
      MatchingAppend(fold, hs, [h], key);
      MatchingSingle(fold, h, key);
    }
    if entries == [] {
      assert entries + [h] == [h];
      MergedSingle(h, KeepFirst(fold, key));
    } else {
      MergedSnoc(entries, h, KeepFirst(fold, key));
    }
  }

  lemma AbsorbOk(fold: bool, hs: seq<Header>, m: map<string, Header>, h: Header)
    requires MapOk(fold, hs, m)
    ensures MapOk(fold, hs + [h], Absorb(fold, m, h))
  {
    var m' := Absorb(fold, m, h);
    AbsorbKey(fold, hs, m, h);
    forall k: string
      ensures (k in m' <==> Matching(fold, hs + [h], k) != [])
              && (k in m' ==> m'[k] == Merged(Matching(fold, hs + [h], k), KeepFirst(fold, k)))
    {
      if k != KeyOf(fold, h.name) {
        MatchingAppend(fold, hs, [h], k);
        MatchingSingle(fold, h, k);
        assert Matching(fold, hs, k) + [] == Matching(fold, hs, k);
        assert k in m <==> Matching(fold, hs, k) != [];
      }
    }
  }

  /** Members of a good map carry their own keys. */
  lemma MapKeys(fold: bool, hs: seq<Header>, m: map<string, Header>, key: string)
    requires MapOk(fold, hs, m) && key in m
    ensures KeyOf(fold, m[key].name) == key
  {
    MatchingMembers(fold, hs, key);
    assert Matching(fold, hs, key)[0] in Matching(fold, hs, key);
  }

  lemma MapMembers(fold: bool, hs: seq<Header>, m: map<string, Header>, h: Header)
    requires MapOk(fold, hs, m)
    ensures IsMerged(fold, hs, h) <==> KeyOf(fold, h.name) in m && m[KeyOf(fold, h.name)] == h
  {
  }

  predicate DistinctNames(hs: seq<Header>) {
    forall i, j | 0 <= i < j < |hs| :: hs[i].name != hs[j].name
  }

  /** Walks the map in any order. */
  method Collect(fold: bool, ghost hs: seq<Header>, m: map<string, Header>) returns (res: seq<Header>)
    requires MapOk(fold, hs, m)
    ensures DistinctNames(res)
    ensures forall h: Header :: h in res <==> IsMerged(fold, hs, h)
  {
    var keys := m.Keys;
    res := [];
    while keys != {}
      invariant keys <= m.Keys
      invariant forall h: Header :: h in res <==>
                  KeyOf(fold, h.name) in m.Keys - keys && m[KeyOf(fold, h.name)] == h
      invariant DistinctNames(res)
      decreases keys
    {
      var key :| key in keys;
      MapKeys(fold, hs, m, key);
      forall h: Header ensures h in res + [m[key]] <==>
          KeyOf(fold, h.name) in m.Keys - (keys - {key}) && m[KeyOf(fold, h.name)] == h
      {
      }
      forall i | 0 <= i < |res| ensures res[i].name != m[key].name { assert res[i] in res; }
      res := res + [m[key]];
      keys := keys - {key};
    }
    forall h: Header ensures h in res <==> IsMerged(fold, hs, h) {
      MapMembers(fold, hs, m, h);
    }
  }

  lemma InsertKeepsSorted(res: seq<Header>, p: nat, x: Header)
    requires p <= |res| && StrictlySorted(res)
    requires forall i | 0 <= i < p :: Less(res[i].name, x.name)
    requires p < |res| ==> !Less(res[p].name, x.name) && res[p].name != x.name
    ensures StrictlySorted(res[..p] + [x] + res[p..])
  {
    var r := res[..p] + [x] + res[p..];
    if p < |res| { LessTotal(res[p].name, x.name); }
    forall i, j | 0 <= i < j < |r| ensures Less(r[i].name, r[j].name) {
      if i < p && j > p {
        assert r[i] == res[i] && r[j] == res[j - 1];
      } else if i == p {
        assert r[j] == res[j - 1];
        if j - 1 > p { LessTransitive(x.name, res[p].name, res[j - 1].name); }
      } else if i > p {
        assert r[i] == res[i - 1] && r[j] == res[j - 1];
      }
    }
  }

  /** Puts one entry in its place. */
  method Insert(sorted: seq<Header>, x: Header) returns (res: seq<Header>)
    requires StrictlySorted(sorted) && forall i | 0 <= i < |sorted| :: sorted[i].name != x.name
    ensures StrictlySorted(res) && multiset(res) == multiset(sorted) + multiset{x}
  {
    var p := 0;
    while p < |sorted| && Less(sorted[p].name, x.name)
      invariant p <= |sorted| && forall q | 0 <= q < p :: Less(sorted[q].name, x.name)
    {
      p := p + 1;
    }
    InsertKeepsSorted(sorted, p, x);
    assert sorted == sorted[..p] + sorted[p..];
    res := sorted[..p] + [x] + sorted[p..];
  }

  /** Sorts by name. */
  method SortByName(hs: seq<Header>) returns (res: seq<Header>)
    requires DistinctNames(hs)
    ensures StrictlySorted(res) && multiset(res) == multiset(hs)
  {
    res := [];
    for i := 0 to |hs|
      invariant StrictlySorted(res) && multiset(res) == multiset(hs[..i])
    {
      forall j | 0 <= j < |res| ensures res[j].name != hs[i].name {
        assert res[j] in multiset(res);
        assert res[j] in hs[..i];
      }
      assert hs[..i + 1] == hs[..i] + [hs[i]];
      res := Insert(res, hs[i]);
    }
    assert hs[..|hs|] == hs;
  }

  /** The headers of a request, merged and sorted: the one list the specification allows, whatever the map's order. */
  method GetRequestHeaders(headers: seq<Header>) returns (res: seq<Header>)
    ensures IsHeaderList(headers, res)
  {
    var m: map<string, Header> := map[];
    for i := 0 to |headers|
      invariant MapOk(true, headers[..i], m)
    {
      var en := headers[i];
      var key := Lower(en.name);
      AbsorbOk(true, headers[..i], m, en);
      assert headers[..i + 1] == headers[..i] + [en];
      if key !in m {
        m := m[key := en];
      } else if key !in DISCARD_DUPLICATES {
        m := m[key := m[key].(value := AppendWithComma(m[key].value, en.value))];
      }
    }
    assert headers[..|headers|] == headers;
    var unordered := Collect(true, headers, m);
    res := SortByName(unordered);
    forall h: Header ensures h in res <==> IsMerged(true, headers, h) {
      assert h in res <==> h in multiset(res);
      assert h in unordered <==> h in multiset(unordered);
    }
  }

  /** The queries of a request, merged case-sensitively, in any order. */
  method GetQueries(queries: seq<Header>) returns (res: seq<Header>)
    ensures IsQueryList(queries, res)
  {
    var m: map<string, Header> := map[];
    for i := 0 to |queries|
      invariant MapOk(false, queries[..i], m)
    {
      var en := queries[i];
      AbsorbOk(false, queries[..i], m, en);
      assert queries[..i + 1] == queries[..i] + [en];
      if en.name !in m {
        m := m[en.name := en];
      } else {
        m := m[en.name := m[en.name].(value := AppendWithComma(m[en.name].value, en.value))];
      }
    }
    assert queries[..|queries|] == queries;
    res := Collect(false, queries, m);
  }
}
