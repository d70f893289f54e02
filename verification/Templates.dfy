/** The template cache, and the loading of partial templates. */
module Templates {
  import opened Common

  /** Text files by path. */
  type Texts = map<string, string>

  // ----- mustache_cache -----

  /** One lookup of a path, with the file system as it then is. */
  datatype Lookup = Lookup(path: string, files: Texts)

  /** `get`: the cached template, or a first read of the file. */
  function Look(cache: Texts, q: Lookup): (Texts, Option<string>) {
    if q.path in cache then (cache, Some(cache[q.path]))
    else if q.path in q.files then (cache[q.path := q.files[q.path]], Some(q.files[q.path]))
    else (cache, None)
  }

  class MustacheCache {
    var cache: Texts

    constructor ()
      ensures cache == map[]
    {
      cache := map[];
    }

    method Get(q: Lookup) returns (template: Option<string>)
      modifies this
      ensures (cache, template) == Look(old(cache), q)
    {
      if q.path in cache {
        template := Some(cache[q.path]);
      } else if q.path in q.files {
        cache := cache[q.path := q.files[q.path]];
        template := Some(cache[q.path]);
      } else {
        template := None;
      }
    }
  }

  /** The cache after a sequence of lookups. */
  function CacheAfter(lookups: seq<Lookup>): Texts
    decreases |lookups|
  {
    if lookups == [] then map[] else Look(CacheAfter(lookups[..|lookups| - 1]), lookups[|lookups| - 1]).0
  }

  /** What the first lookup of `path` that could read it found. */
  function FirstRead(lookups: seq<Lookup>, path: string): Option<string> {
    if lookups == [] then None
    else if lookups[0].path == path && path in lookups[0].files then Some(lookups[0].files[path])
    else FirstRead(lookups[1..], path)
  }

  lemma {:induction false} FirstReadSnoc(lookups: seq<Lookup>, q: Lookup, path: string)
    ensures FirstRead(lookups + [q], path) ==
            if FirstRead(lookups, path).Some? then FirstRead(lookups, path)
            else if q.path == path && path in q.files then Some(q.files[path])
            else None
  {
    if lookups == [] {
      assert [q][1..] == [];
      assert lookups + [q] == [q];
    } else {
      assert (lookups + [q])[1..] == lookups[1..] + [q];
      FirstReadSnoc(lookups[1..], q, path);
    }
  }

  lemma {:induction false} CacheHoldsFirstReads(lookups: seq<Lookup>, path: string)
    ensures var cache := CacheAfter(lookups);
            FirstRead(lookups, path) == if path in cache then Some(cache[path]) else None
    decreases |lookups|
  {
    if lookups != [] {
      var front, last := lookups[..|lookups| - 1], lookups[|lookups| - 1];
      CacheHoldsFirstReads(front, path);
      FirstReadSnoc(front, last, path);
      assert lookups == front + [last];
    }
  }

  /** In any run, whatever happens to the files, a lookup answers with the first successful read of its path up to and
      including itself, and fails only if there was none. */
  lemma LookupIsFirstRead(lookups: seq<Lookup>, q: Lookup)
    ensures Look(CacheAfter(lookups), q).1 == FirstRead(lookups + [q], q.path)
  {
    CacheHoldsFirstReads(lookups, q.path);
    FirstReadSnoc(lookups, q, q.path);
  }

  /** Entries are never changed nor dropped. */
  lemma {:induction false} CacheOnlyGrows(lookups: seq<Lookup>, n: nat, path: string)
    requires n <= |lookups| && path in CacheAfter(lookups[..n])
    ensures path in CacheAfter(lookups) && CacheAfter(lookups)[path] == CacheAfter(lookups[..n])[path]
    decreases |lookups|
  {
    if n < |lookups| {
      assert lookups[..|lookups| - 1][..n] == lookups[..n];
      CacheOnlyGrows(lookups[..|lookups| - 1], n, path);
    } else {
      assert lookups[..n] == lookups;
    }
  }

  /** When files do not change, the cache cannot be told from reading the file every time. */
  lemma {:induction false} CacheIsInvisible(lookups: seq<Lookup>, q: Lookup)
    requires forall i | 0 <= i < |lookups| :: lookups[i].files == q.files
    ensures Look(CacheAfter(lookups), q).1 == if q.path in q.files then Some(q.files[q.path]) else None
    decreases |lookups|
  {
    if lookups != [] {
      var front, last := lookups[..|lookups| - 1], lookups[|lookups| - 1];
      CacheIsInvisible(front, q);
      CacheIsInvisible(front, last);
    }
  }

  // ----- lists made from lists -----

  function FlatMap<A, B>(f: A -> seq<B>, xs: seq<A>): seq<B> {
    if xs == [] then [] else f(xs[0]) + FlatMap(f, xs[1..])
  }

  lemma FlatMapCons<A, B>(f: A -> seq<B>, x: A, xs: seq<A>)
    ensures FlatMap(f, [x] + xs) == f(x) + FlatMap(f, xs)
  {
    assert ([x] + xs)[1..] == xs;
  }

  lemma {:induction false} FlatMapAppend<A, B>(f: A -> seq<B>, a: seq<A>, b: seq<A>)
    ensures FlatMap(f, a + b) == FlatMap(f, a) + FlatMap(f, b)
  {
    if a == [] {
      assert a + b == b;
    } else {
      FlatMapAppend(f, a[1..], b);
      FlatMapCons(f, a[0], a[1..] + b);
      assert a + b == [a[0]] + (a[1..] + b);
      AppendAssociative(f(a[0]), FlatMap(f, a[1..]), FlatMap(f, b));
    }
  }

  lemma MoveToFront<T>(x: seq<T>, y: seq<T>, z: seq<T>)
    ensures multiset(x + (y + z)) == multiset(y) + multiset(x + z)
  {
  }

  /** Taking one element out from anywhere. */
  lemma FlatMapSplit<A, B>(f: A -> seq<B>, a: seq<A>, x: A, b: seq<A>)
    ensures multiset(FlatMap(f, a + ([x] + b))) == multiset(f(x)) + multiset(FlatMap(f, a + b))
  {
    FlatMapAppend(f, a, [x] + b);
    FlatMapCons(f, x, b);
    FlatMapAppend(f, a, b);
    MoveToFront(FlatMap(f, a), f(x), FlatMap(f, b));
  }

  lemma IndexIn<T>(xs: seq<T>, x: T) returns (i: nat)
    requires x in multiset(xs)
    ensures i < |xs| && xs[i] == x
  {
    i :| 0 <= i < |xs| && xs[i] == x;
  }

  lemma RemoveAt<T>(xs: seq<T>, i: nat)
    requires i < |xs|
    ensures multiset(xs[..i] + xs[i + 1..]) == multiset(xs) - multiset{xs[i]}
  {
    assert xs == xs[..i] + [xs[i]] + xs[i + 1..];
  }

  /** Two lists with the same members keep them when both lose the same one. */
  lemma RemoveSame<T>(a: seq<T>, b: seq<T>, i: nat)
    requires multiset(a) == multiset(b) && a != [] && i < |b| && b[i] == a[0]
    ensures multiset(a[1..]) == multiset(b[..i] + b[i + 1..])
  {
    RemoveAt(a, 0);
    RemoveAt(b, i);
    assert a[..0] + a[1..] == a[1..];
  }

  lemma {:induction false} FlatMapPermuted<A, B>(f: A -> seq<B>, a: seq<A>, b: seq<A>)
    requires multiset(a) == multiset(b)
    ensures multiset(FlatMap(f, a)) == multiset(FlatMap(f, b))
    decreases |a|
  {
    if a == [] {
      assert |multiset(b)| == 0;
    } else {
      assert a[0] in multiset(a);
      var i := IndexIn(b, a[0]);
      RemoveSame(a, b, i);
      FlatMapPermuted(f, a[1..], b[..i] + b[i + 1..]);
      FlatMapSplit(f, b[..i], b[i], b[i + 1..]);
      assert b == b[..i] + ([b[i]] + b[i + 1..]);
    }
  }

  // ----- load_partials -----

  datatype Entry = Entry(filename: string, content: string)

  const EXTENSION := ".mustache"

  predicate EndsWith(s: string, suffix: string) {
    |suffix| <= |s| && s[|s| - |suffix|..] == suffix
  }

  /** A file that is a template, by its name without extension. */
  function PartialOf(e: Entry): seq<(string, string)> {
    if EndsWith(e.filename, EXTENSION) then [(e.filename[..|e.filename| - |EXTENSION|], e.content)] else []
  }

  /** A file is a partial if and only if its name is something followed by `.mustache`; that something, which may be
      empty, is its name. */
  lemma PartialOfFile(e: Entry, base: string)
    ensures e.filename == base + ".mustache" ==> PartialOf(e) == [(base, e.content)]
    ensures PartialOf(e) != [] ==> |PartialOf(e)| == 1 && e.filename == PartialOf(e)[0].0 + ".mustache"
  {
    if e.filename == base + ".mustache" {
      assert e.filename[|e.filename| - 9..] == ".mustache";
      assert e.filename[..|e.filename| - 9] == base;
    }
    if PartialOf(e) != [] {
      assert e.filename == e.filename[..|e.filename| - 9] + e.filename[|e.filename| - 9..];
    }
  }

  /** The partials of a directory listing. */
  function Partials(dir: seq<Entry>): seq<(string, string)> {
    FlatMap(PartialOf, dir)
  }

  /** Those of all directories. */
  function AllPartials(dirs: seq<seq<Entry>>): seq<(string, string)> {
    Partials(Concat(dirs))
  }

  predicate DistinctNames(ps: seq<(string, string)>) {
    forall i, j | 0 <= i < j < |ps| :: ps[i].0 != ps[j].0
  }

  /** `m` holds exactly these partials. */
  ghost predicate Holds(m: map<string, string>, ps: seq<(string, string)>) {
    forall name, content :: (name in m && m[name] == content) <==> (name, content) in ps
  }

  /** Inserts the partials of one directory; stops at a name already there. */
  method LoadDirectory(dir: seq<Entry>, m: map<string, string>, ghost before: seq<(string, string)>)
    returns (m': map<string, string>, ok: bool)
    requires Holds(m, before) && DistinctNames(before)
    ensures ok <==> DistinctNames(before + Partials(dir))
    ensures ok ==> Holds(m', before + Partials(dir))
  {
    m', ok := m, true;
    var i := 0;
    ghost var seen := before;
    assert dir[0..] == dir;
    while i < |dir|
      invariant i <= |dir| && before + Partials(dir) == seen + Partials(dir[i..])
      invariant Holds(m', seen) && DistinctNames(seen)
    {
      var tf := dir[i];
      NextFile(dir, i, seen);
      if EndsWith(tf.filename, EXTENSION) {
        var name := tf.filename[..|tf.filename| - |EXTENSION|];
        var p := (name, tf.content);
        assert PartialOf(tf) == [p];
        if name in m' {
          DuplicateName(m', seen, p, Partials(dir[i + 1..]));
          return m', false;
        }
        InsertHolds(m', seen, p);
        m' := m'[name := tf.content];
        seen := seen + [p];
      } else {
        assert seen + [] == seen;
      }
      i := i + 1;
    }
    assert seen + [] == seen;
  }

  lemma NextFile(dir: seq<Entry>, i: nat, seen: seq<(string, string)>)
    requires i < |dir|
    ensures seen + Partials(dir[i..]) == (seen + PartialOf(dir[i])) + Partials(dir[i + 1..])
  {
    assert dir[i..] == [dir[i]] + dir[i + 1..];
    FlatMapCons(PartialOf, dir[i], dir[i + 1..]);
    AppendAssociative(seen, PartialOf(dir[i]), Partials(dir[i + 1..]));
  }

  lemma InsertHolds(m: map<string, string>, seen: seq<(string, string)>, p: (string, string))
    requires Holds(m, seen) && DistinctNames(seen) && p.0 !in m
    ensures Holds(m[p.0 := p.1], seen + [p]) && DistinctNames(seen + [p])
  {
    forall i | 0 <= i < |seen| ensures seen[i].0 != p.0 {
      assert (seen[i].0, seen[i].1) in seen;
    }
    var m' := m[p.0 := p.1];
    forall name, content ensures (name in m' && m'[name] == content) <==> (name, content) in seen + [p] {
      assert (name, content) in seen + [p] <==> (name, content) in seen || (name, content) == p;
      if (name, content) in seen {
        assert name in m && m[name] == content;
      }
    }
  }

  lemma DuplicateName(m: map<string, string>, seen: seq<(string, string)>, p: (string, string), rest: seq<(string,
      string)>)
    requires Holds(m, seen) && p.0 in m
    ensures !DistinctNames(seen + [p] + rest)
  {
    assert (p.0, m[p.0]) in seen;
    var i :| 0 <= i < |seen| && seen[i] == (p.0, m[p.0]);
    var all := seen + [p] + rest;
    assert all[i].0 == all[|seen|].0;
  }

  /** `load_partials`: succeeds exactly when all names in all directories are distinct, and then holds them all. */
  method LoadPartials(dirs: seq<seq<Entry>>) returns (res: Option<map<string, string>>)
    ensures res.Some? <==> DistinctNames(AllPartials(dirs))
    ensures res.Some? ==> Holds(res.value, AllPartials(dirs))
  {
    var m: map<string, string> := map[];
    var i := 0;
    ghost var seen: seq<(string, string)> := [];
    assert dirs[0..] == dirs && seen + AllPartials(dirs) == AllPartials(dirs);
    while i < |dirs|
      invariant i <= |dirs| && AllPartials(dirs) == seen + AllPartials(dirs[i..])
      invariant Holds(m, seen) && DistinctNames(seen)
    {
      ghost var here, later := Partials(dirs[i]), AllPartials(dirs[i + 1..]);
      NextDirectory(dirs, i, seen);
      var ok;
      m, ok := LoadDirectory(dirs[i], m, seen);
      if !ok {
        DistinctPrefix(seen + here, later);
        return None;
      }
      seen := seen + here;
      i := i + 1;
    }
    assert seen + [] == seen;
    res := Some(m);
  }

  lemma NextDirectory(dirs: seq<seq<Entry>>, i: nat, seen: seq<(string, string)>)
    requires i < |dirs|
    ensures seen + AllPartials(dirs[i..]) == (seen + Partials(dirs[i])) + AllPartials(dirs[i + 1..])
  {
    assert dirs[i..][0] == dirs[i] && dirs[i..][1..] == dirs[i + 1..];
    FlatMapAppend(PartialOf, dirs[i], Concat(dirs[i + 1..]));
    AppendAssociative(seen, Partials(dirs[i]), AllPartials(dirs[i + 1..]));
  }

  lemma DistinctPrefix(a: seq<(string, string)>, b: seq<(string, string)>)
    ensures DistinctNames(a + b) ==> DistinctNames(a)
  {
    assert forall i | 0 <= i < |a| :: (a + b)[i] == a[i];
  }

  // ----- the order of directories and of files does not matter -----

  /** The listings without their order. */
  function Bags(dirs: seq<seq<Entry>>): seq<multiset<Entry>> {
    seq(|dirs|, i requires 0 <= i < |dirs| => multiset(dirs[i]))
  }

  lemma ConcatAt(dirs: seq<seq<Entry>>, i: nat)
    requires i < |dirs|
    ensures multiset(Concat(dirs)) == multiset(dirs[i]) + multiset(Concat(dirs[..i] + dirs[i + 1..]))
  {
    ConcatAppend(dirs[..i], dirs[i..]);
    ConcatAppend(dirs[..i], dirs[i + 1..]);
    assert dirs == dirs[..i] + dirs[i..] && dirs[i..][1..] == dirs[i + 1..];
  }

  lemma {:induction false} ConcatPermuted(a: seq<seq<Entry>>, b: seq<seq<Entry>>)
    requires multiset(Bags(a)) == multiset(Bags(b))
    ensures multiset(Concat(a)) == multiset(Concat(b))
    decreases |a|
  {
    if a == [] {
      assert Bags(a) == [];
      assert |multiset(Bags(b))| == 0;
    } else {
      assert Bags(a)[0] in multiset(Bags(a));
      var i := IndexIn(Bags(b), Bags(a)[0]);
      RemoveSame(Bags(a), Bags(b), i);
      assert Bags(a[1..]) == Bags(a)[1..] && Bags(b[..i] + b[i + 1..]) == Bags(b)[..i] + Bags(b)[i + 1..];
      ConcatPermuted(a[1..], b[..i] + b[i + 1..]);
      ConcatAt(a, 0);
      ConcatAt(b, i);
      assert a[..0] + a[1..] == a[1..];
    }
  }

  lemma {:induction false} DistinctByMultiset(a: seq<(string, string)>, b: seq<(string, string)>)
    requires multiset(a) == multiset(b) && DistinctNames(a)
    ensures DistinctNames(b)
  {
    forall i, j | 0 <= i < j < |b| ensures b[i].0 != b[j].0 {
      if b[i].0 == b[j].0 {
        assert b[i] in multiset(a) && b[j] in multiset(a);
        var p :| 0 <= p < |a| && a[p] == b[i];
        var q :| 0 <= q < |a| && a[q] == b[j];
        assert p == q;
        CountTwice(b, i, j);
        CountOnce(a, p);
        assert false;
      }
    }
  }

  lemma CountTwice(b: seq<(string, string)>, i: nat, j: nat)
    requires i < j < |b| && b[i] == b[j]
    ensures multiset(b)[b[i]] >= 2
  {
    assert b == b[..i] + [b[i]] + b[i + 1..j] + [b[j]] + b[j + 1..];
  }

  lemma CountOnce(a: seq<(string, string)>, p: nat)
    requires p < |a| && DistinctNames(a)
    ensures multiset(a)[a[p]] == 1
  {
    assert a == a[..p] + [a[p]] + a[p + 1..];
    assert a[p] !in a[..p] && a[p] !in a[p + 1..];
  }

  lemma SamePartials(a: seq<seq<Entry>>, b: seq<seq<Entry>>)
    requires multiset(Bags(a)) == multiset(Bags(b))
    ensures multiset(AllPartials(a)) == multiset(AllPartials(b))
  {
    ConcatPermuted(a, b);
    FlatMapPermuted(PartialOf, Concat(a), Concat(b));
  }

  lemma SameMap(ps: seq<(string, string)>, qs: seq<(string, string)>, m: map<string, string>, n: map<string, string>)
    requires multiset(ps) == multiset(qs) && Holds(m, ps) && Holds(n, qs)
    ensures m == n
  {
    forall name, content ensures (name, content) in ps <==> (name, content) in qs {
      assert (name, content) in ps <==> (name, content) in multiset(ps);
      assert (name, content) in qs <==> (name, content) in multiset(qs);
    }
    forall name ensures (name in m <==> name in n) && (name in m && name in n ==> m[name] == n[name]) {
      if name in m { assert (name, m[name]) in ps; }
      if name in n { assert (name, n[name]) in qs; }
    }
  }

  /** Loading succeeds or fails alike for every order of the directories and of the files listed in each, and
      gives the same map. */
  lemma ListingOrderIrrelevant(a: seq<seq<Entry>>, b: seq<seq<Entry>>, m: map<string, string>, n: map<string, string>)
    requires multiset(Bags(a)) == multiset(Bags(b))
    ensures DistinctNames(AllPartials(a)) <==> DistinctNames(AllPartials(b))
    ensures Holds(m, AllPartials(a)) && Holds(n, AllPartials(b)) ==> m == n
  {
    var ps, qs := AllPartials(a), AllPartials(b);
    SamePartials(a, b);
    if DistinctNames(ps) {
      DistinctByMultiset(ps, qs);
    }
    if DistinctNames(qs) {
      DistinctByMultiset(qs, ps);
    }
    if Holds(m, ps) && Holds(n, qs) {
      SameMap(ps, qs, m, n);
    }
  }
}
