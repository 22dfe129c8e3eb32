/**
 * The combo step of `getThreeUrls` (index.js:129-190): the URLs of one
 * resource type are split into those left alone and those a combo service
 * may serve together; the latter are grouped by origin and every group of
 * two or more becomes one or more combo URLs
 * `dir + syntax[0] + names.join(syntax[1])`, a new one started whenever the
 * names gathered reach `maxUrlLength` characters.
 */
module Combo {
  import opened Base
  import opened Entries
  import opened Resolve

  /** `options.combo`: `syntax` is the pair `[open, sep]`. */
  datatype Combo = Combo(onlyUnPackFile: bool, maxUrlLength: int, open: string, sep: string)

  /** What the combo step turns a URL, or a run of URLs of one origin, into. */
  datatype Piece = Bare(url: string) | Batch(dir: string, names: seq<string>)

  // ---------------------------------------------------------------------
  // The origin regex `/^(?:(?:https?:)?\/\/[^\/]+)?\//` (index.js:155).

  /** The length of a leading `https:` or `http:`, else 0. */
  function SchemeLength(u: string): (n: nat)
    ensures n <= |u|
    ensures n == 6 ==> u[..6] == "https:"
    ensures n == 5 ==> u[..5] == "http:"
    ensures n == 0 ==> !("https:" <= u) && !("http:" <= u)
    ensures n == 0 || n == 5 || n == 6
  {
    if "https:" <= u then 6 else if "http:" <= u then 5 else 0
  }

  /** The first `/` at or after `j`. */
  function NextSlash(u: string, j: nat): (k: Option<nat>)
    ensures k.Some? ==> j <= k.value < |u| && u[k.value] == '/'
    ensures k.Some? ==> forall m :: j <= m < k.value ==> u[m] != '/'
    ensures k.None? ==> forall m :: j <= m < |u| ==> u[m] != '/'
    decreases |u| - j
  {
    if j >= |u| then None else if u[j] == '/' then Some(j) else NextSlash(u, j + 1)
  }

  /**
   * `url.match(...)[0]`: a scheme-relative or absolute origin
   * (`//host/`, `http://host/`, `https://host/`) when the URL starts with
   * one, otherwise `/` for a root-relative URL, otherwise no match.
   */
  function Origin(u: string): (r: Option<string>)
    ensures r.Some? ==> |r.value| > 0 && r.value <= u && r.value[|r.value| - 1] == '/'
  {
    var p := SchemeLength(u);
    var host := if p + 2 <= |u| && u[p] == '/' && u[p + 1] == '/' then NextSlash(u, p + 2) else None;
    if host.Some? && host.value > p + 2 then Some(u[..host.value + 1])
    else if |u| > 0 && u[0] == '/' then Some("/")
    else None
  }

  /**
   * The first alternative of the regex matches `u` with scheme `s`: `u` is
   * `s` (`""`, `http:` or `https:`), then `//`, then a non-empty host
   * without `/`, then the `/` at index `k`.
   */
  ghost predicate HostAt(u: string, s: string, k: int) {
    && (s == "" || s == "http:" || s == "https:")
    && s <= u && |s| + 2 < k < |u|
    && u[|s|] == '/' && u[|s| + 1] == '/' && u[k] == '/'
    && forall m :: |s| + 2 <= m < k ==> u[m] != '/'
  }

  /** When the `scheme? // host /` alternative matches, the origin is everything up to that `/`. */
  lemma OriginOfHost(u: string, s: string, k: int)
    requires HostAt(u, s, k)
    ensures Origin(u) == Some(u[..k + 1])
  {
    assert SchemeLength(u) == |s| by {
      if s == "http:" { assert u[4] == ':'; assert !("https:" <= u) by { assert "https:"[4] == 's'; } }
      if s == "" { assert u[0] == '/'; assert !("https:" <= u) && !("http:" <= u) by { assert "http:"[0] == 'h' && "https:"[0] == 'h'; } }
    }
    assert NextSlash(u, |s| + 2) == Some(k);
  }

  /**
   * When no host alternative matches, the regex falls back to a leading
   * `/`: the origin is `/` for a root-relative URL and there is no match
   * otherwise.
   */
  lemma OriginOfPath(u: string)
    requires forall s, k :: !HostAt(u, s, k)
    ensures Origin(u) == if |u| > 0 && u[0] == '/' then Some("/") else None
  {
    HostOfOrigin(u);
  }

  /** When the host branch of `Origin` fires, its scheme and slash witness `HostAt`. */
  lemma HostOfOrigin(u: string)
    ensures var p := SchemeLength(u);
      var host := if p + 2 <= |u| && u[p] == '/' && u[p + 1] == '/' then NextSlash(u, p + 2) else None;
      host.Some? && host.value > p + 2 ==> HostAt(u, u[..p], host.value)
  {
    var p := SchemeLength(u);
    assert u[..p] == "" || u[..p] == "http:" || u[..p] == "https:";
  }

  /** What the regex picks on a few typical URLs. */
  lemma OriginExamples()
    ensures Origin("http://h/x") == Some("http://h/")
    ensures Origin("//h/x") == Some("//h/")
    ensures Origin("/a/b") == Some("/")
    ensures Origin("//h") == Some("/")
    ensures Origin("http:/x") == None
    ensures Origin("a/b") == None
  {
    OriginOfHost("http://h/x", "http:", 8);
    OriginOfHost("//h/x", "", 3);
    assert "http://h/x"[..9] == "http://h/";
    assert "//h/x"[..4] == "//h/";
  }

  // ---------------------------------------------------------------------
  // index.js:136-150: which URLs may be combined.

  /**
   * A URL is combined when the cache knows it and, under
   * `onlyUnPackFile`, its entry is not a package.
   */
  predicate Combinable(cache: map<string, Entry>, c: Combo, u: string) {
    u in cache && (!c.onlyUnPackFile || !Flag(cache[u].isPkg))
  }

  /** The URLs kept as they are (`finalUrls`), in order. */
  function Kept(cache: map<string, Entry>, c: Combo, urls: seq<string>): seq<string>
  {
    if urls == [] then []
    else
      var u := urls[|urls| - 1];
      Kept(cache, c, urls[..|urls| - 1]) + (if Combinable(cache, c, u) then [] else [u])
  }

  /** The URLs to combine (`combos`), in order. */
  function Mergeable(cache: map<string, Entry>, c: Combo, urls: seq<string>): seq<string>
  {
    if urls == [] then []
    else
      var u := urls[|urls| - 1];
      Mergeable(cache, c, urls[..|urls| - 1]) + (if Combinable(cache, c, u) then [u] else [])
  }

  /** A URL is kept exactly when it is not combinable, and merged exactly when it is. */
  lemma {:induction false} SplitMembers(cache: map<string, Entry>, c: Combo, urls: seq<string>, u: string)
    ensures u in Kept(cache, c, urls) <==> u in urls && !Combinable(cache, c, u)
    ensures u in Mergeable(cache, c, urls) <==> u in urls && Combinable(cache, c, u)
  {
    if urls != [] {
      var p := urls[..|urls| - 1];
      SplitMembers(cache, c, p, u);
      assert urls == p + [urls[|urls| - 1]];
    }
  }

  /** Splitting loses and invents nothing. */
  lemma {:induction false} SplitIsPermutation(cache: map<string, Entry>, c: Combo, urls: seq<string>)
    ensures multiset(Kept(cache, c, urls)) + multiset(Mergeable(cache, c, urls)) == multiset(urls)
  {
    if urls != [] {
      var p, u := urls[..|urls| - 1], urls[|urls| - 1];
      assert urls == p + [u];
      SplitIsPermutation(cache, c, p);
      if Combinable(cache, c, u) {
        assert Kept(cache, c, urls) == Kept(cache, c, p);
        assert Mergeable(cache, c, urls) == Mergeable(cache, c, p) + [u];
      } else {
        assert Kept(cache, c, urls) == Kept(cache, c, p) + [u];
        assert Mergeable(cache, c, urls) == Mergeable(cache, c, p);
      }
    }
  }

  // ---------------------------------------------------------------------
  // index.js:152-163: `combosDirGroup`, the URLs filed under their origin.

  /**
   * The grouping loop: each URL filed under its origin, origins in order of
   * first appearance; the first URL the origin regex does not match throws.
   */
  function Group(s: seq<string>): Result<Dict<seq<string>>, Error> {
    if s == [] then Ok(NoKeys())
    else
      var u := s[|s| - 1];
      match Group(s[..|s| - 1])
      case Err(e) => Err(e)
      case Ok(g) =>
        match Origin(u)
        case None => Err(NoOrigin(u))
        case Some(dir) => Ok(File(g, dir, u))
  }

  /** Every listed key has a list, and no list is empty. */
  predicate Filed(g: Dict<seq<string>>) {
    (forall k :: k in g.keys ==> k in g.vals) && (forall k :: k in g.vals ==> g.vals[k] != [])
  }

  /** The URLs of `s` whose origin is `dir`, in order. */
  function OfOrigin(s: seq<string>, dir: string): seq<string> {
    if s == [] then []
    else OfOrigin(s[..|s| - 1], dir) + (if Origin(s[|s| - 1]) == Some(dir) then [s[|s| - 1]] else [])
  }

  /**
   * The grouping succeeds exactly when every URL has an origin, and
   * otherwise throws for the first URL without one.
   */
  lemma {:induction false} GroupOutcome(s: seq<string>)
    ensures Group(s).Ok? <==> forall j :: 0 <= j < |s| ==> Origin(s[j]).Some?
    ensures Group(s).Err? ==> FirstWithout(s, Group(s).error)
  {
    GroupOkIff(s);
    GroupFirstError(s);
  }

  /** The grouping succeeds exactly when every URL has an origin. */
  lemma GroupOkIff(s: seq<string>)
    ensures Group(s).Ok? <==> forall j :: 0 <= j < |s| ==> Origin(s[j]).Some?
  {
    GroupOkAll(s);
    AllGroupOk(s);
  }

  /** A successful grouping met no URL without an origin. */
  lemma {:induction false} GroupOkAll(s: seq<string>)
    ensures Group(s).Ok? ==> forall j :: 0 <= j < |s| ==> Origin(s[j]).Some?
  {
    if s != [] && Group(s).Ok? {
      var p := s[..|s| - 1];
      GroupOkAll(p);
      forall j | 0 <= j < |s| ensures Origin(s[j]).Some? {
        if j < |p| {
          assert s[j] == p[j];
        }
      }
    }
  }

  /** When every URL has an origin, the grouping succeeds. */
  lemma {:induction false} AllGroupOk(s: seq<string>)
    ensures (forall j :: 0 <= j < |s| ==> Origin(s[j]).Some?) ==> Group(s).Ok?
  {
    if s != [] && forall j :: 0 <= j < |s| ==> Origin(s[j]).Some? {
      var p := s[..|s| - 1];
      forall j | 0 <= j < |p| ensures Origin(p[j]).Some? {
        assert p[j] == s[j];
      }
      AllGroupOk(p);
      assert Origin(s[|s| - 1]).Some?;
    }
  }

  /** A failed grouping throws for the first URL without an origin. */
  lemma {:induction false} GroupFirstError(s: seq<string>)
    ensures Group(s).Err? ==> FirstWithout(s, Group(s).error)
  {
    if s != [] {
      var p, u := s[..|s| - 1], s[|s| - 1];
      assert forall j :: 0 <= j < |p| ==> s[j] == p[j];
      if Group(p).Err? {
        GroupFirstError(p);
        var i :| 0 <= i < |p| && Origin(p[i]).None? && (forall j :: 0 <= j < i ==> Origin(p[j]).Some?)
          && Group(p).error == NoOrigin(p[i]);
        assert Group(s).error == NoOrigin(s[i]);
      } else if Origin(u).None? {
        GroupOkIff(p);
        assert forall j :: 0 <= j < |p| ==> Origin(s[j]).Some?;
        assert Group(s).error == NoOrigin(s[|p|]);
      }
    }
  }

  /** `e` is the error for the first URL of `s` without an origin. */
  predicate FirstWithout(s: seq<string>, e: Error) {
    exists i :: 0 <= i < |s| && Origin(s[i]).None? && (forall j :: 0 <= j < i ==> Origin(s[j]).Some?) && e == NoOrigin(s[i])
  }

  /**
   * A successful grouping is a well-formed dictionary whose keys are the
   * origins met, each holding exactly the URLs of that origin in input order.
   */
  lemma {:induction false} GroupByOrigin(s: seq<string>, dir: string)
    requires Group(s).Ok?
    ensures var g := Group(s).value;
      g.Valid() && Filed(g) &&
      (dir in g.vals <==> OfOrigin(s, dir) != []) &&
      (dir in g.vals ==> g.vals[dir] == OfOrigin(s, dir))
  {
    if s != [] {
      var p, u := s[..|s| - 1], s[|s| - 1];
      GroupByOrigin(p, dir);
      var g := Group(p).value;
      var d := Origin(u).value;
      PutKeepsValid(g, d, Lookup(g, d) + [u]);
      var g' := Group(s).value;
      assert g' == File(g, d, u);
      forall k | k in g'.vals ensures g'.vals[k] != [] {
        if k != d {
          GroupByOrigin(p, k);
        }
      }
    }
  }

  /** The lists under `keys`, concatenated in key order. */
  function Members(g: Dict<seq<string>>, keys: seq<string>): seq<string> {
    if keys == [] then [] else Members(g, keys[..|keys| - 1]) + Lookup(g, keys[|keys| - 1])
  }

  /** Replacing the list under a key not listed leaves the members as they are. */
  lemma {:induction false} MembersPutOther(g: Dict<seq<string>>, keys: seq<string>, d: string, v: seq<string>)
    requires d !in keys
    ensures Members(g.Put(d, v), keys) == Members(g, keys)
  {
    if keys != [] {
      var p := keys[..|keys| - 1];
      assert keys == p + [keys[|keys| - 1]];
      MembersPutOther(g, p, d, v);
    }
  }

  /** Replacing the list under a key listed once swaps that list among the members. */
  lemma {:induction false} MembersPut(g: Dict<seq<string>>, keys: seq<string>, d: string, v: seq<string>)
    requires NoDup(keys) && d in keys
    ensures multiset(Members(g.Put(d, v), keys)) + multiset(Lookup(g, d))
      == multiset(Members(g, keys)) + multiset(v)
  {
    var p, k := keys[..|keys| - 1], keys[|keys| - 1];
    assert keys == p + [k];
    if k == d {
      assert d !in p;
      MembersPutOther(g, p, d, v);
    } else {
      assert NoDup(p) && d in p;
      MembersPut(g, p, d, v);
      MembersPutStep(g, p, k, d, v);
    }
  }

  /** The step of `MembersPut` for a key other than the replaced one. */
  lemma MembersPutStep(g: Dict<seq<string>>, p: seq<string>, k: string, d: string, v: seq<string>)
    requires k != d
    requires multiset(Members(g.Put(d, v), p)) + multiset(Lookup(g, d)) == multiset(Members(g, p)) + multiset(v)
    ensures multiset(Members(g.Put(d, v), p + [k])) + multiset(Lookup(g, d))
      == multiset(Members(g, p + [k])) + multiset(v)
  {
    var g' := g.Put(d, v);
    var a, b := Members(g', p), Members(g, p);
    var lk, ld := multiset(Lookup(g, k)), multiset(Lookup(g, d));
    assert (p + [k])[..|p|] == p;
    assert Lookup(g', k) == Lookup(g, k);
    calc {
      multiset(Members(g', p + [k])) + ld;
      multiset(a) + lk + ld;
      (multiset(a) + ld) + lk;
      (multiset(b) + multiset(v)) + lk;
      (multiset(b) + lk) + multiset(v);
      multiset(Members(g, p + [k])) + multiset(v);
    }
  }

  /** A successful grouping files every URL exactly once. */
  lemma {:induction false} GroupIsPermutation(s: seq<string>)
    requires Group(s).Ok?
    ensures var g := Group(s).value; multiset(Members(g, g.keys)) == multiset(s)
  {
    if s != [] {
      var p, u := s[..|s| - 1], s[|s| - 1];
      assert s == p + [u];
      GroupIsPermutation(p);
      var g, d := Group(p).value, Origin(u).value;
      assert NoDup(g.keys) && (d in g.vals <==> d in g.keys) by {
        GroupByOrigin(p, d);
      }
      FileAddsOne(g, d, u);
      assert Group(s).value == File(g, d, u);
    }
  }

  /** Filing one URL adds exactly that URL to the members. */
  lemma FileAddsOne(g: Dict<seq<string>>, d: string, u: string)
    requires NoDup(g.keys) && (d in g.vals <==> d in g.keys)
    ensures var g' := File(g, d, u); multiset(Members(g', g'.keys)) == multiset(Members(g, g.keys)) + multiset{u}
  {
    if d in g.vals {
      FileExisting(g, d, u);
    } else {
      FileNew(g, d, u);
    }
  }

  lemma FileExisting(g: Dict<seq<string>>, d: string, u: string)
    requires NoDup(g.keys) && d in g.keys && d in g.vals
    ensures var g' := File(g, d, u); multiset(Members(g', g'.keys)) == multiset(Members(g, g.keys)) + multiset{u}
  {
    var v := Lookup(g, d) + [u];
    var g' := g.Put(d, v);
    var before, old_ := multiset(Members(g, g.keys)), multiset(Lookup(g, d));
    MembersPut(g, g.keys, d, v);
    assert g'.keys == g.keys;
    assert multiset(v) == old_ + multiset{u};
    assert before + multiset(v) == (before + multiset{u}) + old_;
    Cancel(multiset(Members(g', g'.keys)), before + multiset{u}, old_);
  }

  lemma FileNew(g: Dict<seq<string>>, d: string, u: string)
    requires d !in g.keys && d !in g.vals
    ensures var g' := File(g, d, u); Members(g', g'.keys) == Members(g, g.keys) + [u]
  {
    var g' := File(g, d, u);
    assert Lookup(g, d) + [u] == [u];
    MembersPutOther(g, g.keys, d, [u]);
    assert g'.keys == g.keys + [d];
    assert (g.keys + [d])[..|g.keys|] == g.keys;
    assert Members(g', g'.keys) == Members(g', g.keys) + Lookup(g', d);
  }

  lemma Cancel(x: multiset<string>, y: multiset<string>, l: multiset<string>)
    requires x + l == y + l
    ensures x == y
  {
    forall e ensures x[e] == y[e] {
      assert (x + l)[e] == (y + l)[e];
    }
  }

  // ---------------------------------------------------------------------
  // index.js:165-185: one group turned into combo URLs.

  /** `url.substr(n)`. */
  function Drop(u: string, n: nat): string {
    if n <= |u| then u[n..] else ""
  }

  /** The names of a group's URLs relative to its origin (`baseNames`). */
  function Names(dir: string, members: seq<string>): (ns: seq<string>)
    ensures |ns| == |members|
  {
    seq(|members|, k requires 0 <= k < |members| => Drop(members[k], |dir|))
  }

  /** The total length of some names. */
  function SumLen(ns: seq<string>): nat {
    if ns == [] then 0 else SumLen(ns[..|ns| - 1]) + |ns[|ns| - 1]|
  }

  /**
   * The batching loop from the `i`-th name on, `cur` being `baseNames` and
   * `len` the length gathered so far: a name whose length brings the total
   * to `max` or beyond closes the batch it joins.
   */
  function Chunks(names: seq<string>, max: int, i: nat, cur: seq<string>, len: int): seq<seq<string>>
    requires i <= |names|
    decreases |names| - i
  {
    if i == |names| then (if cur == [] then [] else [cur])
    else
      var n := names[i];
      if |n| + len >= max then [cur + [n]] + Chunks(names, max, i + 1, [], 0)
      else Chunks(names, max, i + 1, cur + [n], len + |n|)
  }

  /** The batches hold the names, in order. */
  lemma {:induction false} ChunksConcat(names: seq<string>, max: int, i: nat, cur: seq<string>, len: int)
    requires i <= |names|
    ensures Concat(Chunks(names, max, i, cur, len)) == cur + names[i..]
    decreases |names| - i
  {
    if i == |names| {
      assert cur + names[i..] == cur;
    } else {
      var n := names[i];
      assert names[i..] == [n] + names[i + 1..];
      if |n| + len >= max {
        ChunksConcat(names, max, i + 1, [], 0);
        assert Chunks(names, max, i, cur, len)[1..] == Chunks(names, max, i + 1, [], 0);
      } else {
        ChunksConcat(names, max, i + 1, cur + [n], len + |n|);
      }
    }
  }

  /** A batch no proper prefix of which reaches `max`: only its last name closed it. */
  predicate Tight(chunk: seq<string>, max: int) {
    |chunk| <= 1 || SumLen(chunk[..|chunk| - 1]) < max
  }

  /**
   * No batch is empty, none could have been closed earlier, and every
   * batch but the last reached `max`.
   */
  predicate Greedy(cs: seq<seq<string>>, max: int) {
    forall k :: 0 <= k < |cs| ==> cs[k] != [] && Tight(cs[k], max) && (k < |cs| - 1 ==> SumLen(cs[k]) >= max)
  }

  /**
   * The batches are the greedy ones: none is empty, none could have been
   * closed earlier, and every batch but the last reached `max`.
   */
  lemma {:induction false} ChunksGreedy(names: seq<string>, max: int, i: nat, cur: seq<string>, len: int)
    requires i <= |names|
    requires len == SumLen(cur) && (cur == [] || len < max)
    ensures Greedy(Chunks(names, max, i, cur, len), max)
    decreases |names| - i
  {
    if i == |names| {
      if cur != [] {
        assert SumLen(cur) == SumLen(cur[..|cur| - 1]) + |cur[|cur| - 1]|;
        assert Tight(cur, max);
      }
    } else {
      var n := names[i];
      assert (cur + [n])[..|cur + [n]| - 1] == cur;
      assert SumLen(cur + [n]) == len + |n|;
      if |n| + len >= max {
        ChunksGreedy(names, max, i + 1, [], 0);
        GreedyCons(cur + [n], Chunks(names, max, i + 1, [], 0), max);
      } else {
        ChunksGreedy(names, max, i + 1, cur + [n], len + |n|);
      }
    }
  }

  lemma GreedyCons(c: seq<string>, rest: seq<seq<string>>, max: int)
    requires c != [] && Tight(c, max) && SumLen(c) >= max && Greedy(rest, max)
    ensures Greedy([c] + rest, max)
  {
    var cs := [c] + rest;
    forall k | 0 <= k < |cs|
      ensures cs[k] != [] && Tight(cs[k], max) && (k < |cs| - 1 ==> SumLen(cs[k]) >= max)
    {
      if k > 0 {
        assert cs[k] == rest[k - 1];
      }
    }
  }

  // ---------------------------------------------------------------------
  // index.js:129-190 put together.

  /** A run of names of one origin as batches. */
  function Batches(dir: string, chunks: seq<seq<string>>): (ps: seq<Piece>)
    ensures |ps| == |chunks|
  {
    seq(|chunks|, k requires 0 <= k < |chunks| => Batch(dir, chunks[k]))
  }

  /** URLs left as they are. */
  function Bares(urls: seq<string>): (ps: seq<Piece>)
    ensures |ps| == |urls|
  {
    seq(|urls|, k requires 0 <= k < |urls| => Bare(urls[k]))
  }

  /**
   * One group (index.js:165-187): two or more URLs become batches of their
   * names relative to `dir`; a lone URL is kept as it is.
   */
  function GroupPieces(dir: string, members: seq<string>, c: Combo): seq<Piece>
    requires members != []
  {
    if |members| > 1 then Batches(dir, Chunks(Names(dir, members), c.maxUrlLength, 0, [], 0))
    else [Bare(members[0])]
  }

  /** The pieces of the first `n` groups, in key order (`_.each(combosDirGroup, ...)`). */
  function Assemble(g: Dict<seq<string>>, c: Combo, n: nat): seq<Piece>
    requires Filed(g) && n <= |g.keys|
  {
    if n == 0 then []
    else
      var dir := g.keys[n - 1];
      Assemble(g, c, n - 1) + GroupPieces(dir, g.vals[dir], c)
  }

  /** A successful grouping leaves every key with a non-empty list. */
  lemma GroupFiled(s: seq<string>)
    requires Group(s).Ok?
    ensures Filed(Group(s).value)
  {
    GroupByOrigin(s, "");
  }

  /**
   * The combo step for one type's URLs: the URLs left alone first, in order,
   * then the pieces of every origin group; the first combinable URL without
   * an origin throws.
   */
  function CombinePieces(cache: map<string, Entry>, c: Combo, urls: seq<string>): Result<seq<Piece>, Error> {
    var combos := Mergeable(cache, c, urls);
    match Group(combos)
    case Err(e) => Err(e)
    case Ok(g) =>
      GroupFiled(combos);
      Ok(Bares(Kept(cache, c, urls)) + Assemble(g, c, |g.keys|))
  }

  /** `dir + syntax[0] + names.join(syntax[1])`, or the URL itself. */
  function Render(p: Piece, c: Combo): string {
    match p
    case Bare(u) => u
    case Batch(dir, names) => dir + c.open + Join(names, c.sep)
  }

  /** Every piece rendered. */
  function RenderAll(ps: seq<Piece>, c: Combo): (r: seq<string>)
    ensures |r| == |ps|
  {
    seq(|ps|, k requires 0 <= k < |ps| => Render(ps[k], c))
  }

  /** `finalUrls`. */
  function Combine(cache: map<string, Entry>, c: Combo, urls: seq<string>): Result<seq<string>, Error> {
    match CombinePieces(cache, c, urls)
    case Err(e) => Err(e)
    case Ok(ps) => Ok(RenderAll(ps, c))
  }

  // ---------------------------------------------------------------------
  // What the pieces stand for.

  /** The URLs a piece stands for. */
  function Expand(p: Piece): seq<string> {
    match p
    case Bare(u) => [u]
    case Batch(dir, names) => Prepend(dir, names)
  }

  /** `dir + name` for every name. */
  function Prepend(dir: string, names: seq<string>): (r: seq<string>)
    ensures |r| == |names|
  {
    seq(|names|, k requires 0 <= k < |names| => dir + names[k])
  }

  /** What each piece stands for. */
  function Expansions(ps: seq<Piece>): (es: seq<seq<string>>)
    ensures |es| == |ps| && forall k :: 0 <= k < |ps| ==> es[k] == Expand(ps[k])
  {
    seq(|ps|, k requires 0 <= k < |ps| => Expand(ps[k]))
  }

  /** The URLs some pieces stand for, in order. */
  function ExpandAll(ps: seq<Piece>): seq<string> {
    Concat(Expansions(ps))
  }

  lemma ExpandOne(p: Piece)
    ensures ExpandAll([p]) == Expand(p)
  {
    var es := Expansions([p]);
    assert es == [Expand(p)] && es[1..] == [];
    assert Concat(es) == es[0] + Concat(es[1..]);
  }

  lemma ExpandAllAppend(a: seq<Piece>, b: seq<Piece>)
    ensures ExpandAll(a + b) == ExpandAll(a) + ExpandAll(b)
  {
    assert Expansions(a + b) == Expansions(a) + Expansions(b);
    ConcatOfAppend(Expansions(a), Expansions(b));
  }

  lemma {:induction false} ExpandBares(urls: seq<string>)
    ensures ExpandAll(Bares(urls)) == urls
  {
    if urls == [] {
      assert Expansions(Bares(urls)) == [];
    } else {
      var u, rest := urls[0], urls[1..];
      assert Bares(urls) == [Bare(u)] + Bares(rest);
      ExpandAllAppend([Bare(u)], Bares(rest));
      ExpandOne(Bare(u));
      ExpandBares(rest);
      assert urls == [u] + rest;
    }
  }

  /** Prepending distributes over concatenation. */
  lemma PrependAppend(dir: string, xs: seq<string>, ys: seq<string>)
    ensures Prepend(dir, xs + ys) == Prepend(dir, xs) + Prepend(dir, ys)
  {
  }

  lemma {:induction false} ExpandBatches(dir: string, chunks: seq<seq<string>>)
    ensures ExpandAll(Batches(dir, chunks)) == Prepend(dir, Concat(chunks))
  {
    if chunks != [] {
      var first, rest := chunks[0], chunks[1..];
      assert Batches(dir, chunks) == [Batch(dir, first)] + Batches(dir, rest);
      ExpandAllAppend([Batch(dir, first)], Batches(dir, rest));
      ExpandOne(Batch(dir, first));
      ExpandBatches(dir, rest);
      assert Concat(chunks) == first + Concat(rest);
      PrependAppend(dir, first, Concat(rest));
    }
  }

  /** Every list of `g` holds URLs that start with their key. */
  predicate Prefixed(g: Dict<seq<string>>) {
    forall k, i :: k in g.vals && 0 <= i < |g.vals[k]| ==> k <= g.vals[k][i]
  }

  /** A group's pieces stand for its URLs, in order. */
  lemma ExpandGroup(dir: string, members: seq<string>, c: Combo)
    requires members != [] && forall i :: 0 <= i < |members| ==> dir <= members[i]
    ensures ExpandAll(GroupPieces(dir, members, c)) == members
  {
    if |members| > 1 {
      var names := Names(dir, members);
      ChunksConcat(names, c.maxUrlLength, 0, [], 0);
      ExpandBatches(dir, Chunks(names, c.maxUrlLength, 0, [], 0));
      assert [] + names[0..] == names;
      forall i | 0 <= i < |members| ensures Prepend(dir, names)[i] == members[i] {
        assert dir <= members[i];
      }
    } else {
      ExpandOne(Bare(members[0]));
    }
  }

  /** The assembled pieces stand for the members of the groups, in key order. */
  lemma {:induction false} ExpandAssemble(g: Dict<seq<string>>, c: Combo, n: nat)
    requires Filed(g) && Prefixed(g) && n <= |g.keys|
    ensures ExpandAll(Assemble(g, c, n)) == Members(g, g.keys[..n])
  {
    if n > 0 {
      var dir := g.keys[n - 1];
      assert dir in g.vals;
      var ms := g.vals[dir];
      assert Members(g, g.keys[..n]) == Members(g, g.keys[..n - 1]) + ms by {
        var keys := g.keys[..n];
        assert keys[..n - 1] == g.keys[..n - 1] && keys[n - 1] == dir;
      }
      assert ExpandAll(GroupPieces(dir, ms, c)) == ms by {
        assert forall i :: 0 <= i < |ms| ==> dir <= ms[i];
        ExpandGroup(dir, ms, c);
      }
      assert ExpandAll(Assemble(g, c, n)) == ExpandAll(Assemble(g, c, n - 1)) + ExpandAll(GroupPieces(dir, ms, c)) by {
        ExpandAllAppend(Assemble(g, c, n - 1), GroupPieces(dir, ms, c));
      }
      ExpandAssemble(g, c, n - 1);
    }
  }

  /** The URLs of `s` with origin `dir` are those of `s` whose origin is `dir`. */
  lemma {:induction false} OfOriginMembers(s: seq<string>, dir: string, u: string)
    ensures u in OfOrigin(s, dir) <==> u in s && Origin(u) == Some(dir)
  {
    if s != [] {
      var p := s[..|s| - 1];
      OfOriginMembers(p, dir, u);
      assert s == p + [s[|s| - 1]];
    }
  }

  /** The groups of a successful grouping hold URLs that start with their origin. */
  lemma GroupPrefixed(s: seq<string>)
    requires Group(s).Ok?
    ensures Prefixed(Group(s).value)
  {
    var g := Group(s).value;
    forall k, i | k in g.vals && 0 <= i < |g.vals[k]| ensures k <= g.vals[k][i] {
      GroupByOrigin(s, k);
      OfOriginMembers(s, k, g.vals[k][i]);
    }
  }

  /**
   * The combo step loses, duplicates and invents no URL: the pieces stand
   * for a permutation of the input.
   */
  lemma CombineIsPermutation(cache: map<string, Entry>, c: Combo, urls: seq<string>)
    requires CombinePieces(cache, c, urls).Ok?
    ensures multiset(ExpandAll(CombinePieces(cache, c, urls).value)) == multiset(urls)
  {
    var combos, kept := Mergeable(cache, c, urls), Kept(cache, c, urls);
    var g := Group(combos).value;
    GroupFiled(combos);
    GroupPrefixed(combos);
    var assembled := Assemble(g, c, |g.keys|);
    assert CombinePieces(cache, c, urls).value == Bares(kept) + assembled;
    ExpandAllAppend(Bares(kept), assembled);
    ExpandBares(kept);
    ExpandAssemble(g, c, |g.keys|);
    assert g.keys[..|g.keys|] == g.keys;
    GroupIsPermutation(combos);
    SplitIsPermutation(cache, c, urls);
  }

  lemma {:induction false} InConcat(cs: seq<seq<string>>, j: nat, y: string)
    requires j < |cs| && y in cs[j]
    ensures y in Concat(cs)
  {
    if j > 0 {
      InConcat(cs[1..], j - 1, y);
    }
  }

  /** A member's name, put back behind the origin it starts with, is the member. */
  lemma NameRestores(dir: string, ms: seq<string>, m: nat)
    requires m < |ms| && dir <= ms[m]
    ensures dir + Names(dir, ms)[m] == ms[m]
  {
    assert Names(dir, ms)[m] == ms[m][|dir|..];
    assert ms[m] == ms[m][..|dir|] + ms[m][|dir|..];
  }

  /** A URL a batch of a group stands for is one of the group's URLs. */
  lemma GroupBatch(dir: string, ms: seq<string>, c: Combo, k: nat, x: string)
    requires ms != [] && forall i :: 0 <= i < |ms| ==> dir <= ms[i]
    requires k < |GroupPieces(dir, ms, c)| && GroupPieces(dir, ms, c)[k].Batch?
    requires x in Expand(GroupPieces(dir, ms, c)[k])
    ensures GroupPieces(dir, ms, c)[k].dir == dir && x in ms
  {
    assert |ms| > 1;
    var names := Names(dir, ms);
    var chunks := Chunks(names, c.maxUrlLength, 0, [], 0);
    assert GroupPieces(dir, ms, c) == Batches(dir, chunks);
    var chunk := chunks[k];
    assert GroupPieces(dir, ms, c)[k] == Batch(dir, chunk);
    var i :| 0 <= i < |chunk| && Prepend(dir, chunk)[i] == x;
    InConcat(chunks, k, chunk[i]);
    ChunksConcat(names, c.maxUrlLength, 0, [], 0);
    assert [] + names[0..] == names;
    var m :| 0 <= m < |names| && names[m] == chunk[i];
    NameRestores(dir, ms, m);
  }

  /** A URL a batch stands for belongs to the group of the batch's origin. */
  lemma {:induction false} AssembledBatch(g: Dict<seq<string>>, c: Combo, n: nat, j: nat, x: string)
    requires Filed(g) && Prefixed(g) && n <= |g.keys|
    requires j < |Assemble(g, c, n)| && Assemble(g, c, n)[j].Batch? && x in Expand(Assemble(g, c, n)[j])
    ensures Assemble(g, c, n)[j].dir in g.vals && x in g.vals[Assemble(g, c, n)[j].dir]
  {
    var dir := g.keys[n - 1];
    var before := Assemble(g, c, n - 1);
    if j < |before| {
      AssembledBatch(g, c, n - 1, j, x);
      assert Assemble(g, c, n)[j] == before[j];
    } else {
      var ms := g.vals[dir];
      assert Assemble(g, c, n)[j] == GroupPieces(dir, ms, c)[j - |before|];
      GroupBatch(dir, ms, c, j - |before|, x);
    }
  }

  /** A URL filed under an origin is a URL of the input with that origin. */
  lemma InGroupOf(s: seq<string>, dir: string, x: string)
    requires Group(s).Ok? && dir in Group(s).value.vals && x in Group(s).value.vals[dir]
    ensures x in s && Origin(x) == Some(dir)
  {
    GroupByOrigin(s, dir);
    OfOriginMembers(s, dir, x);
  }

  /** A successful combo step: the URLs kept, then the pieces of the origin groups. */
  lemma CombineShape(cache: map<string, Entry>, c: Combo, urls: seq<string>)
    requires CombinePieces(cache, c, urls).Ok?
    ensures var g := Group(Mergeable(cache, c, urls)).value;
      && Filed(g)
      && CombinePieces(cache, c, urls).value == Bares(Kept(cache, c, urls)) + Assemble(g, c, |g.keys|)
  {
    GroupFiled(Mergeable(cache, c, urls));
  }

  /** A URL an assembled batch stands for is a URL of the input with the batch's origin. */
  lemma GroupedBatch(s: seq<string>, c: Combo, j: nat, x: string)
    requires Group(s).Ok? && Filed(Group(s).value)
    requires var g := Group(s).value;
      j < |Assemble(g, c, |g.keys|)| && Assemble(g, c, |g.keys|)[j].Batch? && x in Expand(Assemble(g, c, |g.keys|)[j])
    ensures var g := Group(s).value;
      x in s && Origin(x) == Some(Assemble(g, c, |g.keys|)[j].dir)
  {
    var g := Group(s).value;
    var b := Assemble(g, c, |g.keys|)[j];
    GroupPrefixed(s);
    AssembledBatch(g, c, |g.keys|, j, x);
    InGroupOf(s, b.dir, x);
  }

  /** A batch among the bare URLs and the pieces after them is one of the pieces. */
  lemma BatchPastBares(kept: seq<string>, pieces: seq<Piece>, j: nat)
    requires j < |Bares(kept) + pieces| && (Bares(kept) + pieces)[j].Batch?
    ensures |kept| <= j && (Bares(kept) + pieces)[j] == pieces[j - |kept|]
  {
  }

  /** A URL a combo batch stands for is a combinable input URL of the batch's origin. */
  lemma BatchUrl(cache: map<string, Entry>, c: Combo, urls: seq<string>, j: nat, x: string)
    requires CombinePieces(cache, c, urls).Ok?
    requires j < |CombinePieces(cache, c, urls).value|
    requires CombinePieces(cache, c, urls).value[j].Batch?
    requires x in Expand(CombinePieces(cache, c, urls).value[j])
    ensures var b := CombinePieces(cache, c, urls).value[j];
      Origin(x) == Some(b.dir) && x in urls && Combinable(cache, c, x)
  {
    var combos := Mergeable(cache, c, urls);
    var g := Group(combos).value;
    var ps := CombinePieces(cache, c, urls).value;
    CombineShape(cache, c, urls);
    var kept, pieces := Kept(cache, c, urls), Assemble(g, c, |g.keys|);
    BatchPastBares(kept, pieces, j);
    GroupedBatch(combos, c, j - |kept|, x);
    SplitMembers(cache, c, urls, x);
  }

  /**
   * Every batch the combo step forms serves combinable input URLs of a
   * single origin, the batch's `dir`.
   */
  lemma CombineBatchesShareOrigin(cache: map<string, Entry>, c: Combo, urls: seq<string>, j: nat, name: string)
    requires CombinePieces(cache, c, urls).Ok?
    requires j < |CombinePieces(cache, c, urls).value|
    requires CombinePieces(cache, c, urls).value[j].Batch?
    requires name in CombinePieces(cache, c, urls).value[j].names
    ensures var b := CombinePieces(cache, c, urls).value[j];
      Origin(b.dir + name) == Some(b.dir) && b.dir + name in urls && Combinable(cache, c, b.dir + name)
  {
    var b := CombinePieces(cache, c, urls).value[j];
    var i :| 0 <= i < |b.names| && b.names[i] == name;
    assert Expand(b)[i] == b.dir + name;
    BatchUrl(cache, c, urls, j, b.dir + name);
  }

  /**
   * The combo step throws exactly when some combinable URL has no origin,
   * and then for the first such URL.
   */
  lemma CombineThrows(cache: map<string, Entry>, c: Combo, urls: seq<string>)
    ensures CombinePieces(cache, c, urls).Err? <==>
      exists u :: u in urls && Combinable(cache, c, u) && Origin(u).None?
    ensures CombinePieces(cache, c, urls).Err? ==>
      FirstWithout(Mergeable(cache, c, urls), CombinePieces(cache, c, urls).error)
  {
    var combos := Mergeable(cache, c, urls);
    GroupOutcome(combos);
    forall u | u in urls && Combinable(cache, c, u) && Origin(u).None?
      ensures CombinePieces(cache, c, urls).Err?
    {
      SplitMembers(cache, c, urls, u);
      var j :| 0 <= j < |combos| && combos[j] == u;
    }
    if CombinePieces(cache, c, urls).Err? {
      var i :| 0 <= i < |combos| && Origin(combos[i]).None?;
      SplitMembers(cache, c, urls, combos[i]);
    }
  }

  // ---------------------------------------------------------------------
  // The loops of index.js:136-187.

  /** Once the grouping of a prefix throws, the grouping of the whole throws the same. */
  lemma {:induction false} GroupStops(s: seq<string>, n: nat)
    requires n <= |s| && Group(s[..n]).Err?
    ensures Group(s) == Group(s[..n])
    decreases |s| - n
  {
    if n < |s| {
      var p := s[..|s| - 1];
      assert p[..n] == s[..n];
      GroupStops(p, n);
    } else {
      assert s[..n] == s;
    }
  }

  lemma RenderAllAppend(a: seq<Piece>, b: seq<Piece>, c: Combo)
    ensures RenderAll(a + b, c) == RenderAll(a, c) + RenderAll(b, c)
  {
  }

  lemma RenderBares(urls: seq<string>, c: Combo)
    ensures RenderAll(Bares(urls), c) == urls
  {
  }

  /** The `urls.forEach` of index.js:136-150: `finalUrls` and `combos`. */
  method SplitUrls(cache: map<string, Entry>, c: Combo, urls: seq<string>)
    returns (finals: seq<string>, combos: seq<string>)
    ensures finals == Kept(cache, c, urls) && combos == Mergeable(cache, c, urls)
  {
    finals, combos := [], [];
    for i := 0 to |urls|
      invariant finals == Kept(cache, c, urls[..i]) && combos == Mergeable(cache, c, urls[..i])
    {
      var url := urls[i];
      assert urls[..i + 1][..i] == urls[..i];
      if url in cache {
        if (c.onlyUnPackFile && !Flag(cache[url].isPkg)) || !c.onlyUnPackFile {
          combos := combos + [url];
        } else {
          finals := finals + [url];
        }
      } else {
        finals := finals + [url];
      }
    }
    assert urls[..|urls|] == urls;
  }

  /** The `combos.forEach` of index.js:154-163: `combosDirGroup`. */
  method GroupUrls(combos: seq<string>) returns (r: Result<Dict<seq<string>>, Error>)
    ensures r == Group(combos)
  {
    var group: Dict<seq<string>> := NoKeys();
    for i := 0 to |combos|
      invariant Group(combos[..i]) == Ok(group)
    {
      var url := combos[i];
      assert combos[..i + 1][..i] == combos[..i];
      var matches := Origin(url);
      if matches.None? {
        GroupStops(combos, i + 1);
        return Err(NoOrigin(url));
      }
      var baseurl := matches.value;
      var members := if baseurl in group.vals then group.vals[baseurl] else [];
      group := group.Put(baseurl, members + [url]);
    }
    assert combos[..|combos|] == combos;
    r := Ok(group);
  }

  /** The body of the `_.each(combosDirGroup, ...)` of index.js:165-187 for one group. */
  method BatchUrls(dir: string, urls: seq<string>, c: Combo) returns (out: seq<string>)
    requires urls != []
    ensures out == RenderAll(GroupPieces(dir, urls, c), c)
  {
    if |urls| > 1 {
      ghost var names := Names(dir, urls);
      ghost var done: seq<seq<string>> := [];
      var baseNames: seq<string> := [];
      var len := 0;
      out := [];
      for i := 0 to |urls|
        invariant Chunks(names, c.maxUrlLength, 0, [], 0) == done + Chunks(names, c.maxUrlLength, i, baseNames, len)
        invariant out == RenderAll(Batches(dir, done), c)
      {
        var url := Drop(urls[i], |dir|);
        assert url == names[i];
        baseNames := baseNames + [url];
        if |url| + len >= c.maxUrlLength {
          len := 0;
          out := out + [dir + c.open + Join(baseNames, c.sep)];
          assert Batches(dir, done + [baseNames]) == Batches(dir, done) + [Batch(dir, baseNames)];
          done := done + [baseNames];
          baseNames := [];
        } else {
          len := len + |url|;
        }
      }
      if |baseNames| > 0 {
        out := out + [dir + c.open + Join(baseNames, c.sep)];
        assert Batches(dir, done + [baseNames]) == Batches(dir, done) + [Batch(dir, baseNames)];
        done := done + [baseNames];
      } else {
        assert done + [] == done;
      }
    } else {
      out := [urls[0]];
    }
  }

  /** The `_.each(combosDirGroup, ...)` of index.js:165-187: every group's URLs, in key order. */
  method AssembleUrls(group: Dict<seq<string>>, c: Combo) returns (out: seq<string>)
    requires Filed(group)
    ensures out == RenderAll(Assemble(group, c, |group.keys|), c)
  {
    out := [];
    for k := 0 to |group.keys|
      invariant out == RenderAll(Assemble(group, c, k), c)
    {
      var dir := group.keys[k];
      var batch := BatchUrls(dir, group.vals[dir], c);
      RenderAllAppend(Assemble(group, c, k), GroupPieces(dir, group.vals[dir], c), c);
      out := out + batch;
    }
  }

  /** The combo step of index.js:136-189 for one type's URLs. */
  method CombineUrls(cache: map<string, Entry>, c: Combo, urls: seq<string>) returns (r: Result<seq<string>, Error>)
    ensures r == Combine(cache, c, urls)
  {
    var finalUrls, combos := SplitUrls(cache, c, urls);
    var grouped := GroupUrls(combos);
    if grouped.Err? {
      return Err(grouped.error);
    }
    GroupFiled(combos);
    var batches := AssembleUrls(grouped.value, c);
    RenderAllAppend(Bares(finalUrls), Assemble(grouped.value, c, |grouped.value.keys|), c);
    RenderBares(finalUrls, c);
    r := Ok(finalUrls + batches);
  }
}
