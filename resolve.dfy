/**
 * `Resource.prototype.getUrls` (index.js:48-104) as a function of the map
 * and the state it threads: `founds` (id -> URL, shared by every recursive
 * call), `pkgFounds` (package -> URL) and the instance's `urlCache`
 * (URL -> the map entry that produced it).
 *
 * Each id is resolved once: an id already in `founds` contributes its stored
 * URL; an unresolved id is given its own or its package's URL, its `deps`
 * and then its `asyncs` are resolved recursively and their URLs placed in
 * front of everything gathered so far, and its URL is appended. An id the
 * map does not know is passed through as its own URL.
 *
 * Line 82 reads `pkg.useJsWraper`, but no variable `pkg` is in scope there:
 * whenever a package is resolved for the first time the call throws a
 * ReferenceError after the `deps` and `asyncs` recursion. The model keeps
 * that behaviour (`UndeclaredPkg`), so the `has` handling of lines 83-89 is
 * never reached.
 */
module Resolve {
  import opened Base
  import opened Entries

  /** What `getUrls` throws. */
  datatype Error =
    | MissingPkg(pkg: string)   // index.js:64, `pkgInfo.url` with no entry for the package
    | UndeclaredPkg             // index.js:82, the undeclared `pkg`
    | NoOrigin(url: string)     // index.js:156, `matches[0]` when the origin regex fails

  /** The state one `getUrls` call threads through its recursion. */
  datatype Session = Session(founds: Dict<string>, pkgFounds: map<string, string>, cache: map<string, Entry>)

  /** What a call returns (or throws) together with the state it leaves. */
  datatype Run = Run(res: Result<seq<string>, Error>, s: Session)

  /** `founds[id]` is truthy: the id has been resolved. */
  predicate Found(f: Dict<string>, id: string) {
    id in f.vals && f.vals[id] != ""
  }

  /** The ids of the map still to be resolved; shrinks as `founds` grows. */
  function Pending(maps: map<string, Entry>, f: Dict<string>): set<string> {
    set id | id in maps && !Found(f, id)
  }

  /** Every resolved id of the map keeps the URL it was resolved to. */
  ghost predicate Grows(maps: map<string, Entry>, f: Dict<string>, g: Dict<string>) {
    forall id :: id in maps && Found(f, id) ==> Found(g, id) && g.vals[id] == f.vals[id]
  }

  /** A fresh session: `founds = {}`, `pkgFounds = {}` and the given cache. */
  function Start(cache: map<string, Entry>): (s: Session)
    ensures s.founds.Valid() && s.founds.keys == [] && s.pkgFounds == map[] && s.cache == cache
  {
    Session(NoKeys(), map[], cache)
  }

  /** `pkgFounds[p]` is truthy: the package's URL has been found. */
  predicate PkgFound(pkgFounds: map<string, string>, p: string) {
    p in pkgFounds && pkgFounds[p] != ""
  }

  /** Every cached entry declares the URL it is cached under. */
  ghost predicate CacheSound(cache: map<string, Entry>) {
    forall u :: u in cache ==> cache[u].url == Some(u)
  }

  /** Where the URL of a known, unresolved id comes from (index.js:57-70). */
  datatype Located = Located(url: string, s: Session, first: bool)

  /**
   * With a package: the URL already found for the package, or else the
   * package entry's URL, which is recorded in `pkgFounds` and in the cache
   * (`first`). Without one: the entry's own URL, recorded in the cache.
   */
  function Locate(maps: map<string, Entry>, id: string, s: Session): (r: Result<Located, Error>)
    requires WellFormed(maps) && id in maps
    ensures r.Ok? ==> r.value.url != "" && r.value.s.founds == s.founds
    ensures r.Err? ==> Truthy(maps[id].pkg) && r.error == MissingPkg(maps[id].pkg.value) && maps[id].pkg.value !in maps
    ensures r.Ok? && r.value.first ==> Truthy(maps[id].pkg) && !PkgFound(s.pkgFounds, maps[id].pkg.value)
    ensures r.Ok? && !r.value.first ==> r.value.s.pkgFounds == s.pkgFounds
    ensures Truthy(maps[id].pkg) && PkgFound(s.pkgFounds, maps[id].pkg.value) ==> r == Ok(Located(s.pkgFounds[maps[id].pkg.value], s, false))
    ensures r.Ok? ==> CacheSound(s.cache) ==> CacheSound(r.value.s.cache)
    ensures !Truthy(maps[id].pkg) ==> r == Ok(Located(maps[id].url.value, s.(cache := s.cache[maps[id].url.value := maps[id]]), false))
  {
    var e := maps[id];
    if Truthy(e.pkg) then
      var p := e.pkg.value;
      if PkgFound(s.pkgFounds, p) then
        Ok(Located(s.pkgFounds[p], s, false))
      else if p !in maps then
        Err(MissingPkg(p))
      else
        var u := maps[p].url.value;
        Ok(Located(u, s.(pkgFounds := s.pkgFounds[p := u], cache := s.cache[u := maps[p]]), true))
    else
      var u := e.url.value;
      Ok(Located(u, s.(cache := s.cache[u := e]), false))
  }

  /** Resolving `id` to a non-empty URL takes it off the pending set. */
  lemma PutShrinks(maps: map<string, Entry>, f: Dict<string>, id: string, url: string)
    requires id in maps && !Found(f, id) && url != ""
    ensures Pending(maps, f.Put(id, url)) < Pending(maps, f)
    ensures Grows(maps, f, f.Put(id, url))
  {
    assert id in Pending(maps, f);
  }

  /**
   * `getUrls(ids, false, nf, founds, pkgFounds)`: the URLs of `ids` and of
   * everything they reach, without repetitions (`_.uniq`, line 103).
   */
  function GetUrls(maps: map<string, Entry>, ids: seq<string>, nf: bool, s: Session): (r: Run)
    requires WellFormed(maps)
    ensures Grows(maps, s.founds, r.s.founds)
    ensures Pending(maps, r.s.founds) <= Pending(maps, s.founds)
    decreases Pending(maps, s.founds), |ids| + 2
  {
    var r := Loop(maps, ids, 0, nf, [], s);
    if r.res.Ok? then Run(Ok(Uniq(r.res.value)), r.s) else r
  }

  /**
   * The `forEach` of line 52 from the `i`-th id on, `acc` being `urls` as
   * the earlier ids left it.
   */
  function Loop(maps: map<string, Entry>, ids: seq<string>, i: nat, nf: bool, acc: seq<string>, s: Session): (r: Run)
    requires WellFormed(maps) && i <= |ids|
    ensures Grows(maps, s.founds, r.s.founds)
    ensures Pending(maps, r.s.founds) <= Pending(maps, s.founds)
    decreases Pending(maps, s.founds), |ids| - i + 1
  {
    if i == |ids| then Run(Ok(acc), s)
    else
      var v := Visit(maps, ids[i], nf, acc, s);
      if v.res.Err? then v else Loop(maps, ids, i + 1, nf, v.res.value, v.s)
  }

  /** One turn of the `forEach` body (index.js:53-100): unknown, found, or to settle. */
  function Visit(maps: map<string, Entry>, id: string, nf: bool, acc: seq<string>, s: Session): (r: Run)
    requires WellFormed(maps)
    ensures Grows(maps, s.founds, r.s.founds)
    ensures Pending(maps, r.s.founds) <= Pending(maps, s.founds)
    decreases Pending(maps, s.founds), 1
  {
    if id !in maps then
      Run(Ok(acc + [id]), if nf then s.(founds := s.founds.Put(id, id)) else s)
    else if Found(s.founds, id) then
      Run(Ok(acc + [s.founds.vals[id]]), s)
    else Settle(maps, id, nf, acc, s)
  }

  /**
   * A known id not yet in `founds` (index.js:57-100): its URL is located and
   * recorded, its `deps` and then its `asyncs` are resolved, each batch of
   * their URLs placed in front of `acc`, and its own URL is appended.
   */
  function Settle(maps: map<string, Entry>, id: string, nf: bool, acc: seq<string>, s: Session): (r: Run)
    requires WellFormed(maps) && id in maps && !Found(s.founds, id)
    ensures Grows(maps, s.founds, r.s.founds)
    ensures Pending(maps, r.s.founds) <= Pending(maps, s.founds)
    decreases Pending(maps, s.founds), 0
  {
    match Locate(maps, id, s)
    case Err(e) => Run(Err(e), s)
    case Ok(loc) =>
      PutShrinks(maps, s.founds, id, loc.url);
      var s1 := loc.s.(founds := s.founds.Put(id, loc.url));
      var d := GetUrls(maps, OrEmpty(maps[id].deps), nf, s1);
      if d.res.Err? then d
      else
        var a := GetUrls(maps, OrEmpty(maps[id].asyncs), nf, d.s);
        if a.res.Err? then a
        else if loc.first then Run(Err(UndeclaredPkg), a.s)
        else Run(Ok(a.res.value + (d.res.value + acc) + [loc.url]), a.s)
  }

  // ---------------------------------------------------------------------
  // `founds` stays a well-formed dictionary, and without `includeNotFound`
  // it only ever holds ids of the map; every `urlCache` entry declares the
  // URL it is cached under.

  /** Every key of `founds` is an id of the map. */
  ghost predicate KnownKeys(maps: map<string, Entry>, f: Dict<string>) {
    forall k :: k in f.vals ==> k in maps
  }

  lemma {:induction false} GetUrlsKeepsInvariants(maps: map<string, Entry>, ids: seq<string>, nf: bool, s: Session)
    requires WellFormed(maps) && s.founds.Valid()
    ensures GetUrls(maps, ids, nf, s).s.founds.Valid()
    ensures CacheSound(s.cache) ==> CacheSound(GetUrls(maps, ids, nf, s).s.cache)
    ensures !nf && KnownKeys(maps, s.founds) ==> KnownKeys(maps, GetUrls(maps, ids, nf, s).s.founds)
    decreases Pending(maps, s.founds), |ids| + 2
  {
    LoopKeepsInvariants(maps, ids, 0, nf, [], s);
  }

  lemma {:induction false} LoopKeepsInvariants(maps: map<string, Entry>, ids: seq<string>, i: nat, nf: bool, acc: seq<string>, s: Session)
    requires WellFormed(maps) && s.founds.Valid() && i <= |ids|
    ensures Loop(maps, ids, i, nf, acc, s).s.founds.Valid()
    ensures CacheSound(s.cache) ==> CacheSound(Loop(maps, ids, i, nf, acc, s).s.cache)
    ensures !nf && KnownKeys(maps, s.founds) ==> KnownKeys(maps, Loop(maps, ids, i, nf, acc, s).s.founds)
    decreases Pending(maps, s.founds), |ids| - i + 1
  {
    if i < |ids| {
      VisitKeepsInvariants(maps, ids[i], nf, acc, s);
      var v := Visit(maps, ids[i], nf, acc, s);
      if v.res.Ok? {
        LoopKeepsInvariants(maps, ids, i + 1, nf, v.res.value, v.s);
      }
    }
  }

  lemma {:induction false} VisitKeepsInvariants(maps: map<string, Entry>, id: string, nf: bool, acc: seq<string>, s: Session)
    requires WellFormed(maps) && s.founds.Valid()
    ensures Visit(maps, id, nf, acc, s).s.founds.Valid()
    ensures CacheSound(s.cache) ==> CacheSound(Visit(maps, id, nf, acc, s).s.cache)
    ensures !nf && KnownKeys(maps, s.founds) ==> KnownKeys(maps, Visit(maps, id, nf, acc, s).s.founds)
    decreases Pending(maps, s.founds), 1
  {
    if id !in maps {
      PutKeepsValid(s.founds, id, id);
    } else if !Found(s.founds, id) {
      SettleKeepsInvariants(maps, id, nf, acc, s);
    }
  }

  lemma {:induction false} SettleKeepsInvariants(maps: map<string, Entry>, id: string, nf: bool, acc: seq<string>, s: Session)
    requires WellFormed(maps) && s.founds.Valid() && id in maps && !Found(s.founds, id)
    ensures Settle(maps, id, nf, acc, s).s.founds.Valid()
    ensures CacheSound(s.cache) ==> CacheSound(Settle(maps, id, nf, acc, s).s.cache)
    ensures !nf && KnownKeys(maps, s.founds) ==> KnownKeys(maps, Settle(maps, id, nf, acc, s).s.founds)
    decreases Pending(maps, s.founds), 0
  {
    match Locate(maps, id, s)
    case Err(_) =>
    case Ok(loc) =>
      PutShrinks(maps, s.founds, id, loc.url);
      PutKeepsValid(s.founds, id, loc.url);
      var s1 := loc.s.(founds := s.founds.Put(id, loc.url));
      GetUrlsKeepsInvariants(maps, OrEmpty(maps[id].deps), nf, s1);
      var d := GetUrls(maps, OrEmpty(maps[id].deps), nf, s1);
      if d.res.Ok? {
        GetUrlsKeepsInvariants(maps, OrEmpty(maps[id].asyncs), nf, d.s);
      }
  }

  // ---------------------------------------------------------------------
  // Where the URLs go.

  /** The URL an id contributes once visited: its `founds` entry, or the id itself if the map lacks it. */
  ghost predicate Reached(maps: map<string, Entry>, f: Dict<string>, id: string, urls: seq<string>) {
    if id in maps then Found(f, id) && f.vals[id] in urls else id in urls
  }

  /** `urls` ends with `acc` followed by the URL `id` contributes. */
  ghost predicate Placed(maps: map<string, Entry>, f: Dict<string>, id: string, acc: seq<string>, urls: seq<string>) {
    && (id in maps ==> Found(f, id))
    && |urls| > |acc|
    && urls[|urls| - |acc| - 1..] == acc + [if id in maps then f.vals[id] else id]
  }

  /**
   * A visit keeps what was gathered and appends the id's own URL right
   * after it (index.js:100); anything the visit adds goes in front.
   */
  lemma VisitPlaces(maps: map<string, Entry>, id: string, nf: bool, acc: seq<string>, s: Session)
    requires WellFormed(maps)
    ensures var r := Visit(maps, id, nf, acc, s);
      r.res.Ok? ==> Placed(maps, r.s.founds, id, acc, r.res.value)
  {
    if id in maps && !Found(s.founds, id) {
      SettlePlaces(maps, id, nf, acc, s);
    }
  }

  /**
   * Settling an id: on success `acc` and the id's URL end the result, and
   * the URLs of all its `deps` and `asyncs` come before them.
   */
  lemma SettlePlaces(maps: map<string, Entry>, id: string, nf: bool, acc: seq<string>, s: Session)
    requires WellFormed(maps) && id in maps && !Found(s.founds, id)
    ensures var r := Settle(maps, id, nf, acc, s);
      r.res.Ok? ==> Placed(maps, r.s.founds, id, acc, r.res.value)
  {
    var r := Settle(maps, id, nf, acc, s);
    if r.res.Ok? {
      var loc := Locate(maps, id, s).value;
      var s1 := loc.s.(founds := s.founds.Put(id, loc.url));
      var d := GetUrls(maps, OrEmpty(maps[id].deps), nf, s1);
      var a := GetUrls(maps, OrEmpty(maps[id].asyncs), nf, d.s);
      assert Found(s1.founds, id) && s1.founds.vals[id] == loc.url;
      assert r.s.founds.vals[id] == loc.url;
      var v := r.res.value;
      assert v == (a.res.value + d.res.value) + (acc + [loc.url]);
    }
  }

  /** Reaching is kept as `founds` grows and as URLs are added. */
  lemma ReachedKept(maps: map<string, Entry>, f: Dict<string>, g: Dict<string>, id: string, urls: seq<string>, more: seq<string>)
    requires Reached(maps, f, id, urls) && Grows(maps, f, g)
    requires forall u :: u in urls ==> u in more
    ensures Reached(maps, g, id, more)
  {
  }

  /** Every id of `ids` has its URL among `urls`. */
  ghost predicate ReachesAll(maps: map<string, Entry>, f: Dict<string>, ids: seq<string>, urls: seq<string>) {
    forall j :: 0 <= j < |ids| ==> Reached(maps, f, ids[j], urls)
  }

  lemma ReachesAllKept(maps: map<string, Entry>, f: Dict<string>, g: Dict<string>, ids: seq<string>, urls: seq<string>, more: seq<string>)
    requires ReachesAll(maps, f, ids, urls) && Grows(maps, f, g)
    requires forall u :: u in urls ==> u in more
    ensures ReachesAll(maps, g, ids, more)
  {
    forall j | 0 <= j < |ids| ensures Reached(maps, g, ids[j], more) {
      ReachedKept(maps, f, g, ids[j], urls, more);
    }
  }

  /**
   * The loop keeps every URL gathered before it, and every id from the
   * `i`-th on has its URL among the results.
   */
  lemma {:induction false} LoopReaches(maps: map<string, Entry>, ids: seq<string>, i: nat, nf: bool, acc: seq<string>, s: Session)
    requires WellFormed(maps) && i <= |ids|
    ensures var r := Loop(maps, ids, i, nf, acc, s);
      r.res.Ok? ==>
        && (forall u :: u in acc ==> u in r.res.value)
        && (forall j :: i <= j < |ids| ==> Reached(maps, r.s.founds, ids[j], r.res.value))
    decreases |ids| - i
  {
    if i < |ids| {
      var v := Visit(maps, ids[i], nf, acc, s);
      if v.res.Ok? {
        var r := Loop(maps, ids, i + 1, nf, v.res.value, v.s);
        assert r == Loop(maps, ids, i, nf, acc, s);
        LoopReaches(maps, ids, i + 1, nf, v.res.value, v.s);
        if r.res.Ok? {
          VisitPlaces(maps, ids[i], nf, acc, s);
          PlacedReaches(maps, v.s.founds, ids[i], acc, v.res.value);
          ReachedKept(maps, v.s.founds, r.s.founds, ids[i], v.res.value, r.res.value);
        }
      }
    }
  }

  /** What `Placed` says of the gathered URLs and of the id's own. */
  lemma PlacedReaches(maps: map<string, Entry>, f: Dict<string>, id: string, acc: seq<string>, urls: seq<string>)
    requires Placed(maps, f, id, acc, urls)
    ensures Reached(maps, f, id, urls) && forall u :: u in acc ==> u in urls
  {
    var n := |urls| - |acc| - 1;
    forall u | u in acc ensures u in urls {
      var k :| 0 <= k < |acc| && acc[k] == u;
      assert urls[n..][k] == u;
    }
    assert urls[n..][|acc|] == urls[|urls| - 1];
  }

  /** Every id passed to `getUrls` has its URL in the result. */
  lemma GetUrlsReaches(maps: map<string, Entry>, ids: seq<string>, nf: bool, s: Session)
    requires WellFormed(maps)
    ensures var r := GetUrls(maps, ids, nf, s);
      r.res.Ok? ==> ReachesAll(maps, r.s.founds, ids, r.res.value)
  {
    LoopReaches(maps, ids, 0, nf, [], s);
    var l := Loop(maps, ids, 0, nf, [], s);
    var r := GetUrls(maps, ids, nf, s);
    if r.res.Ok? {
      assert ReachesAll(maps, l.s.founds, ids, l.res.value);
      ReachesAllKept(maps, l.s.founds, r.s.founds, ids, l.res.value, r.res.value);
    }
  }

  /**
   * Dependencies load first: when an id is settled, the result is the URLs
   * of its `asyncs` (index.js:78-80 prepends them last), then those of its
   * `deps` (index.js:74-76), then `acc`, then the id's own URL.
   */
  lemma SettleOrders(maps: map<string, Entry>, id: string, nf: bool, acc: seq<string>, s: Session)
    requires WellFormed(maps) && id in maps && !Found(s.founds, id)
    ensures var r := Settle(maps, id, nf, acc, s);
      r.res.Ok? ==>
        && Found(r.s.founds, id)
        && exists A, D :: && r.res.value == A + D + acc + [r.s.founds.vals[id]]
                          && ReachesAll(maps, r.s.founds, OrEmpty(maps[id].asyncs), A)
                          && ReachesAll(maps, r.s.founds, OrEmpty(maps[id].deps), D)
  {
    SettlePlaces(maps, id, nf, acc, s);
    var r := Settle(maps, id, nf, acc, s);
    if r.res.Ok? {
      var loc := Locate(maps, id, s).value;
      var s1 := loc.s.(founds := s.founds.Put(id, loc.url));
      var deps, asyncs := OrEmpty(maps[id].deps), OrEmpty(maps[id].asyncs);
      var d := GetUrls(maps, deps, nf, s1);
      var a := GetUrls(maps, asyncs, nf, d.s);
      assert r.s == a.s && r.res.value == a.res.value + d.res.value + acc + [r.s.founds.vals[id]];
      GetUrlsReaches(maps, deps, nf, s1);
      GetUrlsReaches(maps, asyncs, nf, d.s);
      ReachesAllKept(maps, d.s.founds, a.s.founds, deps, d.res.value, d.res.value);
    }
  }

  // ---------------------------------------------------------------------
  // When `getUrls` throws.

  /** No entry of the map names a package. */
  predicate Unpackaged(maps: map<string, Entry>) {
    forall id :: id in maps ==> !Truthy(maps[id].pkg)
  }

  /**
   * Every id of the map that is resolved in `g` but was not in `s` either
   * has no package or has a package whose URL `s` had already found.
   */
  ghost predicate ViaFoundPkgs(maps: map<string, Entry>, s: Session, g: Dict<string>) {
    forall id :: id in maps && Found(g, id) && !Found(s.founds, id) && Truthy(maps[id].pkg) ==>
      PkgFound(s.pkgFounds, maps[id].pkg.value)
  }

  /**
   * A package resolved for the first time always ends in a throw: the
   * entry for it is missing (line 64) or line 82 refers to `pkg`.
   */
  lemma SettleFirstPkgThrows(maps: map<string, Entry>, id: string, nf: bool, acc: seq<string>, s: Session)
    requires WellFormed(maps) && id in maps && !Found(s.founds, id)
    requires Truthy(maps[id].pkg) && !PkgFound(s.pkgFounds, maps[id].pkg.value)
    ensures Settle(maps, id, nf, acc, s).res.Err?
  {
  }

  lemma {:induction false} GetUrlsThrows(maps: map<string, Entry>, ids: seq<string>, nf: bool, s: Session)
    requires WellFormed(maps)
    ensures var r := GetUrls(maps, ids, nf, s);
      && (Unpackaged(maps) ==> r.res.Ok?)
      && (r.res.Ok? ==> r.s.pkgFounds == s.pkgFounds && ViaFoundPkgs(maps, s, r.s.founds))
    decreases Pending(maps, s.founds), |ids| + 2
  {
    LoopThrows(maps, ids, 0, nf, [], s);
  }

  lemma {:induction false} LoopThrows(maps: map<string, Entry>, ids: seq<string>, i: nat, nf: bool, acc: seq<string>, s: Session)
    requires WellFormed(maps) && i <= |ids|
    ensures var r := Loop(maps, ids, i, nf, acc, s);
      && (Unpackaged(maps) ==> r.res.Ok?)
      && (r.res.Ok? ==> r.s.pkgFounds == s.pkgFounds && ViaFoundPkgs(maps, s, r.s.founds))
    decreases Pending(maps, s.founds), |ids| - i + 1
  {
    if i < |ids| {
      VisitThrows(maps, ids[i], nf, acc, s);
      var v := Visit(maps, ids[i], nf, acc, s);
      if v.res.Ok? {
        LoopThrows(maps, ids, i + 1, nf, v.res.value, v.s);
      }
    }
  }

  lemma {:induction false} VisitThrows(maps: map<string, Entry>, id: string, nf: bool, acc: seq<string>, s: Session)
    requires WellFormed(maps)
    ensures var r := Visit(maps, id, nf, acc, s);
      && (Unpackaged(maps) ==> r.res.Ok?)
      && (r.res.Ok? ==> r.s.pkgFounds == s.pkgFounds && ViaFoundPkgs(maps, s, r.s.founds))
    decreases Pending(maps, s.founds), 1
  {
    if id in maps && !Found(s.founds, id) {
      SettleThrows(maps, id, nf, acc, s);
    }
  }

  lemma {:induction false} SettleThrows(maps: map<string, Entry>, id: string, nf: bool, acc: seq<string>, s: Session)
    requires WellFormed(maps) && id in maps && !Found(s.founds, id)
    ensures var r := Settle(maps, id, nf, acc, s);
      && (Unpackaged(maps) ==> r.res.Ok?)
      && (r.res.Ok? ==> r.s.pkgFounds == s.pkgFounds && ViaFoundPkgs(maps, s, r.s.founds))
    decreases Pending(maps, s.founds), 0
  {
    match Locate(maps, id, s)
    case Err(_) =>
    case Ok(loc) =>
      PutShrinks(maps, s.founds, id, loc.url);
      var s1 := loc.s.(founds := s.founds.Put(id, loc.url));
      GetUrlsThrows(maps, OrEmpty(maps[id].deps), nf, s1);
      var d := GetUrls(maps, OrEmpty(maps[id].deps), nf, s1);
      if d.res.Ok? {
        GetUrlsThrows(maps, OrEmpty(maps[id].asyncs), nf, d.s);
      }
  }

  /**
   * A top-level call (fresh `founds` and `pkgFounds`) succeeds only if none
   * of the ids it is given has a package; on a map without packages it
   * always succeeds.
   */
  lemma FreshGetUrlsAvoidsPackages(maps: map<string, Entry>, ids: seq<string>, nf: bool, cache: map<string, Entry>)
    requires WellFormed(maps)
    ensures var r := GetUrls(maps, ids, nf, Start(cache));
      && (r.res.Ok? ==> forall j :: 0 <= j < |ids| && ids[j] in maps ==> !Truthy(maps[ids[j]].pkg))
      && (Unpackaged(maps) ==> r.res.Ok?)
  {
    GetUrlsThrows(maps, ids, nf, Start(cache));
    GetUrlsReaches(maps, ids, nf, Start(cache));
  }

  // ---------------------------------------------------------------------
  // Memoisation through `founds`.

  /** The URLs `f` records for `ids`, in order. */
  function Recorded(f: Dict<string>, ids: seq<string>): (urls: seq<string>)
    requires forall j :: 0 <= j < |ids| ==> ids[j] in f.vals
    ensures |urls| == |ids|
  {
    if ids == [] then [] else [f.vals[ids[0]]] + Recorded(f, ids[1..])
  }

  /** A recorded URL is the URL of one of the ids. */
  lemma {:induction false} RecordedMember(f: Dict<string>, ids: seq<string>, url: string)
    requires forall j :: 0 <= j < |ids| ==> ids[j] in f.vals
    requires url in Recorded(f, ids)
    ensures exists id :: id in ids && id in f.vals && f.vals[id] == url
  {
    if f.vals[ids[0]] != url {
      RecordedMember(f, ids[1..], url);
      var id :| id in ids[1..] && id in f.vals && f.vals[id] == url;
      assert id in ids;
    }
  }

  /** One more id records one more URL, at the end. */
  lemma {:induction false} RecordedSnoc(f: Dict<string>, ids: seq<string>, id: string)
    requires forall j :: 0 <= j < |ids| ==> ids[j] in f.vals
    requires id in f.vals
    ensures Recorded(f, ids + [id]) == Recorded(f, ids) + [f.vals[id]]
  {
    if ids == [] {
      assert ids + [id] == [id];
    } else {
      assert (ids + [id])[0] == ids[0];
      assert (ids + [id])[1..] == ids[1..] + [id];
      RecordedSnoc(f, ids[1..], id);
    }
  }

  lemma {:induction false} LoopMemo(maps: map<string, Entry>, ids: seq<string>, i: nat, nf: bool, acc: seq<string>, s: Session)
    requires WellFormed(maps) && i <= |ids|
    requires forall j :: 0 <= j < |ids| ==> ids[j] in maps && Found(s.founds, ids[j])
    ensures Loop(maps, ids, i, nf, acc, s) == Run(Ok(acc + Recorded(s.founds, ids[i..])), s)
    decreases |ids| - i
  {
    if i < |ids| {
      var x := s.founds.vals[ids[i]];
      LoopMemo(maps, ids, i + 1, nf, acc + [x], s);
      assert ids[i..][1..] == ids[i + 1..];
      assert Recorded(s.founds, ids[i..]) == [x] + Recorded(s.founds, ids[i + 1..]);
      assert acc + [x] + Recorded(s.founds, ids[i + 1..]) == acc + ([x] + Recorded(s.founds, ids[i + 1..]));
    } else {
      assert acc + Recorded(s.founds, ids[i..]) == acc;
    }
  }

  /**
   * Ids already in `founds` are answered from it: the call returns their
   * recorded URLs and changes nothing (index.js:53-56).
   */
  lemma GetUrlsMemo(maps: map<string, Entry>, ids: seq<string>, nf: bool, s: Session)
    requires WellFormed(maps)
    requires forall j :: 0 <= j < |ids| ==> ids[j] in maps && Found(s.founds, ids[j])
    ensures GetUrls(maps, ids, nf, s) == Run(Ok(Uniq(Recorded(s.founds, ids))), s)
  {
    LoopMemo(maps, ids, 0, nf, [], s);
    assert ids[0..] == ids;
    assert [] + Recorded(s.founds, ids) == Recorded(s.founds, ids);
  }

  /**
   * Asking again for ids of the map that a call has resolved returns their
   * recorded URLs and leaves every piece of state as the first call left it.
   */
  lemma GetUrlsAgain(maps: map<string, Entry>, ids: seq<string>, nf: bool, s: Session)
    requires WellFormed(maps)
    requires forall j :: 0 <= j < |ids| ==> ids[j] in maps
    ensures var r := GetUrls(maps, ids, nf, s);
      r.res.Ok? ==>
        && (forall j :: 0 <= j < |ids| ==> Found(r.s.founds, ids[j]))
        && GetUrls(maps, ids, nf, r.s) == Run(Ok(Uniq(Recorded(r.s.founds, ids))), r.s)
  {
    GetUrlsReaches(maps, ids, nf, s);
    var r := GetUrls(maps, ids, nf, s);
    if r.res.Ok? {
      GetUrlsMemo(maps, ids, nf, r.s);
    }
  }
}
