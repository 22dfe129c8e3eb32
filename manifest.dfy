/**
 * `Resource.prototype.getRequireInfo` (index.js:196-222): the manifest the
 * page's module loader needs for the entry's `asyncs`. `getUrls` is run in
 * map mode over them (`returnHash`, no `includeNotFound`, fresh `founds`);
 * then every resolved id is filed under the URL it resolved to (`map`), and
 * every resolved id that declares `deps` is listed with them (`deps`).
 */
module Manifest {
  import opened Base
  import opened Entries
  import opened Resolve

  /** `{deps: deps, map: maps}`, both objects with their keys in insertion order. */
  datatype Requires = Requires(deps: Dict<seq<string>>, urlMap: Dict<seq<string>>)

  /** Every id of `ids` has a URL in `f` and an entry in the map. */
  predicate Listed(maps: map<string, Entry>, f: Dict<string>, ids: seq<string>) {
    forall id :: id in ids ==> id in f.vals && id in maps
  }

  /**
   * The `_.each(infos, ...)` of index.js:200-212 over the ids `ids` of
   * `founds`, in order: `maps[url].push(id)`, and `deps[id] = info.deps`
   * when the entry declares `deps` (an array, even an empty one, is truthy).
   */
  function Tally(maps: map<string, Entry>, f: Dict<string>, ids: seq<string>): Requires
    requires Listed(maps, f, ids)
  {
    if ids == [] then Requires(NoKeys(), NoKeys())
    else
      var id := ids[|ids| - 1];
      var p := Tally(maps, f, ids[..|ids| - 1]);
      var deps := maps[id].deps;
      Requires(if deps.Some? then p.deps.Put(id, deps.value) else p.deps, File(p.urlMap, f.vals[id], id))
  }

  /** `_.each(maps, function(ids, pkg){ maps[pkg] = _.uniq(ids); })` (index.js:214-216). */
  function UniqAll(d: Dict<seq<string>>): (r: Dict<seq<string>>)
    ensures r.keys == d.keys
    ensures forall k :: k in r.vals <==> k in d.vals
    ensures forall k :: k in d.vals ==> NoDup(r.vals[k]) && (forall x :: x in r.vals[k] <==> x in d.vals[k])
  {
    Dict(d.keys, map k | k in d.vals :: Uniq(d.vals[k]))
  }

  /**
   * `getRequireInfo(mapInfo)`: the manifest, or what `getUrls` threw; and
   * the cache that call leaves behind.
   */
  function RequireInfo(maps: map<string, Entry>, info: Entry, cache: map<string, Entry>)
    : (Result<Requires, Error>, map<string, Entry>)
    requires WellFormed(maps)
  {
    var r := GetUrls(maps, OrEmpty(info.asyncs), false, Start(cache));
    if r.res.Err? then (Err(r.res.error), r.s.cache)
    else
      GetUrlsKeepsInvariants(maps, OrEmpty(info.asyncs), false, Start(cache));
      var f := r.s.founds;
      var t := Tally(maps, f, f.keys);
      (Ok(Requires(t.deps, UniqAll(t.urlMap))), r.s.cache)
  }

  // ---------------------------------------------------------------------
  // What the manifest holds.

  /** The ids `f` resolved to `url`. */
  function ResolvesTo(f: Dict<string>, url: string): string -> bool {
    id => id in f.vals && f.vals[id] == url
  }

  /** The ids whose entry declares `deps`. */
  function Declares(maps: map<string, Entry>): string -> bool {
    id => id in maps && maps[id].deps.Some?
  }

  /** A filtered duplicate-free sequence is duplicate-free. */
  lemma {:induction false} FilterNoDup<T(!new)>(s: seq<T>, keep: T -> bool)
    requires NoDup(s)
    ensures NoDup(Filter(s, keep))
  {
    if s != [] {
      var p, x := s[..|s| - 1], s[|s| - 1];
      assert s == p + [x];
      assert NoDup(p) && x !in p;
      FilterNoDup(p, keep);
    }
  }

  /** The URL manifest has one key per URL the ids resolved to, in order of first appearance. */
  lemma {:induction false} TallyUrlKeys(maps: map<string, Entry>, f: Dict<string>, ids: seq<string>)
    requires Listed(maps, f, ids)
    ensures var m := Tally(maps, f, ids).urlMap;
      m.Valid() && m.keys == Uniq(Recorded(f, ids))
  {
    if ids == [] {
      assert Recorded(f, ids) == [];
    } else {
      var p, id := ids[..|ids| - 1], ids[|ids| - 1];
      var rp := Recorded(f, p);
      assert ids == p + [id];
      RecordedSnoc(f, p, id);
      assert (rp + [f.vals[id]])[..|rp|] == rp;
      TallyUrlKeys(maps, f, p);
      var m := Tally(maps, f, p).urlMap;
      PutKeepsValid(m, f.vals[id], Lookup(m, f.vals[id]) + [id]);
    }
  }

  /** Under each URL, the ids that resolved to it, in `ids` order; no URL without one. */
  lemma {:induction false} TallyUrlLists(maps: map<string, Entry>, f: Dict<string>, ids: seq<string>, url: string)
    requires Listed(maps, f, ids)
    ensures var m := Tally(maps, f, ids).urlMap;
      (url in m.vals ==> m.vals[url] == Filter(ids, ResolvesTo(f, url))) &&
      (url !in m.vals ==> Filter(ids, ResolvesTo(f, url)) == [])
  {
    if ids != [] {
      var p, id := ids[..|ids| - 1], ids[|ids| - 1];
      assert ids == p + [id];
      TallyUrlLists(maps, f, p, url);
      FilterAppend(p, id, ResolvesTo(f, url));
      var m := Tally(maps, f, p).urlMap;
      if f.vals[id] == url {
        assert Tally(maps, f, ids).urlMap.vals[url] == Lookup(m, url) + [id];
      } else {
        assert Tally(maps, f, ids).urlMap.vals == m.vals[f.vals[id] := Lookup(m, f.vals[id]) + [id]];
      }
    }
  }

  /** The `deps` manifest lists, in `ids` order, exactly the ids that declare `deps`. */
  lemma {:induction false} TallyDepKeys(maps: map<string, Entry>, f: Dict<string>, ids: seq<string>)
    requires Listed(maps, f, ids) && NoDup(ids)
    ensures var d := Tally(maps, f, ids).deps;
      d.Valid() && d.keys == Filter(ids, Declares(maps))
  {
    if ids != [] {
      var p, id := ids[..|ids| - 1], ids[|ids| - 1];
      assert ids == p + [id];
      assert NoDup(p) && id !in p;
      TallyDepKeys(maps, f, p);
      FilterAppend(p, id, Declares(maps));
      var d := Tally(maps, f, p).deps;
      if maps[id].deps.Some? {
        PutKeepsValid(d, id, maps[id].deps.value);
      }
    }
  }

  /** Each id in the `deps` manifest holds its entry's `deps` verbatim. */
  lemma {:induction false} TallyDepValues(maps: map<string, Entry>, f: Dict<string>, ids: seq<string>, id: string)
    requires Listed(maps, f, ids)
    ensures var d := Tally(maps, f, ids).deps;
      id in d.vals ==> id in maps && maps[id].deps == Some(d.vals[id])
  {
    if ids != [] {
      TallyDepValues(maps, f, ids[..|ids| - 1], id);
    }
  }

  /**
   * `getRequireInfo` throws exactly what its `getUrls` call throws, and
   * leaves the cache that call leaves.
   */
  lemma RequireInfoOutcome(maps: map<string, Entry>, info: Entry, cache: map<string, Entry>)
    requires WellFormed(maps)
    ensures var run := GetUrls(maps, OrEmpty(info.asyncs), false, Start(cache));
      var (r, c) := RequireInfo(maps, info, cache);
      c == run.s.cache && (r.Ok? <==> run.res.Ok?) && (r.Err? ==> r.error == run.res.error)
  {
  }

  /**
   * `map[url]`: the keys are the URLs some resolved id has, and each holds,
   * without repetition and in `founds` order, the ids resolved to it; every
   * id of `asyncs` in the map is among them.
   */
  lemma RequireInfoUrls(maps: map<string, Entry>, info: Entry, cache: map<string, Entry>, url: string)
    requires WellFormed(maps)
    ensures var run := GetUrls(maps, OrEmpty(info.asyncs), false, Start(cache));
      var f, r := run.s.founds, RequireInfo(maps, info, cache).0;
      r.Ok? ==>
        && r.value.urlMap.Valid()
        && (url in r.value.urlMap.vals <==> exists id :: id in f.vals && f.vals[id] == url)
        && (url in r.value.urlMap.vals ==>
              NoDup(r.value.urlMap.vals[url]) && r.value.urlMap.vals[url] == Filter(f.keys, ResolvesTo(f, url)))
        && forall j :: 0 <= j < |OrEmpty(info.asyncs)| && OrEmpty(info.asyncs)[j] in maps ==>
             var id := OrEmpty(info.asyncs)[j];
             id in f.vals && f.vals[id] in r.value.urlMap.vals && id in r.value.urlMap.vals[f.vals[id]]
  {
    var ids := OrEmpty(info.asyncs);
    var run := GetUrls(maps, ids, false, Start(cache));
    if run.res.Ok? {
      var f := run.s.founds;
      GetUrlsKeepsInvariants(maps, ids, false, Start(cache));
      ManifestFiles(maps, f, url);
      GetUrlsReaches(maps, ids, false, Start(cache));
      forall j | 0 <= j < |ids| && ids[j] in maps
        ensures ids[j] in f.vals && f.vals[ids[j]] in UniqAll(Tally(maps, f, f.keys).urlMap).vals
          && ids[j] in UniqAll(Tally(maps, f, f.keys).urlMap).vals[f.vals[ids[j]]]
      {
        assert Reached(maps, f, ids[j], run.res.value);
        ManifestHolds(maps, f, ids[j]);
      }
    }
  }

  /** The URL manifest of a resolved `founds`, under one URL. */
  lemma ManifestFiles(maps: map<string, Entry>, f: Dict<string>, url: string)
    requires f.Valid() && KnownKeys(maps, f)
    ensures Listed(maps, f, f.keys)
    ensures var m := UniqAll(Tally(maps, f, f.keys).urlMap);
      && m.Valid()
      && (url in m.vals <==> exists id :: id in f.vals && f.vals[id] == url)
      && (url in m.vals ==> NoDup(m.vals[url]) && m.vals[url] == Filter(f.keys, ResolvesTo(f, url)))
  {
    ManifestKeys(maps, f, url);
    ManifestList(maps, f, url);
  }

  /** The URL manifest is well formed, and has a key for exactly the URLs resolved to. */
  lemma ManifestKeys(maps: map<string, Entry>, f: Dict<string>, url: string)
    requires f.Valid() && KnownKeys(maps, f)
    ensures Listed(maps, f, f.keys)
    ensures var m := UniqAll(Tally(maps, f, f.keys).urlMap);
      m.Valid() && (url in m.vals <==> exists id :: id in f.vals && f.vals[id] == url)
  {
    assert Listed(maps, f, f.keys);
    var t := Tally(maps, f, f.keys);
    TallyUrlKeys(maps, f, f.keys);
    if url in t.urlMap.vals {
      assert url in Recorded(f, f.keys);
      RecordedMember(f, f.keys, url);
    }
    forall id | id in f.vals && f.vals[id] == url ensures url in t.urlMap.vals {
      TallyUrlLists(maps, f, f.keys, url);
      assert id in Filter(f.keys, ResolvesTo(f, url));
    }
  }

  /** Under a URL the manifest lists once each, in `founds` order, the ids resolved to it. */
  lemma ManifestList(maps: map<string, Entry>, f: Dict<string>, url: string)
    requires f.Valid() && KnownKeys(maps, f)
    ensures Listed(maps, f, f.keys)
    ensures var m := UniqAll(Tally(maps, f, f.keys).urlMap);
      url in m.vals ==> NoDup(m.vals[url]) && m.vals[url] == Filter(f.keys, ResolvesTo(f, url))
  {
    assert Listed(maps, f, f.keys);
    var t := Tally(maps, f, f.keys);
    TallyUrlLists(maps, f, f.keys, url);
    if url in t.urlMap.vals {
      FilterNoDup(f.keys, ResolvesTo(f, url));
      UniqOfNoDup(t.urlMap.vals[url]);
    }
  }

  /** Every resolved id is filed under the URL it resolved to. */
  lemma ManifestHolds(maps: map<string, Entry>, f: Dict<string>, id: string)
    requires f.Valid() && KnownKeys(maps, f) && id in f.vals
    ensures Listed(maps, f, f.keys)
    ensures var m := UniqAll(Tally(maps, f, f.keys).urlMap);
      f.vals[id] in m.vals && id in m.vals[f.vals[id]]
  {
    TallyUrlLists(maps, f, f.keys, f.vals[id]);
    assert id in Filter(f.keys, ResolvesTo(f, f.vals[id]));
  }

  /**
   * `deps`: exactly the resolved ids whose entry declares `deps`, in
   * `founds` order, each with its declared list verbatim.
   */
  lemma RequireInfoDeps(maps: map<string, Entry>, info: Entry, cache: map<string, Entry>, id: string)
    requires WellFormed(maps)
    ensures var run := GetUrls(maps, OrEmpty(info.asyncs), false, Start(cache));
      var f, r := run.s.founds, RequireInfo(maps, info, cache).0;
      r.Ok? ==>
        && r.value.deps.Valid()
        && r.value.deps.keys == Filter(f.keys, Declares(maps))
        && (id in r.value.deps.vals <==> id in f.vals && id in maps && maps[id].deps.Some?)
        && (id in r.value.deps.vals ==> maps[id].deps == Some(r.value.deps.vals[id]))
  {
    var ids := OrEmpty(info.asyncs);
    var run := GetUrls(maps, ids, false, Start(cache));
    if run.res.Ok? {
      var f := run.s.founds;
      GetUrlsKeepsInvariants(maps, ids, false, Start(cache));
      TallyDepKeys(maps, f, f.keys);
      TallyDepValues(maps, f, f.keys, id);
    }
  }

  /**
   * The `_.uniq` pass of index.js:214-216 changes nothing: `founds` lists
   * every id once, so no id is filed twice.
   */
  lemma UniqAllKeeps(maps: map<string, Entry>, f: Dict<string>, ids: seq<string>)
    requires Listed(maps, f, ids) && NoDup(ids)
    ensures UniqAll(Tally(maps, f, ids).urlMap) == Tally(maps, f, ids).urlMap
  {
    var m := Tally(maps, f, ids).urlMap;
    forall url | url in m.vals ensures Uniq(m.vals[url]) == m.vals[url] {
      TallyUrlLists(maps, f, ids, url);
      FilterNoDup(ids, ResolvesTo(f, url));
      UniqOfNoDup(m.vals[url]);
    }
    assert UniqAll(m).vals == m.vals;
  }
}
