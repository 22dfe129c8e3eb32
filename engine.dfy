/**
 * The `Resource` object of index.js: the resource map, the options, and the
 * `urlCache` every `getUrls` call writes into and `getThreeUrls` reads.
 * Each method is proved equal to the function that specifies it; the
 * properties of those functions are proved in their own modules.
 */
module Engine {
  import opened Base
  import opened Entries
  import opened Resolve
  import opened Inherit
  import opened Combo
  import opened Three
  import opened Manifest
  import opened Page

  class Resource {
    const maps: map<string, Entry>
    const combo: Option<Combo>        // `options.combo`
    var urlCache: map<string, Entry>

    /** `new Resource(maps, options)` (index.js:19-23). */
    constructor(maps: map<string, Entry>, combo: Option<Combo>)
      ensures this.maps == maps && this.combo == combo && urlCache == map[]
    {
      this.maps := maps;
      this.combo := combo;
      urlCache := map[];
    }

    /**
     * `getUrls(ids, returnHash, nf, founds, pkgFounds)` (index.js:48-104):
     * returns both the de-duplicated URLs and the final `founds` and
     * `pkgFounds`; `returnHash` picks `founds'` instead of the URLs.
     */
    method GetUrls(ids: seq<string>, nf: bool, founds: Dict<string>, pkgFounds: map<string, string>)
      returns (res: Result<seq<string>, Error>, founds': Dict<string>, pkgFounds': map<string, string>)
      requires WellFormed(maps)
      modifies this
      ensures Run(res, Session(founds', pkgFounds', urlCache))
        == Resolve.GetUrls(maps, ids, nf, Session(founds, pkgFounds, old(urlCache)))
      decreases Pending(maps, founds), |ids| + 2
    {
      var urls: seq<string> := [];
      founds', pkgFounds' := founds, pkgFounds;
      var i := 0;
      while i < |ids|
        invariant 0 <= i <= |ids|
        invariant Pending(maps, founds') <= Pending(maps, founds)
        invariant Loop(maps, ids, 0, nf, [], Session(founds, pkgFounds, old(urlCache)))
          == Loop(maps, ids, i, nf, urls, Session(founds', pkgFounds', urlCache))
      {
        var r;
        r, founds', pkgFounds' := Visit(ids[i], nf, urls, founds', pkgFounds');
        if r.Err? {
          return r, founds', pkgFounds';
        }
        urls := r.value;
        i := i + 1;
      }
      res := Ok(Uniq(urls));
    }

    /** One turn of the `forEach` of index.js:52-101, `acc` being `urls`. */
    method Visit(id: string, nf: bool, acc: seq<string>, founds: Dict<string>, pkgFounds: map<string, string>)
      returns (res: Result<seq<string>, Error>, founds': Dict<string>, pkgFounds': map<string, string>)
      requires WellFormed(maps)
      modifies this
      ensures Run(res, Session(founds', pkgFounds', urlCache))
        == Resolve.Visit(maps, id, nf, acc, Session(founds, pkgFounds, old(urlCache)))
      decreases Pending(maps, founds), 1
    {
      founds', pkgFounds' := founds, pkgFounds;
      if id !in maps {
        if nf {
          founds' := founds.Put(id, id);
        }
        res := Ok(acc + [id]);
      } else if Found(founds, id) {
        res := Ok(acc + [founds.vals[id]]);
      } else {
        res, founds', pkgFounds' := Settle(id, nf, acc, founds, pkgFounds);
      }
    }

    /** index.js:57-100 for a known id that `founds` does not hold yet. */
    method Settle(id: string, nf: bool, acc: seq<string>, founds: Dict<string>, pkgFounds: map<string, string>)
      returns (res: Result<seq<string>, Error>, founds': Dict<string>, pkgFounds': map<string, string>)
      requires WellFormed(maps) && id in maps && !Found(founds, id)
      modifies this
      ensures Run(res, Session(founds', pkgFounds', urlCache))
        == Resolve.Settle(maps, id, nf, acc, Session(founds, pkgFounds, old(urlCache)))
      decreases Pending(maps, founds), 0
    {
      founds', pkgFounds' := founds, pkgFounds;
      var info := maps[id];
      var url: string;
      var first := false;
      if Truthy(info.pkg) {
        var pkgName := info.pkg.value;
        if pkgName in pkgFounds && pkgFounds[pkgName] != "" {
          url := pkgFounds[pkgName];
        } else {
          if pkgName !in maps {
            return Err(MissingPkg(pkgName)), founds', pkgFounds';
          }
          url := maps[pkgName].url.value;
          pkgFounds' := pkgFounds'[pkgName := url];
          urlCache := urlCache[url := maps[pkgName]];
          first := true;
        }
      } else {
        url := info.url.value;
        urlCache := urlCache[url := info];
      }
      PutShrinks(maps, founds, id, url);
      founds' := founds.Put(id, url);
      var urls := acc;
      var sub;
      sub, founds', pkgFounds' := GetUrls(OrEmpty(info.deps), nf, founds', pkgFounds');
      if sub.Err? {
        return sub, founds', pkgFounds';
      }
      urls := sub.value + urls;
      sub, founds', pkgFounds' := GetUrls(OrEmpty(info.asyncs), nf, founds', pkgFounds');
      if sub.Err? {
        return sub, founds', pkgFounds';
      }
      urls := sub.value + urls;
      if first {
        return Err(UndeclaredPkg), founds', pkgFounds';
      }
      res := Ok(urls + [url]);
    }

    /**
     * `getThreeUrls(mapInfo)` (index.js:106-194): the three lists, or what
     * was thrown, with `urlCache` left as the resolutions left it.
     */
    method GetThreeUrls(info: Entry) returns (r: Result<map<Key, seq<string>>, Error>)
      requires WellFormed(maps)
      modifies this
      ensures (r, urlCache) == ThreeUrls(maps, info, old(urlCache), combo)
    {
      var g := CollectUrls(info);
      if g.Err? {
        return Err(g.error);
      }
      var (all, inJsCss) := g.value;
      r := PassUrls(all[Css := all[Css] + inJsCss]);
    }

    /** The `RESOURCES_TYPE.forEach` of index.js:110-125: `allUrls` and `inJsCss`. */
    method CollectUrls(info: Entry) returns (g: Result<(map<Key, seq<string>>, seq<string>), Error>)
      requires WellFormed(maps)
      modifies this
      ensures Gathered(g, urlCache) == Collect(maps, info, 0, map[], [], old(urlCache))
    {
      var inJsCss: seq<string> := [];
      var all: map<Key, seq<string>> := map[];
      for i := 0 to |RESOURCES_TYPE|
        invariant Collect(maps, info, 0, map[], [], old(urlCache)) == Collect(maps, info, i, all, inJsCss, urlCache)
      {
        var t := RESOURCES_TYPE[i];
        var res, _, _ := GetUrls(OrEmpty(info.Get(t)), true, NoKeys(), map[]);
        if res.Err? {
          return Err(res.error);
        }
        var urls := res.value;
        if t != Css {
          var moved;
          urls, moved := SpliceCss(urlCache, urls);
          inJsCss := inJsCss + moved;
        }
        all := all[t := urls];
      }
      g := Ok((all, inJsCss));
    }

    /** The `_.each(allUrls, ...)` of index.js:133-191: every list de-duplicated, then combined. */
    method PassUrls(all: map<Key, seq<string>>) returns (r: Result<map<Key, seq<string>>, Error>)
      requires forall t :: t in RESOURCES_TYPE ==> t in all
      ensures r == Finish(all, 0, urlCache, combo)
    {
      var lists := all;
      for i := 0 to |RESOURCES_TYPE|
        invariant forall t :: t in RESOURCES_TYPE ==> t in lists
        invariant Finish(all, 0, urlCache, combo) == Finish(lists, i, urlCache, combo)
      {
        var t := RESOURCES_TYPE[i];
        var passed := PassUrl(lists[t]);
        if passed.Err? {
          return Err(passed.error);
        }
        lists := lists[t := passed.value];
      }
      r := Ok(lists);
    }

    /** One turn of that `_.each`: `_.uniq`, then the combo step when `options.combo` is set. */
    method PassUrl(urls: seq<string>) returns (r: Result<seq<string>, Error>)
      ensures r == Pass(urls, urlCache, combo)
    {
      var unique := Uniq(urls);
      if combo.None? {
        return Ok(unique);
      }
      r := CombineUrls(urlCache, combo.value, unique);
    }

    /**
     * `getRequireInfo(mapInfo)` (index.js:196-222): the `deps` and `map`
     * manifests of the entry's `asyncs`, or what was thrown.
     */
    method GetRequireInfo(info: Entry) returns (r: Result<Requires, Error>)
      requires WellFormed(maps)
      modifies this
      ensures (r, urlCache) == RequireInfo(maps, info, old(urlCache))
    {
      var res, founds, _ := GetUrls(OrEmpty(info.asyncs), false, NoKeys(), map[]);
      if res.Err? {
        return Err(res.error);
      }
      GetUrlsKeepsInvariants(maps, OrEmpty(info.asyncs), false, Start(old(urlCache)));
      var tally := TallyIds(founds);
      r := Ok(Requires(tally.deps, UniqAll(tally.urlMap)));
    }

    /** The `_.each(infos, ...)` of index.js:200-212. */
    method TallyIds(founds: Dict<string>) returns (r: Requires)
      requires Listed(maps, founds, founds.keys)
      ensures r == Tally(maps, founds, founds.keys)
    {
      var deps: Dict<seq<string>> := NoKeys();
      var urlMap: Dict<seq<string>> := NoKeys();
      for i := 0 to |founds.keys|
        invariant Requires(deps, urlMap) == Tally(maps, founds, founds.keys[..i])
      {
        var id := founds.keys[i];
        assert founds.keys[..i + 1] == founds.keys[..i] + [id];
        var url := founds.vals[id];
        urlMap := urlMap.Put(url, Lookup(urlMap, url) + [id]);
        if maps[id].deps.Some? {
          deps := deps.Put(id, maps[id].deps.value);
        }
      }
      assert founds.keys[..|founds.keys|] == founds.keys;
      r := Requires(deps, urlMap);
    }

    /**
     * `getResourceInfo(id)` (index.js:224-257): the entry flattened and
     * edited for a pagelet or for the loader, then its three lists and its
     * manifest; or what was thrown.
     */
    method GetResourceInfo(id: string) returns (r: Result<Info, Error>)
      requires WellFormed(maps) && Acyclic(maps)
      modifies this
      ensures (r, urlCache) == ResourceInfo(maps, id, old(urlCache), combo)
    {
      var info, pageletAsyncs := PrepareEntry(MapInfo(maps, id));
      var three := GetThreeUrls(info);
      if three.Err? {
        return Err(three.error);
      }
      var required := GetRequireInfo(info);
      if required.Err? {
        return Err(required.error);
      }
      r := Ok(Info(three.value, required.value, pageletAsyncs));
    }
  }
}
