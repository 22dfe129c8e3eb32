/**
 * `Resource.prototype.getResourceInfo` (index.js:224-257): everything a page
 * or pagelet needs. The entry is flattened with its refs; a pagelet hands
 * its `headJs`, `bottomJs` and `css` over to `asyncs` (and reports them as
 * `pageletAsyncs`); any other entry with `asyncs` gets the module loader
 * `static/feather.js` in front of its `headJs`. Then `getThreeUrls` and
 * `getRequireInfo` run on the edited entry, in that order, sharing the cache.
 */
module Page {
  import opened Base
  import opened Entries
  import opened Inherit
  import opened Resolve
  import opened Combo
  import opened Three
  import opened Manifest

  /** `{threeUrls, requires}` (`required` here), with `pageletAsyncs` for a pagelet. */
  datatype Info = Info(threeUrls: map<Key, seq<string>>, required: Requires, pageletAsyncs: Option<seq<string>>)

  /**
   * The `RESOURCES_TYPE.forEach` of index.js:229-234 from the `i`-th type
   * on: a present list is appended to `moved` and replaced by `[]`.
   */
  function Strip(e: Entry, i: nat, moved: seq<string>): (Entry, seq<string>)
    requires i <= |RESOURCES_TYPE|
    decreases |RESOURCES_TYPE| - i
  {
    if i == |RESOURCES_TYPE| then (e, moved)
    else
      var t := RESOURCES_TYPE[i];
      Strip(Emptied(e, t), i + 1, moved + OrEmpty(e.Get(t)))
  }

  /**
   * index.js:225-245: the entry `getThreeUrls` and `getRequireInfo` are
   * given, and `pageletAsyncs` for a pagelet. A pagelet's three lists are
   * emptied (an absent one stays absent) and their concatenation follows its
   * `asyncs`; any other entry with `asyncs` (even `[]`) has the loader put
   * first in its `headJs`. Nothing else changes.
   */
  function Prepare(e: Entry): (r: (Entry, Option<seq<string>>))
    ensures Flag(e.isPagelet) ==>
      var moved := OrEmpty(e.headJs) + OrEmpty(e.bottomJs) + OrEmpty(e.css);
      && r.1 == Some(moved)
      && (forall t :: t in RESOURCES_TYPE ==> r.0.Get(t) == if e.Get(t).Some? then Some([]) else None)
      && r.0.asyncs == Some(OrEmpty(e.asyncs) + moved)
    ensures !Flag(e.isPagelet) ==>
      && r.1 == None
      && (e.asyncs.Some? ==> r.0.headJs == Some([FEATHER_LOADER] + OrEmpty(e.headJs)))
      && (e.asyncs.None? ==> r.0.headJs == e.headJs)
      && (forall t :: t != HeadJs ==> r.0.Get(t) == e.Get(t))
    ensures r.0.Scalars() == e.Scalars() && r.0.Get(Deps) == e.Get(Deps) && r.0.Get(Refs) == e.Get(Refs)
      && r.0.Get(Has) == e.Get(Has)
  {
    var pagelet := Flag(e.isPagelet);
    var (e1, moved) := if pagelet then Strip(e, 0, []) else (e, []);
    if pagelet then
      StripAll(e);
      (e1.Set(Asyncs, Some(OrEmpty(e1.asyncs) + moved)), Some(moved))
    else if e.asyncs.Some? then
      (e.Set(HeadJs, Some([FEATHER_LOADER] + OrEmpty(e.headJs))), None)
    else (e, None)
  }

  /** The whole `forEach`: the three lists moved in `RESOURCES_TYPE` order. */
  lemma StripAll(e: Entry)
    ensures var (e', moved) := Strip(e, 0, []);
      && moved == OrEmpty(e.headJs) + OrEmpty(e.bottomJs) + OrEmpty(e.css)
      && (forall t :: t in RESOURCES_TYPE ==> e'.Get(t) == if e.Get(t).Some? then Some([]) else None)
      && (forall t :: t !in RESOURCES_TYPE ==> e'.Get(t) == e.Get(t))
      && e'.Scalars() == e.Scalars()
  {
    var e1 := Emptied(e, HeadJs);
    var e2 := Emptied(e1, BottomJs);
    var e3 := Emptied(e2, Css);
    var moved := OrEmpty(e.headJs) + OrEmpty(e.bottomJs) + OrEmpty(e.css);
    assert Strip(e, 0, []) == (e3, moved) by {
      assert RESOURCES_TYPE[0] == HeadJs && RESOURCES_TYPE[1] == BottomJs && RESOURCES_TYPE[2] == Css;
      var m1 := [] + OrEmpty(e.headJs);
      var m2 := m1 + OrEmpty(e1.bottomJs);
      assert Strip(e, 0, []) == Strip(e1, 1, m1);
      assert Strip(e1, 1, m1) == Strip(e2, 2, m2);
      assert Strip(e2, 2, m2) == Strip(e3, 3, m2 + OrEmpty(e2.css));
      assert m2 + OrEmpty(e2.css) == moved;
    }
    forall t | t in RESOURCES_TYPE ensures e3.Get(t) == if e.Get(t).Some? then Some([]) else None {
      assert t == HeadJs || t == BottomJs || t == Css;
    }
  }

  /** The entry after one turn of the `forEach` on `t`. */
  function Emptied(e: Entry, t: Key): (r: Entry)
    ensures r.Get(t) == if e.Get(t).Some? then Some([]) else None
    ensures forall k :: k != t ==> r.Get(k) == e.Get(k)
    ensures r.Scalars() == e.Scalars()
  {
    if e.Get(t).Some? then e.Set(t, Some([])) else e
  }

  /**
   * `getResourceInfo(id)`: what it returns or throws, and the cache it
   * leaves; `getRequireInfo` runs only after `getThreeUrls` returned.
   */
  function ResourceInfo(maps: map<string, Entry>, id: string, cache: map<string, Entry>, combo: Option<Combo>)
    : (Result<Info, Error>, map<string, Entry>)
    requires WellFormed(maps) && Acyclic(maps)
  {
    var (info, pageletAsyncs) := Prepare(MapInfo(maps, id));
    var (three, c1) := ThreeUrls(maps, info, cache, combo);
    if three.Err? then (Err(three.error), c1)
    else
      var (req, c2) := RequireInfo(maps, info, c1);
      if req.Err? then (Err(req.error), c2)
      else (Ok(Info(three.value, req.value, pageletAsyncs)), c2)
  }

  /** The combo step on an empty list yields an empty list. */
  lemma CombineNothing(cache: map<string, Entry>, k: Combo)
    ensures Combine(cache, k, []) == Ok([])
  {
    assert Group(Mergeable(cache, k, [])) == Ok(NoKeys());
  }

  /** Resolving no ids yields no URLs and leaves the cache alone. */
  lemma NothingToResolve(maps: map<string, Entry>, e: Entry, t: Key, cache: map<string, Entry>)
    requires WellFormed(maps) && OrEmpty(e.Get(t)) == []
    ensures TypeUrls(maps, e, t, cache) == Run(Ok([]), Start(cache))
  {
    assert Loop(maps, [], 0, true, [], Start(cache)) == Run(Ok([]), Start(cache));
    assert Uniq<string>([]) == [];
  }

  /** Three empty lists. */
  const NoUrls: map<Key, seq<string>> := map[HeadJs := [], BottomJs := [], Css := []]

  /**
   * A pagelet's `getThreeUrls` cannot throw: the three lists it is given
   * are empty, so it returns three empty lists and leaves the cache as it
   * was, with or without combo.
   */
  lemma PageletThreeUrls(maps: map<string, Entry>, info: Entry, cache: map<string, Entry>, combo: Option<Combo>)
    requires WellFormed(maps) && Flag(info.isPagelet)
    ensures ThreeUrls(maps, Prepare(info).0, cache, combo) == (Ok(NoUrls), cache)
  {
    var e := Prepare(info).0;
    assert HeadJs in RESOURCES_TYPE && BottomJs in RESOURCES_TYPE && Css in RESOURCES_TYPE;
    CollectNothing(maps, e, cache);
    NothingMoved();
    FinishNothing(cache, combo);
  }

  /** The collecting loop over three empty lists. */
  lemma CollectNothing(maps: map<string, Entry>, e: Entry, cache: map<string, Entry>)
    requires WellFormed(maps)
    requires OrEmpty(e.headJs) == [] && OrEmpty(e.bottomJs) == [] && OrEmpty(e.css) == []
    ensures Collect(maps, e, 0, map[], [], cache) == Gathered(Ok((NoUrls, [])), cache)
  {
    assert RESOURCES_TYPE[0] == HeadJs && RESOURCES_TYPE[1] == BottomJs && RESOURCES_TYPE[2] == Css;
    NothingToResolve(maps, e, HeadJs, cache);
    NothingToResolve(maps, e, BottomJs, cache);
    NothingToResolve(maps, e, Css, cache);
    var m1: map<Key, seq<string>> := map[HeadJs := []];
    var m2 := m1[BottomJs := []];
    assert NonCss(cache, []) == [] && CssOf(cache, []) == [];
    assert Start(cache).cache == cache;
    var none: seq<string> := [];
    assert none + none == none;
    assert Collect(maps, e, 0, map[], none, cache) == Collect(maps, e, 1, m1, none, cache);
    assert Collect(maps, e, 1, m1, none, cache) == Collect(maps, e, 2, m2, none, cache);
    assert Collect(maps, e, 2, m2, none, cache) == Collect(maps, e, 3, m2[Css := []], none, cache);
    assert Collect(maps, e, 3, m2[Css := []], none, cache) == Gathered(Ok((m2[Css := []], none)), cache);
    assert m2[Css := []] == NoUrls;
  }

  /** Appending no moved CSS to three empty lists. */
  lemma NothingMoved()
    ensures NoUrls[Css := NoUrls[Css] + []] == NoUrls
  {
    assert NoUrls[Css] + [] == [];
  }

  /** The de-duplicating and combo pass over three empty lists. */
  lemma FinishNothing(cache: map<string, Entry>, combo: Option<Combo>)
    ensures Finish(NoUrls, 0, cache, combo) == Ok(NoUrls)
  {
    assert Uniq<string>([]) == [];
    if combo.Some? {
      CombineNothing(cache, combo.value);
    }
    assert Pass([], cache, combo) == Ok([]);
    FinishPasses(NoUrls, cache, combo);
    assert NoUrls[HeadJs := []][BottomJs := []][Css := []] == NoUrls;
  }

  /**
   * For a pagelet, `getResourceInfo` returns three empty lists, the
   * `getRequireInfo` of the entry whose `asyncs` took everything over, and
   * `pageletAsyncs`; it throws only what that `getRequireInfo` throws.
   */
  lemma PageletInfo(maps: map<string, Entry>, id: string, cache: map<string, Entry>, combo: Option<Combo>)
    requires WellFormed(maps) && Acyclic(maps) && Flag(MapInfo(maps, id).isPagelet)
    ensures var (info, pageletAsyncs) := Prepare(MapInfo(maps, id));
      var (req, c) := RequireInfo(maps, info, cache);
      ResourceInfo(maps, id, cache, combo)
        == (if req.Ok? then Ok(Info(NoUrls, req.value, pageletAsyncs)) else Err(req.error), c)
  {
    PageletThreeUrls(maps, MapInfo(maps, id), cache, combo);
  }

  /**
   * Any other entry with `asyncs` loads the loader from its `headJs`: the
   * first id `getThreeUrls` resolves for it is `static/feather.js`, whose
   * URL (itself when the map lacks it) is among those resolved.
   */
  lemma LoaderResolved(maps: map<string, Entry>, info: Entry, cache: map<string, Entry>)
    requires WellFormed(maps) && !Flag(info.isPagelet) && info.asyncs.Some?
    ensures var h := TypeUrls(maps, Prepare(info).0, HeadJs, cache);
      && OrEmpty(Prepare(info).0.headJs)[0] == FEATHER_LOADER
      && (h.res.Ok? ==> Reached(maps, h.s.founds, FEATHER_LOADER, h.res.value))
  {
    var ids := OrEmpty(Prepare(info).0.headJs);
    GetUrlsReaches(maps, ids, true, Start(cache));
  }

  /** index.js:225-245 on `mapInfo` in place: the pagelet hand-over, or the loader. */
  method PrepareEntry(e: Entry) returns (info: Entry, pageletAsyncs: Option<seq<string>>)
    ensures (info, pageletAsyncs) == Prepare(e)
  {
    info := e;
    var isPagelet := info.isPagelet == Some(true);
    var moved: seq<string> := [];
    if isPagelet {
      for i := 0 to |RESOURCES_TYPE|
        invariant Strip(e, 0, []) == Strip(info, i, moved)
      {
        var t := RESOURCES_TYPE[i];
        ghost var before, was := info, moved;
        if info.Get(t).Some? {
          moved := moved + info.Get(t).value;
          info := info.Set(t, Some([]));
        }
        assert info == Emptied(before, t) && moved == was + OrEmpty(before.Get(t));
      }
      info := info.Set(Asyncs, Some(OrEmpty(info.asyncs) + moved));
    }
    if info.asyncs.Some? && !isPagelet {
      if info.headJs.Some? {
        info := info.Set(HeadJs, Some([FEATHER_LOADER] + info.headJs.value));
      } else {
        info := info.Set(HeadJs, Some([FEATHER_LOADER]));
        assert [FEATHER_LOADER] == [FEATHER_LOADER] + OrEmpty(e.headJs);
      }
    }
    pageletAsyncs := if isPagelet then Some(moved) else None;
  }
}
