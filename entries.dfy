/**
 * The resource map and its entries (index.js:19-27), and the merge helper
 * that overrides `_.extend` (index.js:3-17).
 *
 * A map entry is a JavaScript object whose keys may be absent; every key is
 * an `Option` here so that "absent" and "present but empty" stay apart (an
 * empty array is truthy in JavaScript, so `asyncs: []` counts as present).
 */
module Entries {
  import opened Base

  datatype Entry = Entry(
    url: Option<string>,
    kind: Option<string>,           // the `type` key, e.g. "css"
    pkg: Option<string>,
    isPkg: Option<bool>,
    isPagelet: Option<bool>,
    useJsWraper: Option<bool>,
    refs: Option<seq<string>>,
    has: Option<seq<string>>,
    headJs: Option<seq<string>>,
    bottomJs: Option<seq<string>>,
    css: Option<seq<string>>,
    asyncs: Option<seq<string>>,
    deps: Option<seq<string>>)
  {
    /** The array stored under a list-valued key. */
    function Get(k: Key): Option<seq<string>> {
      match k
      case HeadJs => headJs
      case BottomJs => bottomJs
      case Css => css
      case Asyncs => asyncs
      case Deps => deps
      case Refs => refs
      case Has => has
    }

    /** The entry with the array under `k` replaced. */
    function Set(k: Key, v: Option<seq<string>>): (e: Entry)
      ensures e.Get(k) == v
      ensures forall k' :: k' != k ==> e.Get(k') == Get(k')
      ensures e.Scalars() == Scalars()
    {
      match k
      case HeadJs => this.(headJs := v)
      case BottomJs => this.(bottomJs := v)
      case Css => this.(css := v)
      case Asyncs => this.(asyncs := v)
      case Deps => this.(deps := v)
      case Refs => this.(refs := v)
      case Has => this.(has := v)
    }

    /** The scalar keys of the entry, for stating what a change leaves alone. */
    function Scalars(): (Option<string>, Option<string>, Option<string>, Option<bool>, Option<bool>, Option<bool>) {
      (url, kind, pkg, isPkg, isPagelet, useJsWraper)
    }
  }

  /** The list-valued keys an entry may carry. */
  datatype Key = HeadJs | BottomJs | Css | Asyncs | Deps | Refs | Has

  /** `{}` */
  const Empty := Entry(None, None, None, None, None, None, None, None, None, None, None, None, None)

  /** `Resource.CONCATS_TYPE`: the keys an entry inherits from its refs. */
  const CONCATS_TYPE: seq<Key> := [HeadJs, BottomJs, Css, Asyncs, Deps]

  /** `Resource.RESOURCES_TYPE`: the keys that hold loadable resources. */
  const RESOURCES_TYPE: seq<Key> := [HeadJs, BottomJs, Css]

  /** `Resource.FEATHER_LOADER`: the client loader injected for async modules. */
  const FEATHER_LOADER := "static/feather.js"

  /** JavaScript truthiness of an optional string: present and not "". */
  predicate Truthy(s: Option<string>) {
    s.Some? && s.value != ""
  }

  /** JavaScript truthiness of an optional boolean flag. */
  predicate Flag(b: Option<bool>) {
    b == Some(true)
  }

  /** The array under a key, `[]` when the key is absent (`x || []`). */
  function OrEmpty(s: Option<seq<string>>): seq<string> {
    if s.Some? then s.value else []
  }

  /**
   * `_.extend(source, sup)` for an array `sup`: `sup` is pushed onto
   * `source` (a fresh array when `source` is absent). An absent `sup` is a
   * key the object merge never visits, so `source` is kept.
   */
  function ExtendList(source: Option<seq<string>>, sup: Option<seq<string>>): (r: Option<seq<string>>)
    ensures r.Some? <==> source.Some? || sup.Some?
    ensures OrEmpty(r) == OrEmpty(source) + OrEmpty(sup)
    ensures source.None? ==> r == sup
  {
    match sup
    case None => source
    case Some(more) => assert [] + more == more; Some(OrEmpty(source) + more)
  }

  /** `_.extend(source, sup)` for a scalar `sup`: the scalar wins when present. */
  function ExtendScalar<T>(source: Option<T>, sup: Option<T>): (r: Option<T>)
    ensures sup.Some? ==> r == sup
    ensures sup.None? ==> r == source
  {
    if sup.Some? then sup else source
  }

  /**
   * `_.extend(source, sup)` for an object `sup`: every key of `sup` is merged
   * into `source` in turn, arrays appended and scalars overwritten.
   */
  function Extend(source: Entry, sup: Entry): Entry {
    Entry(
      ExtendScalar(source.url, sup.url),
      ExtendScalar(source.kind, sup.kind),
      ExtendScalar(source.pkg, sup.pkg),
      ExtendScalar(source.isPkg, sup.isPkg),
      ExtendScalar(source.isPagelet, sup.isPagelet),
      ExtendScalar(source.useJsWraper, sup.useJsWraper),
      ExtendList(source.refs, sup.refs),
      ExtendList(source.has, sup.has),
      ExtendList(source.headJs, sup.headJs),
      ExtendList(source.bottomJs, sup.bottomJs),
      ExtendList(source.css, sup.css),
      ExtendList(source.asyncs, sup.asyncs),
      ExtendList(source.deps, sup.deps))
  }

  /**
   * Merging an object appends under every list key: the merged array is the
   * old one followed by the new one, and it is present when either is.
   */
  lemma ExtendMerges(source: Entry, sup: Entry, k: Key)
    ensures OrEmpty(Extend(source, sup).Get(k)) == OrEmpty(source.Get(k)) + OrEmpty(sup.Get(k))
    ensures Extend(source, sup).Get(k).Some? <==> source.Get(k).Some? || sup.Get(k).Some?
    ensures sup.Get(k).None? ==> Extend(source, sup).Get(k) == source.Get(k)
    ensures source.Get(k).None? ==> Extend(source, sup).Get(k) == sup.Get(k)
  {
    match k
    case HeadJs => assert Extend(source, sup).Get(k) == ExtendList(source.headJs, sup.headJs);
    case BottomJs => assert Extend(source, sup).Get(k) == ExtendList(source.bottomJs, sup.bottomJs);
    case Css => assert Extend(source, sup).Get(k) == ExtendList(source.css, sup.css);
    case Asyncs => assert Extend(source, sup).Get(k) == ExtendList(source.asyncs, sup.asyncs);
    case Deps => assert Extend(source, sup).Get(k) == ExtendList(source.deps, sup.deps);
    case Refs => assert Extend(source, sup).Get(k) == ExtendList(source.refs, sup.refs);
    case Has => assert Extend(source, sup).Get(k) == ExtendList(source.has, sup.has);
  }

  /** Scalars merge by overwriting: an object without scalars keeps the old ones, and onto `{}` the new ones are copied. */
  lemma ExtendScalars(source: Entry, sup: Entry)
    ensures sup.Scalars() == Empty.Scalars() ==> Extend(source, sup).Scalars() == source.Scalars()
    ensures source.Scalars() == Empty.Scalars() ==> Extend(source, sup).Scalars() == sup.Scalars()
  {
  }

  /** `{}` is neutral for the merge, on either side. */
  lemma ExtendIdentity(e: Entry)
    ensures Extend(e, Empty) == e && Extend(Empty, e) == e
  {
  }

  /** Merging arrays is associative. */
  lemma ExtendListAssoc(a: Option<seq<string>>, b: Option<seq<string>>, c: Option<seq<string>>)
    ensures ExtendList(ExtendList(a, b), c) == ExtendList(a, ExtendList(b, c))
  {
    if b.Some? && c.Some? {
      assert (OrEmpty(a) + b.value) + c.value == OrEmpty(a) + (b.value + c.value);
    }
  }

  /**
   * Merging is associative, so merging the refs one after another into an
   * accumulator is the same as merging their merge.
   */
  lemma ExtendAssoc(a: Entry, b: Entry, c: Entry)
    ensures Extend(Extend(a, b), c) == Extend(a, Extend(b, c))
  {
    ExtendListAssoc(a.refs, b.refs, c.refs);
    ExtendListAssoc(a.has, b.has, c.has);
    ExtendListAssoc(a.headJs, b.headJs, c.headJs);
    ExtendListAssoc(a.bottomJs, b.bottomJs, c.bottomJs);
    ExtendListAssoc(a.css, b.css, c.css);
    ExtendListAssoc(a.asyncs, b.asyncs, c.asyncs);
    ExtendListAssoc(a.deps, b.deps, c.deps);
  }

  /** The keys of `e` listed in `CONCATS_TYPE`, and nothing else. */
  function Useful(e: Entry): Entry {
    Empty.(headJs := e.headJs, bottomJs := e.bottomJs, css := e.css, asyncs := e.asyncs, deps := e.deps)
  }

  /** `Useful` keeps exactly the `CONCATS_TYPE` keys. */
  lemma UsefulKeeps(e: Entry, k: Key)
    ensures Useful(e).Get(k) == if k in CONCATS_TYPE then e.Get(k) else None
    ensures Useful(e).Scalars() == Empty.Scalars()
  {
  }

  /**
   * The maps on which `getUrls` terminates: every entry it resolves gets a
   * non-empty URL, so that the `!url` memo test (index.js:56, 62) sees the
   * id as resolved when a cycle of `deps` or `asyncs` leads back to it. An
   * entry without a package has its own URL; a package that is in the map
   * has one. (A package missing from the map is an error path, not a
   * precondition.)
   */
  predicate WellFormed(maps: map<string, Entry>) {
    forall id :: id in maps ==>
      if Truthy(maps[id].pkg) then
        maps[id].pkg.value in maps ==> Truthy(maps[maps[id].pkg.value].url)
      else Truthy(maps[id].url)
  }

  /** `rank` strictly decreases along every `refs` edge between map entries. */
  ghost predicate RefsRanked(maps: map<string, Entry>, rank: map<string, nat>) {
    && (forall id :: id in maps ==> id in rank)
    && (forall id, i :: id in maps && 0 <= i < |OrEmpty(maps[id].refs)| && OrEmpty(maps[id].refs)[i] in maps ==>
          rank[OrEmpty(maps[id].refs)[i]] < rank[id])
  }

  /** No entry reaches itself through `refs` (index.js:33-36 recurses without bound otherwise). */
  ghost predicate Acyclic(maps: map<string, Entry>) {
    exists rank :: RefsRanked(maps, rank)
  }

  /** A termination measure for `getMapInfo`: 0 for ids outside the map. */
  ghost function RefDepth(maps: map<string, Entry>, id: string): (d: nat)
    requires Acyclic(maps)
    ensures id !in maps ==> d == 0
    ensures id in maps ==> d > 0
  {
    var rank :| RefsRanked(maps, rank);
    if id in maps then rank[id] + 1 else 0
  }

  /** Every ref of an entry is strictly shallower than the entry. */
  lemma RefDepthDecreases(maps: map<string, Entry>, id: string, i: nat)
    requires Acyclic(maps) && id in maps && i < |OrEmpty(maps[id].refs)|
    ensures RefDepth(maps, OrEmpty(maps[id].refs)[i]) < RefDepth(maps, id)
  {
  }
}
