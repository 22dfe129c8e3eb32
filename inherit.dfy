/**
 * `Resource.prototype.getMapInfo` (index.js:29-46): an entry flattened with
 * the entries its `refs` name. From every ref (resolved recursively, in ref
 * order) only the `CONCATS_TYPE` keys are taken; the entry's own keys are
 * merged last, so its arrays come after the inherited ones and its scalars
 * are its own.
 */
module Inherit {
  import opened Base
  import opened Entries

  /** The entry under `id`, `{}` when there is none (`self.maps[id] || {}`). */
  function Own(maps: map<string, Entry>, id: string): Entry {
    if id in maps then maps[id] else Empty
  }

  /** The entry under `id` merged over what its refs contribute. */
  function MapInfo(maps: map<string, Entry>, id: string): (r: Entry)
    requires Acyclic(maps)
    decreases RefDepth(maps, id), 1
  {
    RefsShallower(maps, id);
    Extend(FoldViews(RefViews(maps, RefDepth(maps, id), OrEmpty(Own(maps, id).refs)), Empty), Own(maps, id))
  }

  /** `getMapInfo(ref)` for every ref, in ref order. */
  function RefViews(maps: map<string, Entry>, ghost bound: nat, refs: seq<string>): (vs: seq<Entry>)
    requires Acyclic(maps)
    requires forall i :: 0 <= i < |refs| ==> RefDepth(maps, refs[i]) < bound
    ensures |vs| == |refs|
    decreases bound, 0, |refs|
  {
    if refs == [] then [] else [MapInfo(maps, refs[0])] + RefViews(maps, bound, refs[1..])
  }

  /** The `i`-th view is the `i`-th ref resolved. */
  lemma {:induction false} RefViewsAt(maps: map<string, Entry>, bound: nat, refs: seq<string>, i: nat)
    requires Acyclic(maps)
    requires forall i :: 0 <= i < |refs| ==> RefDepth(maps, refs[i]) < bound
    requires i < |refs|
    ensures RefViews(maps, bound, refs)[i] == MapInfo(maps, refs[i])
    decreases i
  {
    if i > 0 {
      RefViewsAt(maps, bound, refs[1..], i - 1);
    }
  }

  lemma RefsShallower(maps: map<string, Entry>, id: string)
    requires Acyclic(maps)
    ensures var refs := OrEmpty(Own(maps, id).refs);
      forall i :: 0 <= i < |refs| ==> RefDepth(maps, refs[i]) < RefDepth(maps, id)
  {
    var refs := OrEmpty(Own(maps, id).refs);
    forall i | 0 <= i < |refs| ensures RefDepth(maps, refs[i]) < RefDepth(maps, id) {
      RefDepthDecreases(maps, id, i);
    }
  }

  /** The `forEach` over the refs: each resolved ref's useful keys merged into `acc` in turn. */
  function FoldViews(views: seq<Entry>, acc: Entry): Entry {
    if views == [] then acc else FoldViews(views[1..], Extend(acc, Useful(views[0])))
  }

  /** The array under key `k` of every view, in order (`[]` where absent). */
  function Lists(views: seq<Entry>, k: Key): (ls: seq<seq<string>>)
    ensures |ls| == |views|
    ensures forall i :: 0 <= i < |views| ==> ls[i] == OrEmpty(views[i].Get(k))
  {
    if views == [] then [] else [OrEmpty(views[0].Get(k))] + Lists(views[1..], k)
  }

  /** One step of the fold on an inherited key: the view's array is appended, and present if either was. */
  lemma FoldStep(acc: Entry, v: Entry, k: Key)
    requires k in CONCATS_TYPE
    ensures OrEmpty(Extend(acc, Useful(v)).Get(k)) == OrEmpty(acc.Get(k)) + OrEmpty(v.Get(k))
    ensures Extend(acc, Useful(v)).Get(k).Some? <==> acc.Get(k).Some? || v.Get(k).Some?
  {
    ExtendMerges(acc, Useful(v), k);
    UsefulKeeps(v, k);
  }

  /** Folding appends, for every inherited key, the views' arrays in order. */
  lemma {:induction false} FoldViewsAppends(views: seq<Entry>, acc: Entry, k: Key)
    requires k in CONCATS_TYPE
    ensures OrEmpty(FoldViews(views, acc).Get(k)) == OrEmpty(acc.Get(k)) + Concat(Lists(views, k))
  {
    if views == [] {
      assert Concat(Lists(views, k)) == [];
    } else {
      var v, rest := views[0], views[1..];
      var next := Extend(acc, Useful(v));
      assert FoldViews(views, acc) == FoldViews(rest, next);
      FoldStep(acc, v, k);
      FoldViewsAppends(rest, next, k);
      ListsCons(views, k);
      AppendAssoc(OrEmpty(acc.Get(k)), OrEmpty(v.Get(k)), Concat(Lists(rest, k)));
    }
  }

  /** The arrays of the views, looked at from the first view. */
  lemma ListsCons(views: seq<Entry>, k: Key)
    requires views != []
    ensures Concat(Lists(views, k)) == OrEmpty(views[0].Get(k)) + Concat(Lists(views[1..], k))
  {
    assert Lists(views, k)[1..] == Lists(views[1..], k);
  }

  /** Some view has key `k`, looked at from the first view. */
  lemma AnyHasCons(views: seq<Entry>, k: Key)
    requires views != []
    ensures (exists i :: 0 <= i < |views| && views[i].Get(k).Some?) <==>
      views[0].Get(k).Some? || exists i :: 0 <= i < |views[1..]| && views[1..][i].Get(k).Some?
  {
    if exists i :: 0 <= i < |views| && views[i].Get(k).Some? {
      var i :| 0 <= i < |views| && views[i].Get(k).Some?;
      if i > 0 { assert views[1..][i - 1] == views[i]; }
    }
    if exists i :: 0 <= i < |views[1..]| && views[1..][i].Get(k).Some? {
      var i :| 0 <= i < |views[1..]| && views[1..][i].Get(k).Some?;
      assert views[i + 1] == views[1..][i];
    }
  }

  /** An inherited key is present after the fold exactly when `acc` or some view has it. */
  lemma {:induction false} FoldViewsPresence(views: seq<Entry>, acc: Entry, k: Key)
    requires k in CONCATS_TYPE
    ensures FoldViews(views, acc).Get(k).Some? <==> acc.Get(k).Some? || exists i :: 0 <= i < |views| && views[i].Get(k).Some?
  {
    if views != [] {
      var v, rest := views[0], views[1..];
      var next := Extend(acc, Useful(v));
      assert FoldViews(views, acc) == FoldViews(rest, next);
      FoldStep(acc, v, k);
      FoldViewsPresence(rest, next, k);
      AnyHasCons(views, k);
    }
  }

  /** Keys outside `CONCATS_TYPE` and all scalars are left as `acc` has them. */
  lemma {:induction false} FoldViewsKeeps(views: seq<Entry>, acc: Entry)
    ensures var r := FoldViews(views, acc);
      r.refs == acc.refs && r.has == acc.has && r.Scalars() == acc.Scalars()
  {
    if views != [] {
      ExtendMerges(acc, Useful(views[0]), Refs);
      ExtendMerges(acc, Useful(views[0]), Has);
      ExtendScalars(acc, Useful(views[0]));
      UsefulKeeps(views[0], Refs);
      UsefulKeeps(views[0], Has);
      FoldViewsKeeps(views[1..], Extend(acc, Useful(views[0])));
    }
  }

  /** The array each ref of `id` resolves to under key `k`, in ref order. */
  function InheritedLists(maps: map<string, Entry>, id: string, k: Key): seq<seq<string>>
    requires Acyclic(maps)
  {
    var refs := OrEmpty(Own(maps, id).refs);
    seq(|refs|, i requires 0 <= i < |refs| => OrEmpty(MapInfo(maps, refs[i]).Get(k)))
  }

  /**
   * The inheritance rule of getMapInfo: for each key of `CONCATS_TYPE` the
   * result holds the refs' resolved arrays in ref order followed by the
   * entry's own array.
   */
  lemma MapInfoInherits(maps: map<string, Entry>, id: string, k: Key)
    requires Acyclic(maps) && k in CONCATS_TYPE
    ensures OrEmpty(MapInfo(maps, id).Get(k)) == Concat(InheritedLists(maps, id, k)) + OrEmpty(Own(maps, id).Get(k))
  {
    MapInfoAppends(maps, id, k);
    ResolvedRefsLists(maps, id, k);
  }

  /** The fold form of `MapInfoInherits`. */
  lemma MapInfoAppends(maps: map<string, Entry>, id: string, k: Key)
    requires Acyclic(maps) && k in CONCATS_TYPE
    ensures OrEmpty(MapInfo(maps, id).Get(k)) == Concat(Lists(ResolvedRefs(maps, id), k)) + OrEmpty(Own(maps, id).Get(k))
  {
    var views := ResolvedRefs(maps, id);
    var folded, inherited := FoldViews(views, Empty), Concat(Lists(views, k));
    ExtendMerges(folded, Own(maps, id), k);
    FoldViewsAppends(views, Empty, k);
    assert OrEmpty(Empty.Get(k)) + inherited == inherited;
    assert OrEmpty(folded.Get(k)) == inherited;
  }

  /** The views of the refs of `id`, as `MapInfo` folds them. */
  function ResolvedRefs(maps: map<string, Entry>, id: string): (vs: seq<Entry>)
    requires Acyclic(maps)
    ensures |vs| == |OrEmpty(Own(maps, id).refs)|
    ensures MapInfo(maps, id) == Extend(FoldViews(vs, Empty), Own(maps, id))
  {
    RefsShallower(maps, id);
    RefViews(maps, RefDepth(maps, id), OrEmpty(Own(maps, id).refs))
  }

  lemma ResolvedRefAt(maps: map<string, Entry>, id: string, i: nat)
    requires Acyclic(maps) && i < |OrEmpty(Own(maps, id).refs)|
    ensures ResolvedRefs(maps, id)[i] == MapInfo(maps, OrEmpty(Own(maps, id).refs)[i])
  {
    RefsShallower(maps, id);
    RefViewsAt(maps, RefDepth(maps, id), OrEmpty(Own(maps, id).refs), i);
  }

  lemma ResolvedRefsLists(maps: map<string, Entry>, id: string, k: Key)
    requires Acyclic(maps)
    ensures Lists(ResolvedRefs(maps, id), k) == InheritedLists(maps, id, k)
  {
    var refs := OrEmpty(Own(maps, id).refs);
    forall i | 0 <= i < |refs|
      ensures Lists(ResolvedRefs(maps, id), k)[i] == InheritedLists(maps, id, k)[i]
    {
      ResolvedRefAt(maps, id, i);
    }
  }

  /**
   * A key of `CONCATS_TYPE` is present in the result exactly when the entry
   * or one of its resolved refs has it.
   */
  lemma MapInfoPresence(maps: map<string, Entry>, id: string, k: Key)
    requires Acyclic(maps) && k in CONCATS_TYPE
    ensures var refs := OrEmpty(Own(maps, id).refs);
      MapInfo(maps, id).Get(k).Some? <==>
        Own(maps, id).Get(k).Some? || exists i :: 0 <= i < |refs| && MapInfo(maps, refs[i]).Get(k).Some?
  {
    var refs := OrEmpty(Own(maps, id).refs);
    var views := ResolvedRefs(maps, id);
    ExtendMerges(FoldViews(views, Empty), Own(maps, id), k);
    FoldViewsPresence(views, Empty, k);
    assert Empty.Get(k) == None;
    if exists i :: 0 <= i < |views| && views[i].Get(k).Some? {
      var i :| 0 <= i < |views| && views[i].Get(k).Some?;
      ResolvedRefAt(maps, id, i);
    }
    if exists i :: 0 <= i < |refs| && MapInfo(maps, refs[i]).Get(k).Some? {
      var i :| 0 <= i < |refs| && MapInfo(maps, refs[i]).Get(k).Some?;
      ResolvedRefAt(maps, id, i);
      assert views[i].Get(k).Some?;
    }
  }

  /**
   * Nothing outside `CONCATS_TYPE` is inherited: `refs`, `has` and every
   * scalar (`url`, `pkg`, `isPagelet`, ...) are the entry's own.
   */
  lemma MapInfoKeepsOwn(maps: map<string, Entry>, id: string)
    requires Acyclic(maps)
    ensures MapInfo(maps, id).Scalars() == Own(maps, id).Scalars()
    ensures MapInfo(maps, id).refs == Own(maps, id).refs
    ensures MapInfo(maps, id).has == Own(maps, id).has
  {
    var folded := FoldViews(ResolvedRefs(maps, id), Empty);
    ExtendMerges(folded, Own(maps, id), Refs);
    ExtendMerges(folded, Own(maps, id), Has);
    ExtendScalars(folded, Own(maps, id));
    FoldViewsKeeps(ResolvedRefs(maps, id), Empty);
  }

  /** An id missing from the map resolves to `{}`. */
  lemma MapInfoMissing(maps: map<string, Entry>, id: string)
    requires Acyclic(maps) && id !in maps
    ensures MapInfo(maps, id) == Empty
  {
  }
}
