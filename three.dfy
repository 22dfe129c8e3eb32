/**
 * `Resource.prototype.getThreeUrls` (index.js:106-194): the URLs of an
 * entry's `headJs`, `bottomJs` and `css` lists, each resolved by `getUrls`
 * with `nf` on and fresh `founds`, sharing `urlCache`. A CSS file reached
 * from a JavaScript list is moved to the end of the `css` list; every list
 * is then de-duplicated and, when `options.combo` is set, combined.
 */
module Three {
  import opened Base
  import opened Entries
  import opened Resolve
  import opened Combo

  /** `self.urlCache[url] && self.urlCache[url].type == 'css'`. */
  predicate IsCss(cache: map<string, Entry>, u: string) {
    u in cache && cache[u].kind == Some("css")
  }

  /** The URLs the splice loop leaves in a JavaScript list, in order. */
  function NonCss(cache: map<string, Entry>, urls: seq<string>): seq<string> {
    if urls == [] then []
    else
      var u := urls[|urls| - 1];
      NonCss(cache, urls[..|urls| - 1]) + (if IsCss(cache, u) then [] else [u])
  }

  /** The URLs the splice loop moves to `inJsCss`, in order. */
  function CssOf(cache: map<string, Entry>, urls: seq<string>): seq<string> {
    if urls == [] then []
    else
      var u := urls[|urls| - 1];
      CssOf(cache, urls[..|urls| - 1]) + (if IsCss(cache, u) then [u] else [])
  }

  /** A URL stays exactly when it is not CSS, and moves exactly when it is. */
  lemma {:induction false} CssSplitMembers(cache: map<string, Entry>, urls: seq<string>, u: string)
    ensures u in NonCss(cache, urls) <==> u in urls && !IsCss(cache, u)
    ensures u in CssOf(cache, urls) <==> u in urls && IsCss(cache, u)
  {
    if urls != [] {
      var p := urls[..|urls| - 1];
      assert urls == p + [urls[|urls| - 1]];
      CssSplitMembers(cache, p, u);
    }
  }

  /** Moving the CSS out loses and invents nothing. */
  lemma {:induction false} CssSplitIsPermutation(cache: map<string, Entry>, urls: seq<string>)
    ensures multiset(NonCss(cache, urls)) + multiset(CssOf(cache, urls)) == multiset(urls)
  {
    if urls != [] {
      var p, u := urls[..|urls| - 1], urls[|urls| - 1];
      assert urls == p + [u];
      CssSplitIsPermutation(cache, p);
      if IsCss(cache, u) {
        assert NonCss(cache, urls) == NonCss(cache, p);
        assert CssOf(cache, urls) == CssOf(cache, p) + [u];
      } else {
        assert NonCss(cache, urls) == NonCss(cache, p) + [u];
        assert CssOf(cache, urls) == CssOf(cache, p);
      }
    }
  }

  /** One more URL for the splice loop: the list and the moved URLs after it. */
  lemma SpliceStep(cache: map<string, Entry>, urls: seq<string>, j: nat, kept: seq<string>, i: nat)
    requires j < |urls| && i == |NonCss(cache, urls[..j])| && kept == NonCss(cache, urls[..j]) + urls[j..]
    ensures i < |kept| && kept[i] == urls[j]
    ensures IsCss(cache, urls[j]) ==>
      kept[..i] + kept[i + 1..] == NonCss(cache, urls[..j + 1]) + urls[j + 1..] && i == |NonCss(cache, urls[..j + 1])|
    ensures !IsCss(cache, urls[j]) ==>
      kept == NonCss(cache, urls[..j + 1]) + urls[j + 1..] && i + 1 == |NonCss(cache, urls[..j + 1])|
    ensures CssOf(cache, urls[..j + 1]) == CssOf(cache, urls[..j]) + (if IsCss(cache, urls[j]) then [urls[j]] else [])
  {
    var done := NonCss(cache, urls[..j]);
    assert urls[..j + 1][..j] == urls[..j];
    assert urls[j..] == [urls[j]] + urls[j + 1..];
    if IsCss(cache, urls[j]) {
      assert kept[..i] == done && kept[i + 1..] == urls[j + 1..];
    } else {
      assert done + urls[j..] == (done + [urls[j]]) + urls[j + 1..];
    }
  }

  /** The `for` loop of index.js:113-120, removing CSS with `urls.splice(i--, 1)`. */
  method SpliceCss(cache: map<string, Entry>, urls: seq<string>) returns (kept: seq<string>, moved: seq<string>)
    ensures kept == NonCss(cache, urls) && moved == CssOf(cache, urls)
  {
    kept, moved := urls, [];
    var i := 0;
    ghost var j := 0;
    assert urls[..0] == [];
    while i < |kept|
      invariant 0 <= j <= |urls| && i == |NonCss(cache, urls[..j])|
      invariant kept == NonCss(cache, urls[..j]) + urls[j..]
      invariant moved == CssOf(cache, urls[..j])
      decreases |kept| - i
    {
      SpliceStep(cache, urls, j, kept, i);
      var url := kept[i];
      if url in cache && cache[url].kind == Some("css") {
        moved := moved + [url];
        kept := kept[..i] + kept[i + 1..];
      } else {
        i := i + 1;
      }
      j := j + 1;
    }
    assert urls[..j] == urls;
  }

  /** What the collecting loop yields: `allUrls` and `inJsCss`, or what was thrown; and the cache it leaves. */
  datatype Gathered = Gathered(res: Result<(map<Key, seq<string>>, seq<string>), Error>, cache: map<string, Entry>)

  /** `self.getUrls(mapInfo[type] || [], false, true)`: `nf` on, fresh `founds` and `pkgFounds`. */
  function TypeUrls(maps: map<string, Entry>, info: Entry, t: Key, cache: map<string, Entry>): Run
    requires WellFormed(maps)
  {
    GetUrls(maps, OrEmpty(info.Get(t)), true, Start(cache))
  }

  /** The `RESOURCES_TYPE.forEach` of index.js:110-125 from the `i`-th type on. */
  function Collect(maps: map<string, Entry>, info: Entry, i: nat, all: map<Key, seq<string>>, inJsCss: seq<string>,
                   cache: map<string, Entry>): (r: Gathered)
    requires WellFormed(maps) && i <= |RESOURCES_TYPE|
    ensures r.res.Ok? ==> forall t :: t in all || t in RESOURCES_TYPE[i..] ==> t in r.res.value.0
    decreases |RESOURCES_TYPE| - i
  {
    if i == |RESOURCES_TYPE| then Gathered(Ok((all, inJsCss)), cache)
    else
      var t := RESOURCES_TYPE[i];
      var r := TypeUrls(maps, info, t, cache);
      if r.res.Err? then Gathered(Err(r.res.error), r.s.cache)
      else if t != Css then
        Collect(maps, info, i + 1, all[t := NonCss(r.s.cache, r.res.value)],
                inJsCss + CssOf(r.s.cache, r.res.value), r.s.cache)
      else Collect(maps, info, i + 1, all[t := r.res.value], inJsCss, r.s.cache)
  }

  /** The `_.each(allUrls, ...)` of index.js:133-191 from the `i`-th type on. */
  function Finish(all: map<Key, seq<string>>, i: nat, cache: map<string, Entry>, combo: Option<Combo>)
    : (r: Result<map<Key, seq<string>>, Error>)
    requires i <= |RESOURCES_TYPE| && forall t :: t in RESOURCES_TYPE ==> t in all
    ensures r.Ok? ==> forall t :: t in RESOURCES_TYPE ==> t in r.value
    decreases |RESOURCES_TYPE| - i
  {
    if i == |RESOURCES_TYPE| then Ok(all)
    else
      var t := RESOURCES_TYPE[i];
      match Pass(all[t], cache, combo)
      case Err(e) => Err(e)
      case Ok(finals) => Finish(all[t := finals], i + 1, cache, combo)
  }

  /** One turn of that `_.each`: `_.uniq`, then the combo step when `options.combo` is set. */
  function Pass(urls: seq<string>, cache: map<string, Entry>, combo: Option<Combo>): Result<seq<string>, Error> {
    if combo.None? then Ok(Uniq(urls)) else Combine(cache, combo.value, Uniq(urls))
  }

  /** `getThreeUrls(mapInfo)`: the three lists, or what was thrown, and the cache left behind. */
  function ThreeUrls(maps: map<string, Entry>, info: Entry, cache: map<string, Entry>, combo: Option<Combo>)
    : (Result<map<Key, seq<string>>, Error>, map<string, Entry>)
    requires WellFormed(maps)
  {
    var g := Collect(maps, info, 0, map[], [], cache);
    if g.res.Err? then (Err(g.res.error), g.cache)
    else
      var (all, inJsCss) := g.res.value;
      (Finish(all[Css := all[Css] + inJsCss], 0, g.cache, combo), g.cache)
  }

  /** The three `getUrls` calls of index.js:111, each starting from the cache the previous one left. */
  datatype Resolutions = Resolutions(head: Run, bottom: Run, css: Run)

  function Resolve3(maps: map<string, Entry>, info: Entry, cache: map<string, Entry>): Resolutions
    requires WellFormed(maps)
  {
    var h := TypeUrls(maps, info, HeadJs, cache);
    var b := TypeUrls(maps, info, BottomJs, h.s.cache);
    Resolutions(h, b, TypeUrls(maps, info, Css, b.s.cache))
  }

  /** The collecting loop in terms of the three resolutions. */
  lemma CollectUnfolds(maps: map<string, Entry>, info: Entry, cache: map<string, Entry>)
    requires WellFormed(maps)
    ensures var rs := Resolve3(maps, info, cache);
      var g := Collect(maps, info, 0, map[], [], cache);
      var h, b, c := rs.head, rs.bottom, rs.css;
      (g.res.Ok? <==> h.res.Ok? && b.res.Ok? && c.res.Ok?) &&
      (h.res.Err? ==> g == Gathered(Err(h.res.error), h.s.cache)) &&
      (h.res.Ok? && b.res.Err? ==> g == Gathered(Err(b.res.error), b.s.cache)) &&
      (h.res.Ok? && b.res.Ok? && c.res.Err? ==> g == Gathered(Err(c.res.error), c.s.cache)) &&
      (g.res.Ok? ==>
        g.cache == c.s.cache &&
        g.res.value.0 == map[HeadJs := NonCss(h.s.cache, h.res.value),
                             BottomJs := NonCss(b.s.cache, b.res.value),
                             Css := c.res.value] &&
        g.res.value.1 == CssOf(h.s.cache, h.res.value) + CssOf(b.s.cache, b.res.value))
  {
    var rs := Resolve3(maps, info, cache);
    var h, b, c := rs.head, rs.bottom, rs.css;
    assert RESOURCES_TYPE[0] == HeadJs && RESOURCES_TYPE[1] == BottomJs && RESOURCES_TYPE[2] == Css;
    if h.res.Ok? {
      var all1 := map[HeadJs := NonCss(h.s.cache, h.res.value)];
      var in1 := [] + CssOf(h.s.cache, h.res.value);
      assert Collect(maps, info, 0, map[], [], cache) == Collect(maps, info, 1, all1, in1, h.s.cache);
      if b.res.Ok? {
        var all2 := all1[BottomJs := NonCss(b.s.cache, b.res.value)];
        var in2 := in1 + CssOf(b.s.cache, b.res.value);
        assert Collect(maps, info, 1, all1, in1, h.s.cache) == Collect(maps, info, 2, all2, in2, b.s.cache);
        if c.res.Ok? {
          assert Collect(maps, info, 2, all2, in2, b.s.cache)
            == Collect(maps, info, 3, all2[Css := c.res.value], in2, c.s.cache);
          assert [] + CssOf(h.s.cache, h.res.value) == CssOf(h.s.cache, h.res.value);
        }
      }
    }
  }

  /** The de-duplicating pass without combo changes nothing but order and repetition. */
  lemma FinishPlain(all: map<Key, seq<string>>, cache: map<string, Entry>)
    requires HeadJs in all && BottomJs in all && Css in all
    ensures Finish(all, 0, cache, None)
      == Ok(all[HeadJs := Uniq(all[HeadJs])][BottomJs := Uniq(all[BottomJs])][Css := Uniq(all[Css])])
  {
    FinishPasses(all, cache, None);
  }

  /**
   * Without combo, `getThreeUrls` throws exactly when one of its three
   * `getUrls` calls throws (the first one's error), and otherwise returns
   * three duplicate-free lists: `headJs` and `bottomJs` hold the URLs
   * resolved for them that the cache did not call CSS at the time, and
   * `css` holds those resolved for it together with the CSS the other two
   * reached.
   */
  lemma ThreeUrlsPlain(maps: map<string, Entry>, info: Entry, cache: map<string, Entry>, u: string)
    requires WellFormed(maps)
    ensures var rs := Resolve3(maps, info, cache);
      var r := ThreeUrls(maps, info, cache, None).0;
      var h, b, c := rs.head, rs.bottom, rs.css;
      (r.Ok? <==> h.res.Ok? && b.res.Ok? && c.res.Ok?) &&
      (h.res.Err? ==> r == Err(h.res.error)) &&
      (h.res.Ok? && b.res.Err? ==> r == Err(b.res.error)) &&
      (h.res.Ok? && b.res.Ok? && c.res.Err? ==> r == Err(c.res.error)) &&
      (r.Ok? ==>
        NoDup(r.value[HeadJs]) && NoDup(r.value[BottomJs]) && NoDup(r.value[Css]) &&
        (u in r.value[HeadJs] <==> u in h.res.value && !IsCss(h.s.cache, u)) &&
        (u in r.value[BottomJs] <==> u in b.res.value && !IsCss(b.s.cache, u)) &&
        (u in r.value[Css] <==>
          u in c.res.value || (u in h.res.value && IsCss(h.s.cache, u)) || (u in b.res.value && IsCss(b.s.cache, u))))
  {
    var rs := Resolve3(maps, info, cache);
    var h, b, c := rs.head, rs.bottom, rs.css;
    CollectUnfolds(maps, info, cache);
    var g := Collect(maps, info, 0, map[], [], cache);
    if g.res.Ok? {
      var (all, inJsCss) := g.res.value;
      FinishPlain(all[Css := all[Css] + inJsCss], g.cache);
      CssSplitMembers(h.s.cache, h.res.value, u);
      CssSplitMembers(b.s.cache, b.res.value, u);
    }
  }

  /** The pass succeeds exactly when every list passes, and then holds the passed lists. */
  lemma FinishPasses(all: map<Key, seq<string>>, cache: map<string, Entry>, combo: Option<Combo>)
    requires HeadJs in all && BottomJs in all && Css in all
    ensures var x1, x2, x3 := Pass(all[HeadJs], cache, combo), Pass(all[BottomJs], cache, combo), Pass(all[Css], cache, combo);
      (Finish(all, 0, cache, combo).Ok? <==> x1.Ok? && x2.Ok? && x3.Ok?) &&
      (Finish(all, 0, cache, combo).Ok? ==>
        Finish(all, 0, cache, combo).value == all[HeadJs := x1.value][BottomJs := x2.value][Css := x3.value])
  {
    assert RESOURCES_TYPE[0] == HeadJs && RESOURCES_TYPE[1] == BottomJs && RESOURCES_TYPE[2] == Css;
    var x1, x2, x3 := Pass(all[HeadJs], cache, combo), Pass(all[BottomJs], cache, combo), Pass(all[Css], cache, combo);
    if x1.Ok? {
      var a1 := all[HeadJs := x1.value];
      assert Finish(all, 0, cache, combo) == Finish(a1, 1, cache, combo);
      assert a1[BottomJs] == all[BottomJs];
      if x2.Ok? {
        var a2 := a1[BottomJs := x2.value];
        assert Finish(a1, 1, cache, combo) == Finish(a2, 2, cache, combo);
        assert a2[Css] == all[Css];
        if x3.Ok? {
          assert Finish(a2, 2, cache, combo) == Finish(a2[Css := x3.value], 3, cache, combo);
        }
      }
    }
  }

  /** Every URL of `urls` that the combo step would combine has an origin. */
  predicate Combines(cache: map<string, Entry>, k: Combo, urls: seq<string>) {
    forall u :: u in urls && Combinable(cache, k, u) ==> Origin(u).Some?
  }

  /** `out` renders pieces standing for `urls`, every URL of it exactly once. */
  ghost predicate StandsFor(out: seq<string>, k: Combo, urls: seq<string>) {
    exists ps :: out == RenderAll(ps, k) && multiset(ExpandAll(ps)) == multiset(urls)
  }

  /**
   * One list with combo: it combines exactly when every combinable URL of
   * the de-duplicated list has an origin, and then stands for that list.
   */
  lemma PassCombined(urls: seq<string>, cache: map<string, Entry>, k: Combo)
    ensures Pass(urls, cache, Some(k)).Ok? <==> Combines(cache, k, Pass(urls, cache, None).value)
    ensures Pass(urls, cache, Some(k)).Ok? ==>
      StandsFor(Pass(urls, cache, Some(k)).value, k, Pass(urls, cache, None).value)
  {
    var plain := Uniq(urls);
    CombineThrows(cache, k, plain);
    if CombinePieces(cache, k, plain).Ok? {
      CombineIsPermutation(cache, k, plain);
    }
  }

  /** What the pass leaves in one list, with or without combo. */
  lemma FinishAt(all: map<Key, seq<string>>, cache: map<string, Entry>, k: Combo, t: Key)
    requires HeadJs in all && BottomJs in all && Css in all && t in RESOURCES_TYPE
    ensures Finish(all, 0, cache, None).Ok? && Finish(all, 0, cache, None).value[t] == Pass(all[t], cache, None).value
    ensures Finish(all, 0, cache, Some(k)).Ok? ==>
      Pass(all[t], cache, Some(k)).Ok? && Finish(all, 0, cache, Some(k)).value[t] == Pass(all[t], cache, Some(k)).value
  {
    FinishPasses(all, cache, None);
    FinishPasses(all, cache, Some(k));
  }

  /** The whole pass with combo against the pass without it, over the same lists. */
  lemma FinishCombined(all: map<Key, seq<string>>, cache: map<string, Entry>, k: Combo)
    requires HeadJs in all && BottomJs in all && Css in all
    ensures var plain, combined := Finish(all, 0, cache, None), Finish(all, 0, cache, Some(k));
      plain.Ok? &&
      (combined.Ok? <==> forall t :: t in RESOURCES_TYPE ==> Combines(cache, k, plain.value[t])) &&
      (combined.Ok? ==> forall t :: t in RESOURCES_TYPE ==> StandsFor(combined.value[t], k, plain.value[t]))
  {
    FinishCombinedOk(all, cache, k);
    FinishCombinedStands(all, cache, k);
  }

  /** With combo the pass fails exactly when some list has a combinable URL without an origin. */
  lemma FinishCombinedOk(all: map<Key, seq<string>>, cache: map<string, Entry>, k: Combo)
    requires HeadJs in all && BottomJs in all && Css in all
    ensures var plain, combined := Finish(all, 0, cache, None), Finish(all, 0, cache, Some(k));
      plain.Ok? && (combined.Ok? <==> forall t :: t in RESOURCES_TYPE ==> Combines(cache, k, plain.value[t]))
  {
    var plain, combined := Finish(all, 0, cache, None), Finish(all, 0, cache, Some(k));
    FinishAt(all, cache, k, HeadJs);
    if combined.Ok? {
      forall t | t in RESOURCES_TYPE ensures Combines(cache, k, plain.value[t]) {
        FinishAt(all, cache, k, t);
        PassCombined(all[t], cache, k);
      }
    } else {
      FinishPasses(all, cache, Some(k));
      var t := if Pass(all[HeadJs], cache, Some(k)).Err? then HeadJs
        else if Pass(all[BottomJs], cache, Some(k)).Err? then BottomJs else Css;
      assert t in RESOURCES_TYPE && Pass(all[t], cache, Some(k)).Err?;
      FinishAt(all, cache, k, t);
      PassCombined(all[t], cache, k);
    }
  }

  /** With combo each list of a successful pass stands for the list without combo. */
  lemma FinishCombinedStands(all: map<Key, seq<string>>, cache: map<string, Entry>, k: Combo)
    requires HeadJs in all && BottomJs in all && Css in all
    ensures var plain, combined := Finish(all, 0, cache, None), Finish(all, 0, cache, Some(k));
      plain.Ok? && (combined.Ok? ==> forall t :: t in RESOURCES_TYPE ==> StandsFor(combined.value[t], k, plain.value[t]))
  {
    var plain, combined := Finish(all, 0, cache, None), Finish(all, 0, cache, Some(k));
    FinishAt(all, cache, k, HeadJs);
    if combined.Ok? {
      forall t | t in RESOURCES_TYPE ensures StandsFor(combined.value[t], k, plain.value[t]) {
        FinishAt(all, cache, k, t);
        PassCombined(all[t], cache, k);
      }
    }
  }

  /**
   * With combo, `getThreeUrls` leaves the same cache, and succeeds exactly
   * when it does without combo and every combinable URL of its lists has an
   * origin; each list then stands for the list without combo.
   */
  lemma ThreeUrlsCombined(maps: map<string, Entry>, info: Entry, cache: map<string, Entry>, k: Combo)
    requires WellFormed(maps)
    ensures var plain, combined := ThreeUrls(maps, info, cache, None), ThreeUrls(maps, info, cache, Some(k));
      combined.1 == plain.1 &&
      (combined.0.Ok? <==> plain.0.Ok? && forall t :: t in RESOURCES_TYPE ==> Combines(plain.1, k, plain.0.value[t])) &&
      (combined.0.Ok? ==> forall t :: t in RESOURCES_TYPE ==> StandsFor(combined.0.value[t], k, plain.0.value[t]))
  {
    var g := Collect(maps, info, 0, map[], [], cache);
    if g.res.Ok? {
      var (all0, inJsCss) := g.res.value;
      FinishCombined(all0[Css := all0[Css] + inJsCss], g.cache, k);
    }
  }
}


