# feather2-resource: the `Resource` resolver, modelled in Dafny

feather2-resource turns the resource map of a feather2 build into what a
page needs to load. The map is an object from resource ids to entries. Each
entry has a `url`, a `type`, an optional `pkg`, flags such as `isPkg` and
`isPagelet`, and the lists `refs`, `headJs`, `bottomJs`, `css`, `asyncs`,
`deps` and `has`. For a page id, `Resource.prototype.getResourceInfo`
produces:

- the three script and style URL lists (`threeUrls`), with transitive
  dependencies resolved, packages substituted, CSS reached from
  JavaScript moved to the CSS list, duplicates removed and, optionally,
  same-origin URLs merged into combo URLs;
- the module-loader manifest (`requires`): the URL map and the `deps` of
  every asynchronously loaded module;
- for a pagelet, the ids it hands over to asynchronous loading
  (`pageletAsyncs`).

The project models all of `index.js`, module by module:

| module | file | models |
|---|---|---|
| `Base` | base.dfy | option/result types, `_.uniq`, filtering, JavaScript objects as insertion-ordered dictionaries (`Dict`) |
| `Entries` | entries.dfy | a map entry, the overridden `_.extend` (index.js:3-17), the constants `CONCATS_TYPE`, `RESOURCES_TYPE`, `FEATHER_LOADER` (index.js:25-27) |
| `Inherit` | inherit.dfy | `getMapInfo` (index.js:29-46): an entry flattened with its `refs` |
| `Resolve` | resolve.dfy | `getUrls` (index.js:48-104) as functions threading `founds`, `pkgFounds` and `urlCache` |
| `Combo` | combo.dfy | the combo pass of `getThreeUrls` (index.js:136-190): split, group by origin, batch by `maxUrlLength`, render |
| `Three` | three.dfy | `getThreeUrls` (index.js:106-194) |
| `Manifest` | manifest.dfy | `getRequireInfo` (index.js:196-222) |
| `Page` | page.dfy | `getResourceInfo` (index.js:224-257) |
| `Engine` | engine.dfy | the `Resource` object (index.js:19-23): a class whose `urlCache` field its methods update, each method proved equal to the function that specifies it |

The functions threading `founds`, `pkgFounds` and `urlCache` are the
specification. The methods of `Engine.Resource` do the same work step by
step, with `while`/`for` loops and the cache held in a field. Each method's
`ensures` equates its outputs and the new `urlCache` with the specifying
function applied to `old(urlCache)`.

A thrown exception is an `Err` result:

- `MissingPkg`: `pkgInfo.url` on a package with no entry (index.js:64);
- `UndeclaredPkg`: the undeclared `pkg` at index.js:82;
- `NoOrigin`: `matches[0]` when the origin pattern does not match
  (index.js:156).

## Model

| member | source | states |
|---|---|---|
| Entries.ExtendList | index.js:4-7 | extending with an array appends it to the existing array, or starts a fresh one when there is none; the result is present iff either side is |
| Entries.ExtendScalar | index.js:14-15 | extending with a non-object value replaces the old one; an absent key keeps the old one |
| Entries.Extend | index.js:8-13 | the object branch of `_.extend` on two entries; no contract of its own: what it does is stated by the four lemmas below |
| Entries.ExtendMerges | index.js:8-13 | under every array key, the merged list is the old list followed by the new one (an absent list counting as empty); the key is present iff either side has it; a side without it leaves the other's value |
| Entries.ExtendScalars | index.js:8-15 | merging over an entry with no scalars gives the new scalars, and merging an entry with no scalars keeps the old ones |
| Entries.ExtendListAssoc | index.js:4-7 | extending arrays is associative |
| Entries.ExtendIdentity | index.js:3-17 | the empty entry `{}` is a left and a right identity of the merge |
| Entries.ExtendAssoc | index.js:3-17 | merging is associative, so folding `refs` one at a time equals merging their merge |
| Entries.UsefulKeeps | index.js:34-40 | a ref contributes exactly its `CONCATS_TYPE` keys (`headJs`, `bottomJs`, `css`, `asyncs`, `deps`) and none of its scalars, `refs` or `has` |
| Entries.RefDepthDecreases | index.js:33-36 | on an acyclic map, every ref is strictly shallower than the entry naming it, so the `getMapInfo` recursion terminates |
| Inherit.MapInfo | index.js:29-46 | `getMapInfo` on an acyclic map; no contract of its own: its result is characterised by the `MapInfo…` lemmas below |
| Inherit.MapInfoInherits | index.js:29-46 | for a `CONCATS_TYPE` key, the flattened list is the refs' flattened lists in `refs` order, followed by the entry's own list |
| Inherit.MapInfoAppends | index.js:33-45 | the same list is the concatenation over the resolved refs (`ResolvedRefs`), then the entry's own |
| Inherit.ResolvedRefAt | index.js:36 | the i-th resolved ref is `getMapInfo` of the i-th id in `refs` |
| Inherit.MapInfoPresence | index.js:33-45 | a `CONCATS_TYPE` key is present in the flattened entry iff the entry or one of its flattened refs has it |
| Inherit.MapInfoKeepsOwn | index.js:37-45 | scalars, `refs` and `has` of the flattened entry are the entry's own; refs never contribute them |
| Inherit.MapInfoMissing | index.js:31 | an id absent from the map flattens to the empty entry |
| Resolve.Loop | index.js:52-101 | the `forEach` from the i-th id on: every id already resolved keeps its URL, and the set of known unresolved ids never grows |
| Resolve.Visit | index.js:53-100 | the same, for one turn of the `forEach` |
| Resolve.Settle | index.js:56-90 | the same, for a known id not yet resolved |
| Resolve.Locate | index.js:57-70 | the URL is the package's URL found earlier, else the package entry's URL (recorded in `pkgFounds` and the cache), else the entry's own URL (cached); a package with no entry throws `MissingPkg`; the cache stays sound |
| Resolve.GetUrls | index.js:48-104 | every id already resolved keeps its URL; the set of known unresolved ids never grows |
| Resolve.GetUrlsKeepsInvariants | index.js:65-97 | `founds` stays a duplicate-free ordered dictionary; every cached entry declares the URL it is cached under; without `includeNotFound` only ids of the map enter `founds` |
| Resolve.VisitPlaces | index.js:92-100 | a visit keeps the URLs gathered so far and appends the id's URL right after them (for an unknown id, the id itself) |
| Resolve.GetUrlsReaches | index.js:52-103 | on success, every id passed in is resolved and its URL is in the result |
| Resolve.SettleOrders | index.js:72-100 | on success the id is resolved, and the result is a block with the URLs of its `asyncs`, then a block with those of its `deps`, then the URLs gathered earlier, then the id's own URL; each `asyncs` id reaches its URL in the first block and each `deps` id in the second |
| Resolve.SettleFirstPkgThrows | index.js:59-82 | resolving a package for the first time always throws: a missing package entry, or the undeclared `pkg` |
| Resolve.FreshGetUrlsAvoidsPackages | index.js:57-82 | a top-level call succeeds only if no requested id of the map has a package, and always succeeds on a map without packages |
| Resolve.GetUrlsMemo | index.js:53-103 | ids already in `founds` are answered from it, de-duplicated, and no state changes |
| Resolve.GetUrlsAgain | index.js:53-56 | asking again for the ids a successful call resolved returns their recorded URLs and leaves all state unchanged |
| Combo.SchemeLength | index.js:155 | the optional scheme prefix is `https:`, `http:` or nothing |
| Combo.NextSlash | index.js:155 | the first `/` at or after a position, or none |
| Combo.Origin | index.js:155-156 | a matched origin is a non-empty prefix of the URL ending in `/` |
| Combo.OriginOfHost | index.js:155 | a URL made of an optional `http:` or `https:`, then `//`, a host and a `/`, has as origin its prefix up to and including the first `/` after the host |
| Combo.OriginOfPath | index.js:155 | a URL without that form has origin `/` iff it starts with `/`, and no origin otherwise |
| Combo.OriginExamples | index.js:155 | origins of sample URLs: `http://h/x` gives `http://h/`, `//h/x` gives `//h/`, `/a/b` and `//h` give `/`, `http:/x` and `a/b` give none |
| Combo.SplitMembers | index.js:138-150 | a URL is combined iff it is cached and, under `onlyUnPackFile`, not a package; every other URL is kept |
| Combo.SplitIsPermutation | index.js:138-150 | the kept and the combined URLs together are the input, as a multiset |
| Combo.Group | index.js:152-163 | grouping by origin; no contract of its own: stated by `GroupOutcome`, `GroupByOrigin` and `GroupIsPermutation` |
| Combo.GroupOutcome | index.js:154-163 | grouping succeeds iff every URL matches the origin pattern, and otherwise throws for the first URL that does not |
| Combo.GroupByOrigin | index.js:152-163 | the groups form a well-formed dictionary whose keys are the origins met, each holding exactly that origin's URLs in input order |
| Combo.GroupIsPermutation | index.js:152-163 | the groups together hold the combined URLs, as a multiset |
| Combo.Chunks | index.js:166-184 | the batching of one group's base names; no contract of its own: stated by `ChunksConcat` and `ChunksGreedy` |
| Combo.ChunksConcat | index.js:166-184 | the batches, concatenated, are the group's base names in order |
| Combo.ChunksGreedy | index.js:169-184 | batches are non-empty; each closes on the first name that brings its length to `maxUrlLength`; all but the last reach it |
| Combo.CombinePieces | index.js:136-188 | the combo pass as pieces (kept URLs and batches); no contract of its own: stated by `CombineShape`, `CombineIsPermutation`, `CombineBatchesShareOrigin` and `CombineThrows` |
| Combo.Combine | index.js:165-190 | the pieces rendered as the final list; no contract of its own: stated by the lemmas on `CombinePieces` it renders |
| Combo.CombineShape | index.js:136-190 | a successful pass is the kept URLs, unchanged and in order, followed by the assembled batches of every origin group, groups in insertion order; the groups form a well-formed dictionary |
| Combo.CombineIsPermutation | index.js:136-190 | the pieces of the combo pass stand for the de-duplicated list, every URL exactly once |
| Combo.CombineBatchesShareOrigin | index.js:165-184 | each name in a combo URL, prefixed with its origin, is a combinable URL of the list whose origin is that prefix |
| Combo.CombineThrows | index.js:154-156 | the combo pass throws iff some combinable URL has no origin, and then for the first such one |
| Combo.SplitUrls | index.js:136-150 | the loop computes the kept and the combinable URLs |
| Combo.GroupUrls | index.js:152-163 | the loop computes the origin groups, or the error of the first URL without an origin |
| Combo.BatchUrls | index.js:165-187 | the loop renders one origin's group: batches joined with `syntax`, or the single URL |
| Combo.AssembleUrls | index.js:165-188 | the loop renders every group, in insertion order |
| Combo.CombineUrls | index.js:136-190 | the combo pass for one list |
| Three.CssSplitMembers | index.js:113-121 | a URL stays in a JavaScript list iff it is not cached as CSS, and moves to the CSS list iff it is |
| Three.CssSplitIsPermutation | index.js:113-121 | the URLs kept and the URLs moved together are the list, as a multiset |
| Three.SpliceCss | index.js:114-121 | the in-place splice loop leaves exactly the non-CSS URLs, in order, and moves the CSS URLs, in order |
| Three.Collect | index.js:110-125 | on success, every type already collected or still to come in `RESOURCES_TYPE` has a list |
| Three.CollectUnfolds | index.js:110-127 | the three types are resolved in order, each with fresh `founds`, sharing the cache; the first error stops the collection; CSS reached from `headJs` and `bottomJs` goes after the CSS list |
| Three.Pass | index.js:131-190 | finishing one list; no contract of its own: stated by `FinishPlain` and `PassCombined` |
| Three.Finish | index.js:131-191 | on success, all three types of `RESOURCES_TYPE` have a list |
| Three.FinishPlain | index.js:131-134 | without combo each list is only de-duplicated |
| Three.FinishPasses | index.js:131-191 | the lists are finished in order; the first that throws decides the error, else each list is replaced by its finished form |
| Three.ThreeUrls | index.js:106-194 | `getThreeUrls`; no contract of its own: stated by `ThreeUrlsPlain` and `ThreeUrlsCombined` |
| Three.ThreeUrlsPlain | index.js:106-134 | without combo, the result fails exactly when a resolution does; each list has no duplicates and holds exactly the non-CSS URLs of its type, with CSS gathering its own URLs and the CSS reached from JavaScript |
| Three.PassCombined | index.js:132-190 | with combo, a list combines iff every combinable URL of its de-duplicated form has an origin, and then stands for that list |
| Three.FinishCombined | index.js:131-191 | the three lists combine iff each does, and each then stands for its plain form |
| Three.ThreeUrlsCombined | index.js:106-194 | combo changes neither the cache nor what the lists stand for; it throws exactly when a combinable URL has no origin |
| Manifest.UniqAll | index.js:214-216 | every URL keeps its key and gets a duplicate-free list of the same ids |
| Manifest.Tally | index.js:200-212 | the tally over `founds`; no contract of its own: stated by the four `Tally…` lemmas |
| Manifest.TallyUrlKeys | index.js:200-205 | the URL map has one key per URL met, in order of first appearance |
| Manifest.TallyUrlLists | index.js:200-205 | under each URL, exactly the ids that resolved to it, in `founds` order |
| Manifest.TallyDepKeys | index.js:207-211 | the `deps` object lists exactly the ids that declare `deps`, in `founds` order |
| Manifest.TallyDepValues | index.js:207-211 | each id in the `deps` object holds its entry's `deps` verbatim |
| Manifest.RequireInfo | index.js:196-222 | `getRequireInfo`; no contract of its own: stated by `RequireInfoOutcome`, `RequireInfoUrls` and `RequireInfoDeps` |
| Manifest.RequireInfoOutcome | index.js:198 | `getRequireInfo` throws exactly what its `getUrls` call throws, and leaves the cache that call leaves |
| Manifest.RequireInfoUrls | index.js:196-222 | the URL keys are the URLs some resolved id has; each lists without repetition the ids resolved to it; every `asyncs` id of the map is filed under its URL |
| Manifest.RequireInfoDeps | index.js:196-222 | `deps` holds exactly the resolved ids that declare `deps`, in `founds` order, with their lists |
| Manifest.UniqAllKeeps | index.js:214-216 | the de-duplication pass changes nothing, since `founds` lists every id once |
| Page.Strip | index.js:229-234 | the loop that empties a pagelet's lists; no contract of its own: stated by `StripAll` |
| Page.StripAll | index.js:229-234 | a pagelet's present `headJs`, `bottomJs` and `css` are emptied and their ids collected in that order; everything else is kept |
| Page.Prepare | index.js:225-245 | a pagelet moves its three lists to the end of `asyncs` and reports them; any other entry with `asyncs` gets the loader in front of `headJs`; scalars, `deps`, `refs` and `has` are untouched |
| Page.PrepareEntry | index.js:228-245 | the in-place edit of the flattened entry computes `Prepare` |
| Page.PageletThreeUrls | index.js:228-248 | a pagelet's `threeUrls` are three empty lists and leave the cache unchanged, with or without combo |
| Page.ResourceInfo | index.js:224-257 | `getResourceInfo`; no contract of its own: stated by `PageletInfo`, `PageletThreeUrls` and `LoaderResolved` |
| Page.PageletInfo | index.js:224-257 | a pagelet's result is empty `threeUrls`, the manifest of its extended `asyncs`, and the ids moved out of its lists as `pageletAsyncs`; or the manifest's error |
| Page.LoaderResolved | index.js:239-245 | a non-pagelet with `asyncs` puts `static/feather.js` first in `headJs`, and its resolution reaches it |
| Engine.Resource.constructor | index.js:19-23 | the map and the combo option are kept, with an empty `urlCache` |
| Engine.Resource.GetUrls | index.js:48-104 | the imperative `getUrls` returns what `Resolve.GetUrls` specifies, and leaves that cache |
| Engine.Resource.GetThreeUrls | index.js:106-194 | the method computes `Three.ThreeUrls` and leaves its cache |
| Engine.Resource.Visit | index.js:53-100 | one turn of the imperative `forEach` returns the result, `founds`, `pkgFounds` and cache that `Resolve.Visit` specifies |
| Engine.Resource.Settle | index.js:56-90 | resolving a known, unresolved id returns what `Resolve.Settle` specifies |
| Engine.Resource.CollectUrls | index.js:110-127 | the resolution loop over `RESOURCES_TYPE` computes `Three.Collect` |
| Engine.Resource.PassUrls | index.js:131-191 | the loop over the three lists computes `Three.Finish` |
| Engine.Resource.PassUrl | index.js:131-190 | finishing one list returns `Three.Pass` for the object's cache and combo option |
| Engine.Resource.GetRequireInfo | index.js:196-222 | the method computes `Manifest.RequireInfo` and leaves its cache |
| Engine.Resource.TallyIds | index.js:200-212 | the loop over `founds` computes `Manifest.Tally` |
| Engine.Resource.GetResourceInfo | index.js:224-257 | the method computes `Page.ResourceInfo` and leaves its cache |

## Left out

- JavaScript values outside the entry shape are not modelled. These are
  `null`, nested non-array objects, numbers, and entry fields other than
  the thirteen named ones. `_.extend` on a nested object, or on `null`,
  is not modelled.
- The constructor's `maps || {}` and `options || {}` are not modelled:
  the class takes a map and an optional combo option directly.
- Combo options are taken as complete: `syntax` has two parts and
  `maxUrlLength` is an integer. Missing or non-numeric values, which
  JavaScript coerces, are not modelled.
- String lengths count characters, not UTF-16 code units.
- Object key order is insertion order. JavaScript enumerates integer-like
  keys first. That affects `founds`, the manifest objects and the combo
  groups, and is not modelled.
- Keys that collide with `Object.prototype` properties are not modelled.
  Examples are an id named `constructor`, or a URL named `__proto__` in
  the manifest.
- Resolve.GetUrls: the model requires `WellFormed`. Every entry without a
  package has a non-empty URL, and every package entry that exists has one
  too. Without it, an id whose URL is empty is never marked found, and the
  recursion need not terminate.
- Inherit.MapInfo: the model requires the `refs` graph to be acyclic. A
  cycle makes `getMapInfo` recurse without bound.
- The `has` handling at index.js:83-89 is never reached. The guard at
  line 82 reads the undeclared `pkg`, which throws (`UndeclaredPkg`)
  before that code can run.
- The module export (index.js:259) and the `underscore` import are not
  part of this model.
- Engine.Resource.GetUrls: the threaded `founds` and `pkgFounds` objects
  are passed and returned as values. JavaScript shares them by reference
  between recursive calls; the model threads them explicitly instead.
