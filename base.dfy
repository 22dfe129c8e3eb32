/**
 * Small value-level building blocks shared by the resolver model: the
 * Option/Result wrappers used for JavaScript's "absent key" and "thrown
 * exception", and the sequence operations the engine borrows from the
 * underscore library (`_.uniq` keeps the first occurrence of each element).
 */
module Base {

  datatype Option<T> = None | Some(value: T)

  datatype Result<T, E> = Ok(value: T) | Err(error: E)

  /** Every element occurs once. */
  predicate NoDup<T(==,!new)>(s: seq<T>) {
    forall i, j :: 0 <= i < j < |s| ==> s[i] != s[j]
  }

  /** Index of the first occurrence of `x` in `s`. */
  function FirstIndex<T(==,!new)>(s: seq<T>, x: T): (k: nat)
    requires x in s
    ensures k < |s| && s[k] == x && x !in s[..k]
  {
    if s[0] == x then 0 else 1 + FirstIndex(s[1..], x)
  }

  /**
   * `_.uniq`: the elements of `s` with every repetition after the first
   * dropped, the survivors kept in their original order.
   */
  function Uniq<T(==,!new)>(s: seq<T>): (r: seq<T>)
    ensures NoDup(r)
    ensures forall x :: x in r <==> x in s
    ensures |r| <= |s|
    decreases |s|
  {
    if s == [] then []
    else
      var u := Uniq(s[..|s| - 1]);
      if s[|s| - 1] in u then u else u + [s[|s| - 1]]
  }

  /** A duplicate-free sequence is left as it is by `_.uniq`. */
  lemma {:induction false} UniqOfNoDup<T(!new)>(s: seq<T>)
    requires NoDup(s)
    ensures Uniq(s) == s
    decreases |s|
  {
    if s != [] {
      var p := s[..|s| - 1];
      assert NoDup(p);
      UniqOfNoDup(p);
      assert s[|s| - 1] !in p;
      assert p + [s[|s| - 1]] == s;
    }
  }

  /**
   * `_.uniq` keeps first occurrences: the survivors appear in the order of
   * their first occurrence in the input.
   */
  lemma {:induction false} UniqKeepsFirstOccurrences<T(!new)>(s: seq<T>, i: nat, j: nat)
    requires i < j < |Uniq(s)|
    ensures FirstIndex(s, Uniq(s)[i]) < FirstIndex(s, Uniq(s)[j])
    decreases |s|
  {
    var p := s[..|s| - 1];
    var u := Uniq(p);
    var x, y := Uniq(s)[i], Uniq(s)[j];
    if s[|s| - 1] in u {
      UniqKeepsFirstOccurrences(p, i, j);
      FirstIndexOfPrefix(p, s, x);
      FirstIndexOfPrefix(p, s, y);
    } else if j < |u| {
      UniqKeepsFirstOccurrences(p, i, j);
      FirstIndexOfPrefix(p, s, x);
      FirstIndexOfPrefix(p, s, y);
    } else {
      assert y == s[|s| - 1] && y !in p;
      assert x == u[i] && x in p;
      FirstIndexOfPrefix(p, s, x);
      assert FirstIndex(s, y) == |s| - 1;
    }
  }

  /** The first occurrence in a prefix is the first occurrence in the whole. */
  lemma FirstIndexOfPrefix<T(!new)>(p: seq<T>, s: seq<T>, x: T)
    requires p <= s && x in p
    ensures FirstIndex(s, x) == FirstIndex(p, x)
  {
    var k := FirstIndex(p, x);
    assert s[k] == x;
  }

  /** The elements of `s` for which `keep` holds, in order. */
  function Filter<T(!new)>(s: seq<T>, keep: T -> bool): (r: seq<T>)
    ensures |r| <= |s|
    ensures forall x :: x in r <==> x in s && keep(x)
  {
    if s == [] then []
    else
      var p := s[..|s| - 1];
      assert s == p + [s[|s| - 1]];
      Filter(p, keep) + (if keep(s[|s| - 1]) then [s[|s| - 1]] else [])
  }

  /** Filtering one more element at the end. */
  lemma FilterAppend<T(!new)>(s: seq<T>, x: T, keep: T -> bool)
    ensures Filter(s + [x], keep) == Filter(s, keep) + (if keep(x) then [x] else [])
  {
    assert (s + [x])[..|s|] == s;
  }

  /** The concatenation of a sequence of sequences. */
  function Concat<T>(ss: seq<seq<T>>): seq<T> {
    if ss == [] then [] else ss[0] + Concat(ss[1..])
  }

  lemma ConcatAppend<T>(ss: seq<seq<T>>, t: seq<T>)
    ensures Concat(ss + [t]) == Concat(ss) + t
  {
    if ss != [] {
      assert (ss + [t])[1..] == ss[1..] + [t];
    }
  }

  /** Joining sequences is associative (stated for use as a single step). */
  lemma AppendAssoc<T>(a: seq<T>, b: seq<T>, c: seq<T>)
    ensures (a + b) + c == a + (b + c)
  {
  }

  /** Concatenation distributes over joining the outer sequences. */
  lemma {:induction false} ConcatOfAppend<T>(ss: seq<seq<T>>, ts: seq<seq<T>>)
    ensures Concat(ss + ts) == Concat(ss) + Concat(ts)
  {
    if ss == [] {
      assert ss + ts == ts;
    } else {
      assert (ss + ts)[0] == ss[0];
      assert (ss + ts)[1..] == ss[1..] + ts;
      ConcatOfAppend(ss[1..], ts);
    }
  }

  /** Joins strings with a separator, as JavaScript's `Array.prototype.join`. */
  function Join(parts: seq<string>, sep: string): string {
    if parts == [] then ""
    else if |parts| == 1 then parts[0]
    else parts[0] + sep + Join(parts[1..], sep)
  }

  /**
   * A JavaScript object used as a dictionary: its string keys in insertion
   * order (the order `_.each` visits them) and the value under each key.
   */
  datatype Dict<V> = Dict(keys: seq<string>, vals: map<string, V>) {
    /** The key list and the map agree, and no key is listed twice. */
    ghost predicate Valid() {
      NoDup(keys) && forall k :: k in vals <==> k in keys
    }

    /** `obj[k] = v`: a new key goes last, an existing key keeps its place. */
    function Put(k: string, v: V): (d: Dict<V>)
      ensures d.vals == vals[k := v]
      ensures d.keys == if k in vals then keys else keys + [k]
    {
      if k in vals then Dict(keys, vals[k := v]) else Dict(keys + [k], vals[k := v])
    }
  }

  /** Setting a key keeps the key list and the map in agreement. */
  lemma PutKeepsValid<V>(d: Dict<V>, k: string, v: V)
    requires d.Valid()
    ensures d.Put(k, v).Valid()
  {
  }

  /** The list under `k`, `[]` when there is none. */
  function Lookup(g: Dict<seq<string>>, k: string): seq<string> {
    if k in g.vals then g.vals[k] else []
  }

  /** `obj[k].push(u)`, creating the list first when `obj[k]` is missing. */
  function File(g: Dict<seq<string>>, k: string, u: string): Dict<seq<string>> {
    g.Put(k, Lookup(g, k) + [u])
  }

  /** `{}` */
  function NoKeys<V>(): (d: Dict<V>)
    ensures d.Valid() && d.keys == []
  {
    Dict([], map[])
  }
}
