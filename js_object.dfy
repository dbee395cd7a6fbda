/**
  A plain JavaScript object used as a dictionary with string keys.

  Its own enumerable properties are listed by `Object.keys`, `_.keys` and
  `_.forEach` in insertion order: assigning to an existing key replaces the
  value where it stands, assigning to a new key appends it. An object is
  modelled as the sequence of its (key, value) entries in that order.
*/
module JsObject {
  import opened Wrappers

  type Object<V> = seq<(string, V)>

  /** `Object.keys(o)`: the keys, in insertion order. */
  function Keys<V>(o: Object<V>): (ks: seq<string>)
    ensures |ks| == |o|
    ensures forall i :: 0 <= i < |o| ==> ks[i] == o[i].0
  {
    if o == [] then [] else [o[0].0] + Keys(o[1..])
  }

  /** No key is listed twice: true of every object JavaScript builds. */
  predicate Distinct(ks: seq<string>)
  {
    forall i, j :: 0 <= i < j < |ks| ==> ks[i] != ks[j]
  }

  predicate Valid<V>(o: Object<V>)
  {
    Distinct(Keys(o))
  }

  /** `o[k]`, with `None` standing for `undefined` (an absent key). */
  function Get<V>(o: Object<V>, k: string): (r: Option<V>)
    ensures r.Some? <==> k in Keys(o)
    ensures r.Some? ==> (k, r.value) in o
  {
    if o == [] then None
    else if o[0].0 == k then Some(o[0].1)
    else Get(o[1..], k)
  }

  /** `o[k] = v`: replaces the value of an existing key in place, or appends a new key. */
  function Put<V>(o: Object<V>, k: string, v: V): Object<V>
  {
    if o == [] then [(k, v)]
    else if o[0].0 == k then [(k, v)] + o[1..]
    else [o[0]] + Put(o[1..], k, v)
  }

  /** An assignment keeps the order of the keys, adds `k` at the end if it is new, and changes only `k`'s value. */
  lemma {:induction false} PutSpec<V>(o: Object<V>, k: string, v: V)
    ensures Keys(Put(o, k, v)) == if k in Keys(o) then Keys(o) else Keys(o) + [k]
    ensures forall k' :: Get(Put(o, k, v), k') == if k' == k then Some(v) else Get(o, k')
    ensures Valid(o) ==> Valid(Put(o, k, v))
  {
    if o != [] && o[0].0 != k {
      PutSpec(o[1..], k, v);
      var r := Put(o, k, v);
      assert r == [o[0]] + Put(o[1..], k, v);
      assert Keys(r) == [o[0].0] + Keys(Put(o[1..], k, v));
      assert Keys(o) == [o[0].0] + Keys(o[1..]);
    } else if o != [] {
      assert Keys(Put(o, k, v)) == [k] + Keys(o[1..]);
      assert Keys(o) == [o[0].0] + Keys(o[1..]);
    }
  }

  /** `_.forEach(src, (v, k) => { o[k] = v; })`: every entry of `src` assigned in order. */
  function PutAll<V>(o: Object<V>, src: Object<V>): Object<V>
    decreases |src|
  {
    if src == [] then o else PutAll(Put(o, src[0].0, src[0].1), src[1..])
  }

  /** The assignments keep every existing key in its place, add only keys of `src`, and keep keys distinct. */
  lemma {:induction false} PutAllKeys<V>(o: Object<V>, src: Object<V>)
    ensures Keys(o) <= Keys(PutAll(o, src))
    ensures forall k :: k in Keys(PutAll(o, src)) <==> k in Keys(o) || k in Keys(src)
    ensures Valid(o) ==> Valid(PutAll(o, src))
    decreases |src|
  {
    if src != [] {
      var o' := Put(o, src[0].0, src[0].1);
      PutSpec(o, src[0].0, src[0].1);
      PutAllKeys(o', src[1..]);
      assert Keys(src) == [src[0].0] + Keys(src[1..]);
    }
  }

  /** After the assignments, a key keeps its old value unless `src` assigns it, and then has the value `src` gives it. */
  lemma {:induction false} PutAllGet<V>(o: Object<V>, src: Object<V>, k: string)
    ensures k !in Keys(src) ==> Get(PutAll(o, src), k) == Get(o, k)
    ensures Valid(src) && k in Keys(src) ==> Get(PutAll(o, src), k) == Get(src, k)
    decreases |src|
  {
    if src != [] {
      var x, rest := src[0], src[1..];
      assert Keys(src) == [x.0] + Keys(rest);
      PutSpec(o, x.0, x.1);
      PutAllGet(Put(o, x.0, x.1), rest, k);
      if Valid(src) && k == x.0 {
        assert k !in Keys(rest) by {
          forall j | 0 <= j < |Keys(rest)| ensures Keys(rest)[j] != k {
            assert Keys(rest)[j] == Keys(src)[j + 1];
          }
        }
      }
      if Valid(src) && k != x.0 {
        assert Valid(rest) by {
          forall i, j | 0 <= i < j < |Keys(rest)| ensures Keys(rest)[i] != Keys(rest)[j] {
            assert Keys(rest)[i] == Keys(src)[i + 1] && Keys(rest)[j] == Keys(src)[j + 1];
          }
        }
      }
    }
  }

  /** Assigning the entries of `s` and then `x` is assigning the entries of `s + [x]`. */
  lemma {:induction false} PutAllSnoc<V>(o: Object<V>, s: Object<V>, x: (string, V))
    ensures PutAll(o, s + [x]) == Put(PutAll(o, s), x.0, x.1)
    decreases |s|
  {
    if s == [] {
      assert s + [x] == [x];
    } else {
      assert (s + [x])[1..] == s[1..] + [x];
      PutAllSnoc(Put(o, s[0].0, s[0].1), s[1..], x);
    }
  }

  /** Assigning the entries of `s` and then those of `t` is assigning the entries of `s + t`. */
  lemma {:induction false} PutAllAppend<V>(o: Object<V>, s: Object<V>, t: Object<V>)
    ensures PutAll(o, s + t) == PutAll(PutAll(o, s), t)
    decreases |s|
  {
    if s == [] {
      assert s + t == t;
    } else {
      assert (s + t)[1..] == s[1..] + t;
      PutAllAppend(Put(o, s[0].0, s[0].1), s[1..], t);
    }
  }

  /** When every assigned value is `v`, every assigned key ends up mapped to `v`, even if listed twice. */
  lemma {:induction false} PutAllSameValue<V>(o: Object<V>, src: Object<V>, v: V)
    requires forall i :: 0 <= i < |src| ==> src[i].1 == v
    ensures forall k :: k in Keys(src) ==> Get(PutAll(o, src), k) == Some(v)
    decreases |src|
  {
    if src != [] {
      var x, rest := src[0], src[1..];
      var o' := Put(o, x.0, x.1);
      assert Keys(src) == [x.0] + Keys(rest);
      assert PutAll(o, src) == PutAll(o', rest);
      PutSpec(o, x.0, x.1);
      PutAllSameValue(o', rest, v);
      forall k | k in Keys(src)
        ensures Get(PutAll(o, src), k) == Some(v)
      {
        if k !in Keys(rest) {
          PutAllGet(o', rest, k);
        }
      }
    }
  }
}
