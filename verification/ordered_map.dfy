/**
 * JavaScript plain objects as insertion-ordered string-keyed maps.
 * A map is a sequence of entries; assigning an existing key keeps its
 * position, assigning a new key appends it, as property assignment does.
 */
module OrderedMap {
  import opened Results

  type OMap<V> = seq<(string, V)>

  /** `Object.keys(m)`. */
  function Keys<V>(m: OMap<V>): (ks: seq<string>)
    ensures |ks| == |m|
    ensures forall i :: 0 <= i < |m| ==> ks[i] == m[i].0
  {
    if |m| == 0 then [] else Keys(m[..|m| - 1]) + [m[|m| - 1].0]
  }

  /** `big` starts with the keys of `small`, in the same order. */
  predicate Extends<V>(small: OMap<V>, big: OMap<V>) {
    |small| <= |big| && forall i :: 0 <= i < |small| ==> big[i].0 == small[i].0
  }

  /** No key appears twice, as in every JavaScript object. */
  predicate Distinct<V>(m: OMap<V>) {
    forall i, j :: 0 <= i < j < |m| ==> m[i].0 != m[j].0
  }

  predicate HasKey<V>(m: OMap<V>, k: string) {
    exists i :: 0 <= i < |m| && m[i].0 == k
  }

  /** Position of the first entry for `k`. */
  function Position<V>(m: OMap<V>, k: string): (r: Option<nat>)
    ensures r.Some? ==> r.value < |m| && m[r.value].0 == k
    ensures r.Some? ==> forall j :: 0 <= j < r.value ==> m[j].0 != k
    ensures r.None? <==> !HasKey(m, k)
  {
    if |m| == 0 then None
    else if m[0].0 == k then Some(0)
    else match Position(m[1..], k)
      case None => None
      case Some(p) => Some(p + 1)
  }

  /** `m[k]`, with an absent key as `None`. */
  function Get<V>(m: OMap<V>, k: string): (r: Option<V>)
    ensures r.Some? <==> HasKey(m, k)
  {
    match Position(m, k)
    case None => None
    case Some(p) => Some(m[p].1)
  }

  /** `Position` is determined by its contract: the first entry with key `k`. */
  lemma PositionIs<V>(m: OMap<V>, k: string, p: nat)
    requires p < |m| && m[p].0 == k
    requires forall j :: 0 <= j < p ==> m[j].0 != k
    ensures Position(m, k) == Some(p)
  {
  }

  /** Maps with the same key sequence place every key at the same position. */
  lemma PositionSameKeys<V>(m: OMap<V>, r: OMap<V>, k: string)
    requires |m| == |r|
    requires forall i :: 0 <= i < |m| ==> m[i].0 == r[i].0
    ensures Position(r, k) == Position(m, k)
  {
    if HasKey(m, k) {
      PositionIs(r, k, Position(m, k).value);
    }
  }

  /** Appending an entry for another key does not move `k'`. */
  lemma PositionAppend<V>(m: OMap<V>, k: string, v: V, k': string)
    requires k' != k
    ensures Position(m + [(k, v)], k') == Position(m, k')
  {
    var r := m + [(k, v)];
    if HasKey(m, k') {
      PositionIs(r, k', Position(m, k').value);
    } else {
      assert !HasKey(r, k');
    }
  }

  /** `m[k] = v`: overwrite in place, or append a new entry. */
  function Put<V>(m: OMap<V>, k: string, v: V): (r: OMap<V>)
    ensures Get(r, k) == Some(v)
    ensures forall k' :: k' != k ==> Get(r, k') == Get(m, k')
    ensures HasKey(m, k) ==> Keys(r) == Keys(m)
    ensures !HasKey(m, k) ==> Keys(r) == Keys(m) + [k]
    ensures Distinct(m) ==> Distinct(r)
  {
    match Position(m, k)
    case Some(p) =>
      OverwriteFacts(m, k, v, p);
      m[p := (k, v)]
    case None =>
      AppendFacts(m, k, v);
      m + [(k, v)]
  }

  /** Overwriting the first entry for `k` changes only the value read at `k`. */
  lemma OverwriteFacts<V>(m: OMap<V>, k: string, v: V, p: nat)
    requires Position(m, k) == Some(p)
    ensures Get(m[p := (k, v)], k) == Some(v)
    ensures forall k' :: k' != k ==> Get(m[p := (k, v)], k') == Get(m, k')
    ensures Keys(m[p := (k, v)]) == Keys(m)
    ensures Distinct(m) ==> Distinct(m[p := (k, v)])
  {
    var r := m[p := (k, v)];
    assert forall i :: 0 <= i < |m| ==> r[i].0 == m[i].0;
    PositionIs(r, k, p);
    forall k' | k' != k ensures Get(r, k') == Get(m, k') {
      PositionSameKeys(m, r, k');
    }
    assert forall i :: 0 <= i < |m| ==> Keys(r)[i] == Keys(m)[i];
  }

  /** Appending an entry for a new key `k` changes only the value read at `k`. */
  lemma AppendFacts<V>(m: OMap<V>, k: string, v: V)
    requires !HasKey(m, k)
    ensures Get(m + [(k, v)], k) == Some(v)
    ensures forall k' :: k' != k ==> Get(m + [(k, v)], k') == Get(m, k')
    ensures Keys(m + [(k, v)]) == Keys(m) + [k]
    ensures Distinct(m) ==> Distinct(m + [(k, v)])
  {
    var r := m + [(k, v)];
    assert forall i :: 0 <= i < |m| ==> r[i].0 == m[i].0;
    PositionIs(r, k, |m|);
    forall k' | k' != k ensures Get(r, k') == Get(m, k') {
      PositionAppend(m, k, v, k');
    }
    assert r[..|r| - 1] == m;
  }

  /** The value the last entry for `k` in `es` carries. */
  function LastValue<V>(es: OMap<V>, k: string): (r: Option<V>)
    ensures r.Some? <==> HasKey(es, k)
  {
    if |es| == 0 then None
    else if es[|es| - 1].0 == k then Some(es[|es| - 1].1)
    else
      var r := LastValue(es[..|es| - 1], k);
      assert HasKey(es[..|es| - 1], k) ==> HasKey(es, k);
      assert HasKey(es, k) ==> HasKey(es[..|es| - 1], k) by {
        if HasKey(es, k) {
          var i :| 0 <= i < |es| && es[i].0 == k;
          assert es[..|es| - 1][i].0 == k;
        }
      }
      r
  }

  /** Without repeated keys, the last entry for a key is its only entry. */
  lemma {:induction false} LastValueOfDistinct<V>(es: OMap<V>, k: string)
    requires Distinct(es)
    ensures LastValue(es, k) == Get(es, k)
  {
    if |es| > 0 {
      var init := es[..|es| - 1];
      var last := es[|es| - 1];
      assert Distinct(init);
      LastValueOfDistinct(init, k);
      if last.0 == k {
        PositionIs(es, k, |es| - 1);
      } else {
        assert LastValue(es, k) == LastValue(init, k);
        assert es == init + [last];
        PositionAppend(init, last.0, last.1, k);
        GetPrefix(init, es, k);
      }
    }
  }

  /** Where `m` and its extension `r` place `k` alike, they read the same value there. */
  lemma GetPrefix<V>(m: OMap<V>, r: OMap<V>, k: string)
    requires |m| <= |r| && forall i :: 0 <= i < |m| ==> r[i] == m[i]
    requires Position(r, k) == Position(m, k)
    ensures Get(r, k) == Get(m, k)
  {
  }

  lemma HasKeySnoc<V>(es: OMap<V>, k: string)
    requires |es| > 0
    ensures HasKey(es, k) <==> HasKey(es[..|es| - 1], k) || k == es[|es| - 1].0
  {
    var init := es[..|es| - 1];
    if HasKey(init, k) {
      var i :| 0 <= i < |init| && init[i].0 == k;
      assert es[i].0 == k;
    }
    if HasKey(es, k) && k != es[|es| - 1].0 {
      var i :| 0 <= i < |es| && es[i].0 == k;
      assert init[i].0 == k;
    }
  }

  /**
   * Assigning every entry of `es`, in order, onto `m`: the object spread
   * `{...m, ...es}`. Later entries win; keys of `m` keep their positions.
   */
  function PutAll<V>(m: OMap<V>, es: OMap<V>): (r: OMap<V>)
    ensures forall k :: Get(r, k) == (if HasKey(es, k) then LastValue(es, k) else Get(m, k))
  {
    if |es| == 0 then m
    else
      var last := es[|es| - 1];
      var r := Put(PutAll(m, es[..|es| - 1]), last.0, last.1);
      assert forall k :: HasKey(es, k) <==> HasKey(es[..|es| - 1], k) || k == last.0 by {
        forall k ensures HasKey(es, k) <==> HasKey(es[..|es| - 1], k) || k == last.0 {
          HasKeySnoc(es, k);
        }
      }
      r
  }

  /** Spreading keeps the keys of `m` first and in place, and keeps keys distinct. */
  lemma {:induction false} PutAllKeys<V>(m: OMap<V>, es: OMap<V>)
    ensures Extends(m, PutAll(m, es))
    ensures Distinct(m) ==> Distinct(PutAll(m, es))
  {
    if |es| > 0 {
      var last := es[|es| - 1];
      var r0 := PutAll(m, es[..|es| - 1]);
      PutAllKeys(m, es[..|es| - 1]);
      assert PutAll(m, es) == Put(r0, last.0, last.1);
      PutExtends(r0, last.0, last.1);
      ExtendsTransitive(m, r0, PutAll(m, es));
    }
  }

  /** A single assignment keeps existing keys first and in place. */
  lemma PutExtends<V>(m: OMap<V>, k: string, v: V)
    ensures Extends(m, Put(m, k, v))
  {
    var r := Put(m, k, v);
    assert forall i :: 0 <= i < |m| ==> Keys(r)[i] == Keys(m)[i];
  }

  /** `{...m, ...es}` for a genuine object `es`: its entries win, others keep `m`'s value. */
  lemma MergeGet<V>(m: OMap<V>, es: OMap<V>, k: string)
    requires Distinct(es)
    ensures Get(PutAll(m, es), k) == (if HasKey(es, k) then Get(es, k) else Get(m, k))
  {
    LastValueOfDistinct(es, k);
  }

  /** Spreading a distinct map onto the empty object copies it. */
  lemma {:induction false} PutAllOntoEmpty<V>(es: OMap<V>)
    requires Distinct(es)
    ensures PutAll([], es) == es
  {
    if |es| > 0 {
      var init := es[..|es| - 1];
      var last := es[|es| - 1];
      PutAllOntoEmpty(init);
      assert !HasKey(init, last.0);
      assert PutAll([], es) == Put(init, last.0, last.1);
      assert Position(init, last.0) == None;
      assert init + [last] == es;
    }
  }

  lemma ExtendsTransitive<V>(a: OMap<V>, b: OMap<V>, c: OMap<V>)
    requires Extends(a, b) && Extends(b, c)
    ensures Extends(a, c)
  {
  }
}
