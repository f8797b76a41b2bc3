/** Python dictionaries with string keys, as the gateway uses them.

    A Python `dict` remembers insertion order, so it is modelled here as the
    sequence of its items in that order. Assigning to an existing key replaces
    the value and keeps the key where it was; assigning to a new key appends it.
 */
module Dicts {

  datatype Option<+T> = None | Some(value: T)

  /** The items of a dict, in iteration (insertion) order. */
  type Items<V> = seq<(string, V)>

  /** `list(d.keys())` */
  function Keys<V>(d: Items<V>): (ks: seq<string>)
    ensures |ks| == |d|
    ensures forall i :: 0 <= i < |d| ==> ks[i] == d[i].0
  {
    if d == [] then [] else [d[0].0] + Keys(d[1..])
  }

  /** Item sequences whose keys agree position by position have the same
      key list. */
  lemma KeysAgree<A, B>(a: Items<A>, b: Items<B>)
    requires |a| == |b| && forall i :: 0 <= i < |a| ==> a[i].0 == b[i].0
    ensures Keys(a) == Keys(b)
  {
    assert forall i :: 0 <= i < |a| ==> Keys(a)[i] == Keys(b)[i];
  }

  /** Every Python dict satisfies this: no key occurs twice. */
  predicate UniqueKeys<V>(d: Items<V>) {
    forall i, j :: 0 <= i < j < |d| ==> d[i].0 != d[j].0
  }

  /** True when `k` does not occur among the first `n` items. */
  predicate AbsentBefore<V>(d: Items<V>, k: string, n: int)
    requires n <= |d|
  {
    forall j :: 0 <= j < n ==> d[j].0 != k
  }

  /** `d.get(k)`: the value stored under `k`, or None when `k` is absent. */
  function Get<V>(d: Items<V>, k: string): (r: Option<V>)
    ensures r.None? <==> k !in Keys(d)
    ensures forall i :: 0 <= i < |d| && d[i].0 == k && AbsentBefore(d, k, i) ==> r == Some(d[i].1)
  {
    if d == [] then None
    else if d[0].0 == k then Some(d[0].1)
    else
      var r := Get(d[1..], k);
      assert forall i :: 1 <= i < |d| && AbsentBefore(d, k, i) ==> AbsentBefore(d[1..], k, i - 1);
      r
  }

  /** `d[k] = v`, as a value: the item for `k` is replaced in place when `k`
      is present, and appended at the end when it is not. */
  function Put<V>(d: Items<V>, k: string, v: V): (r: Items<V>)
    ensures k !in Keys(d) ==> r == d + [(k, v)]
    ensures k in Keys(d) ==> |r| == |d| && Keys(r) == Keys(d)
  {
    if d == [] then [(k, v)]
    else if d[0].0 == k then [(k, v)] + d[1..]
    else
      var rest := Put(d[1..], k, v);
      assert ([d[0]] + rest)[1..] == rest;
      [d[0]] + rest
  }

  /** Overwriting a present key: the new value lands exactly where the key
      first occurs, and nothing else moves or changes. */
  lemma {:induction false} PutReplacesInPlace<V>(d: Items<V>, k: string, v: V, i: nat)
    requires i < |d| && d[i].0 == k && AbsentBefore(d, k, i)
    ensures Put(d, k, v) == d[i := (k, v)]
  {
    var tail := d[1..];
    assert d == [d[0]] + tail;
    if i == 0 {
      UpdateHead(d[0], tail, (k, v));
    } else {
      assert AbsentBefore(tail, k, i - 1) by {
        forall j | 0 <= j < i - 1 ensures tail[j].0 != k {
          assert tail[j] == d[j + 1];
        }
      }
      PutReplacesInPlace(tail, k, v, i - 1);
      UpdateBehindHead(d[0], tail, i - 1, (k, v));
    }
  }

  lemma UpdateHead<T>(x: T, t: seq<T>, y: T)
    ensures ([x] + t)[0 := y] == [y] + t
  {
  }

  lemma UpdateBehindHead<T>(x: T, t: seq<T>, i: nat, y: T)
    requires i < |t|
    ensures ([x] + t)[i + 1 := y] == [x] + t[i := y]
  {
  }

  /** Every item after `d[k] = v` is either the new item for `k` or the item
      that stood at the same place before. */
  lemma {:induction false} PutItems<V>(d: Items<V>, k: string, v: V)
    ensures forall i :: 0 <= i < |Put(d, k, v)| ==>
      Put(d, k, v)[i] == (k, v) || (i < |d| && Put(d, k, v)[i] == d[i])
  {
    if d != [] && d[0].0 != k {
      PutItems(d[1..], k, v);
      var r := Put(d, k, v);
      assert r == [d[0]] + Put(d[1..], k, v);
      forall i | 1 <= i < |r| ensures r[i] == (k, v) || (i < |d| && r[i] == d[i]) {
        assert r[i] == Put(d[1..], k, v)[i - 1];
      }
    }
  }

  /** `d[k] = v` keeps a dict's keys unique. */
  lemma {:induction false} PutKeepsUniqueKeys<V>(d: Items<V>, k: string, v: V)
    requires UniqueKeys(d)
    ensures UniqueKeys(Put(d, k, v))
  {
    var r := Put(d, k, v);
    if k in Keys(d) {
      assert forall i :: 0 <= i < |r| ==> r[i].0 == Keys(r)[i] == Keys(d)[i] == d[i].0;
    }
  }

  /** Two dicts with the same keys in the same order still have them after
      both store under the same key. */
  lemma {:induction false} PutSameKeys<A, B>(a: Items<A>, b: Items<B>, k: string, x: A, y: B)
    requires Keys(a) == Keys(b)
    ensures Keys(Put(a, k, x)) == Keys(Put(b, k, y))
  {
    if k !in Keys(a) {
      var a', b' := a + [(k, x)], b + [(k, y)];
      forall i | 0 <= i < |a'| ensures a'[i].0 == b'[i].0 {
        if i < |a| { assert a'[i].0 == Keys(a)[i] && b'[i].0 == Keys(b)[i]; }
      }
      KeysAgree(a', b');
    }
  }

  /** Reading back after `d[k] = v`: `k` now holds `v`, every other key holds
      what it held before. */
  lemma {:induction false} GetPut<V>(d: Items<V>, k: string, v: V, k': string)
    ensures Get(Put(d, k, v), k') == if k' == k then Some(v) else Get(d, k')
  {
    if d != [] && d[0].0 != k {
      GetPut(d[1..], k, v, k');
    }
  }

  /** Storing under the same key twice leaves exactly what storing the
      second value once would: the last writer wins. */
  lemma {:induction false} PutTwice<V>(d: Items<V>, k: string, v: V, v': V)
    ensures Put(Put(d, k, v), k, v') == Put(d, k, v')
  {
    if d == [] {
      assert Put(d, k, v) == [(k, v)];
    } else if d[0].0 == k {
      assert Put(d, k, v) == [(k, v)] + d[1..];
    } else {
      PutTwice(d[1..], k, v, v');
      assert Put(d, k, v) == [d[0]] + Put(d[1..], k, v);
    }
  }
}
