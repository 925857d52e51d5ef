/** Small shared vocabulary: an optional value, and what it means for a
    sequence to list the keys of a dictionary in some iteration order. */
module Basics {

  datatype Option<+T> = None | Some(value: T)

  /** `r` is `base` with every key of `keys` set to `v`. */
  ghost predicate Overlay<K, V>(r: map<K, V>, base: map<K, V>, keys: set<K>, v: V) {
    && r.Keys == base.Keys + keys
    && (forall x | x in r :: r[x] == if x in keys then v else base[x])
  }

  /** Setting one more key to `v` extends an overlay by that key. */
  lemma OverlayStep<K, V>(r: map<K, V>, base: map<K, V>, keys: set<K>, v: V, x: K)
    requires Overlay(r, base, keys, v)
    ensures Overlay(r[x := v], base, keys + {x}, v)
  {
  }

  /** `r` is `base` with the keys of `keys` set or replaced, to any values. */
  ghost predicate Updates<K, V>(r: map<K, V>, base: map<K, V>, keys: set<K>) {
    && r.Keys == base.Keys + keys
    && (forall x | x in r && x !in keys :: r[x] == base[x])
  }

  /** Setting one more key extends an update by that key. */
  lemma UpdatesStep<K, V>(r: map<K, V>, base: map<K, V>, keys: set<K>, x: K, v: V)
    requires Updates(r, base, keys)
    ensures Updates(r[x := v], base, keys + {x})
  {
  }

  /** `order` visits every key of `keys` exactly once and nothing else.
      Swift's dictionary iteration promises no particular order, so every
      loop over a dictionary is specified against an arbitrary `order`. */
  ghost predicate Enumerates<K>(order: seq<K>, keys: set<K>) {
    && (forall i, j | 0 <= i < j < |order| :: order[i] != order[j])
    && (forall x | x in order :: x in keys)
    && (forall x | x in keys :: x in order)
  }

  /** Visiting one more, new, key extends an enumeration. */
  lemma EnumeratesExtend<K>(order: seq<K>, keys: set<K>, x: K)
    requires Enumerates(order, keys) && x !in keys
    ensures Enumerates(order + [x], keys + {x})
  {
    var o := order + [x];
    forall i, j | 0 <= i < j < |o| ensures o[i] != o[j] {
      if j < |order| {
        assert o[i] == order[i] && o[j] == order[j];
      } else {
        assert o[i] == order[i] && order[i] in keys;
      }
    }
  }

  /** One iteration of a loop over `keys`: taking any `x` from the keys not
      yet visited extends the enumeration of the visited ones. */
  lemma EnumeratesStep<K>(order: seq<K>, keys: set<K>, remaining: set<K>, x: K)
    requires remaining <= keys && x in remaining
    requires Enumerates(order, keys - remaining)
    ensures Enumerates(order + [x], keys - (remaining - {x}))
  {
    EnumeratesExtend(order, keys - remaining, x);
    assert keys - (remaining - {x}) == (keys - remaining) + {x};
  }

  /** Dropping the last visited key leaves an enumeration of the others. */
  lemma EnumeratesPrefix<K>(order: seq<K>, keys: set<K>)
    requires Enumerates(order, keys) && order != []
    ensures var last := order[|order| - 1];
      && last in keys && last !in order[..|order| - 1]
      && Enumerates(order[..|order| - 1], keys - {last})
  {
    var last := order[|order| - 1];
    var pre := order[..|order| - 1];
    assert order == pre + [last];
    forall i, j | 0 <= i < j < |pre| ensures pre[i] != pre[j] {
      assert order[i] != order[j];
    }
  }

  /** Every key visited along `order` is a key of the dictionary `cfg`. */
  ghost predicate Within<V>(order: seq<string>, cfg: map<string, V>) {
    forall x | x in order :: x in cfg
  }

  lemma PreWithin<V>(order: seq<string>, cfg: map<string, V>)
    requires Within(order, cfg) && order != []
    ensures Within(order[..|order| - 1], cfg)
    ensures forall n :: n in order <==> n in order[..|order| - 1] || n == order[|order| - 1]
  {
    assert order == order[..|order| - 1] + [order[|order| - 1]];
  }

  /** A configuration pass, the `forEach` over a string-keyed dictionary of
      a table-filling method: `step` applied to the tables `t` once per entry
      of `cfg`, in the iteration order `order`. */
  function Pass<T>(step: (T, string, string) -> T, t: T, cfg: map<string, string>, order: seq<string>): T
    requires Within(order, cfg)
    decreases |order|
  {
    if order == [] then t
    else
      var last := order[|order| - 1];
      PreWithin(order, cfg);
      step(Pass(step, t, cfg, order[..|order| - 1]), last, cfg[last])
  }

  /** One more entry at the end of the iteration order is one more step. */
  lemma PassSnoc<T>(step: (T, string, string) -> T, t: T, cfg: map<string, string>, order: seq<string>, x: string)
    requires Within(order, cfg) && x in cfg
    ensures Within(order + [x], cfg)
    ensures Pass(step, t, cfg, order + [x]) == step(Pass(step, t, cfg, order), x, cfg[x])
  {
    assert (order + [x])[..|order|] == order;
  }

  /** A property that every step keeps is kept by a whole pass, whatever
      the iteration order. */
  lemma {:induction false} PassKeeps<T>(step: (T, string, string) -> T, t: T, cfg: map<string, string>,
                                        order: seq<string>, inv: T -> bool)
    requires Within(order, cfg)
    requires forall u, n, x | inv(u) :: inv(step(u, n, x))
    ensures inv(t) ==> inv(Pass(step, t, cfg, order))
  {
    if order != [] {
      PreWithin(order, cfg);
      PassKeeps(step, t, cfg, order[..|order| - 1], inv);
    }
  }

  /** An enumeration has exactly as many entries as there are keys. */
  lemma {:induction false} EnumerationLength<K>(order: seq<K>, keys: set<K>)
    requires Enumerates(order, keys)
    ensures |order| == |keys|
  {
    if order != [] {
      var last := order[|order| - 1];
      EnumeratesPrefix(order, keys);
      EnumerationLength(order[..|order| - 1], keys - {last});
    }
  }
}
