/** Folding a list into an insertion-ordered dictionary whose entries are merged on a repeated key. */
module OrderedDict {
  import opened Basics

  predicate Distinct<T(==)>(xs: seq<T>) {
    forall i, j :: 0 <= i < j < |xs| ==> xs[i] != xs[j]
  }

  /** Merging entries of one key gives an entry of that key. */
  ghost predicate KeepsKey<C(!new), K>(key: C -> K, merge: (C, C) -> C) {
    forall a, b :: key(a) == key(b) ==> key(merge(a, b)) == key(a)
  }

  function Keys<C, K>(key: C -> K, xs: seq<C>): (r: seq<K>)
    ensures |r| == |xs| && forall i :: 0 <= i < |xs| ==> r[i] == key(xs[i])
  {
    seq(|xs|, i requires 0 <= i < |xs| => key(xs[i]))
  }

  /** The entry with this key, if any. */
  function Find<C, K(==)>(key: C -> K, acc: seq<C>, k: K): (r: Option<nat>)
    ensures r.Some? ==> r.value < |acc| && key(acc[r.value]) == k
    ensures r.None? ==> forall i :: 0 <= i < |acc| ==> key(acc[i]) != k
  {
    if acc == [] then None
    else if key(acc[|acc| - 1]) == k then Some(|acc| - 1)
    else Find(key, acc[..|acc| - 1], k)
  }

  function Insert<C, K(==)>(key: C -> K, merge: (C, C) -> C, acc: seq<C>, c: C): seq<C> {
    match Find(key, acc, key(c))
    case Some(i) => acc[i := merge(acc[i], c)]
    case None => acc + [c]
  }

  function Fold<C, K(==)>(key: C -> K, merge: (C, C) -> C, acc: seq<C>, xs: seq<C>): seq<C>
    decreases |xs|
  {
    if xs == [] then acc else Fold(key, merge, Insert(key, merge, acc, xs[0]), xs[1..])
  }

  /** The keys in order of first occurrence, after those already present. */
  function FirstKeys<K(==)>(keys: seq<K>, more: seq<K>): seq<K>
    decreases |more|
  {
    if more == [] then keys else FirstKeys(if more[0] in keys then keys else keys + [more[0]], more[1..])
  }

  lemma InsertKeys<C(!new), K>(key: C -> K, merge: (C, C) -> C, acc: seq<C>, c: C)
    requires KeepsKey(key, merge) && Distinct(Keys(key, acc))
    ensures
      var keys, now := Keys(key, acc), Keys(key, Insert(key, merge, acc, c));
      now == (if key(c) in keys then keys else keys + [key(c)]) && Distinct(now)
  {
    var keys := Keys(key, acc);
    match Find(key, acc, key(c)) {
      case Some(i) =>
        assert keys[i] == key(c);
        assert Keys(key, Insert(key, merge, acc, c)) == keys;
      case None =>
        assert key(c) !in keys;
        assert Keys(key, Insert(key, merge, acc, c)) == keys + [key(c)];
    }
  }

  /** One entry per key, in first-occurrence order. */
  lemma {:induction false} FoldKeys<C(!new), K>(key: C -> K, merge: (C, C) -> C, acc: seq<C>, xs: seq<C>)
    requires KeepsKey(key, merge) && Distinct(Keys(key, acc))
    ensures Distinct(Keys(key, Fold(key, merge, acc, xs)))
    ensures Keys(key, Fold(key, merge, acc, xs)) == FirstKeys(Keys(key, acc), Keys(key, xs))
    decreases |xs|
  {
    if xs != [] {
      InsertKeys(key, merge, acc, xs[0]);
      FoldKeys(key, merge, Insert(key, merge, acc, xs[0]), xs[1..]);
      assert Keys(key, xs)[1..] == Keys(key, xs[1..]);
    }
  }

  lemma {:induction false} FoldConcat<C, K>(key: C -> K, merge: (C, C) -> C, acc: seq<C>, xs: seq<C>, ys: seq<C>)
    ensures Fold(key, merge, acc, xs + ys) == Fold(key, merge, Fold(key, merge, acc, xs), ys)
    decreases |xs|
  {
    if xs == [] {
      assert xs + ys == ys;
    } else {
      assert (xs + ys)[1..] == xs[1..] + ys;
      FoldConcat(key, merge, Insert(key, merge, acc, xs[0]), xs[1..], ys);
    }
  }

  /** Elements with new keys are only appended. */
  lemma {:induction false} FoldDistinct<C, K>(key: C -> K, merge: (C, C) -> C, acc: seq<C>, xs: seq<C>)
    requires Distinct(Keys(key, acc + xs))
    ensures Fold(key, merge, acc, xs) == acc + xs
    decreases |xs|
  {
    if xs == [] {
      assert acc + xs == acc;
    } else {
      forall i | 0 <= i < |acc| ensures key(acc[i]) != key(xs[0]) {
        assert Keys(key, acc + xs)[i] != Keys(key, acc + xs)[|acc|];
      }
      assert (acc + [xs[0]]) + xs[1..] == acc + xs;
      FoldDistinct(key, merge, acc + [xs[0]], xs[1..]);
    }
  }

  lemma Idempotent<C(!new), K>(key: C -> K, merge: (C, C) -> C, xs: seq<C>)
    requires KeepsKey(key, merge)
    ensures Fold(key, merge, [], Fold(key, merge, [], xs)) == Fold(key, merge, [], xs)
  {
    FoldKeys(key, merge, [], xs);
    var r := Fold(key, merge, [], xs);
    assert [] + r == r;
    FoldDistinct(key, merge, [], r);
  }

  // ----- Groups -----

  /** The elements of one key, in order. */
  function Members<C, K(==)>(key: C -> K, k: K, xs: seq<C>): seq<C> {
    if xs == [] then []
    else if key(xs[0]) == k then [xs[0]] + Members(key, k, xs[1..])
    else Members(key, k, xs[1..])
  }

  function MergeAll<C>(merge: (C, C) -> C, first: C, rest: seq<C>): C
    decreases |rest|
  {
    if rest == [] then first else MergeAll(merge, merge(first, rest[0]), rest[1..])
  }

  lemma {:induction false} FindIsAt<C, K>(key: C -> K, acc: seq<C>, i: nat)
    requires i < |acc| && Distinct(Keys(key, acc))
    ensures Find(key, acc, key(acc[i])) == Some(i)
  {
    var r := Find(key, acc, key(acc[i]));
    assert Keys(key, acc)[r.value] == Keys(key, acc)[i];
  }

  /** An entry keeps its place and key, and ends up as its members merged in order, whatever comes between. */
  lemma {:induction false} FoldGroup<C(!new), K>(key: C -> K, merge: (C, C) -> C, acc: seq<C>, xs: seq<C>, i: nat)
    requires KeepsKey(key, merge) && Distinct(Keys(key, acc)) && i < |acc|
    ensures
      var r := Fold(key, merge, acc, xs);
      && |acc| <= |r| && key(r[i]) == key(acc[i])
      && r[i] == MergeAll(merge, acc[i], Members(key, key(acc[i]), xs))
    decreases |xs|
  {
    if xs != [] {
      var acc' := Insert(key, merge, acc, xs[0]);
      InsertKeys(key, merge, acc, xs[0]);
      assert Keys(key, acc')[i] == Keys(key, acc)[i];
      FoldGroup(key, merge, acc', xs[1..], i);
      if key(xs[0]) == key(acc[i]) {
        FindIsAt(key, acc, i);
        var rest := Members(key, key(acc[i]), xs[1..]);
        assert ([xs[0]] + rest)[1..] == rest;
      } else {
        assert acc'[i] == acc[i];
      }
    }
  }

  /** A later entry's key differs from every key already present. */
  lemma KeyElsewhere<C(!new), K>(key: C -> K, merge: (C, C) -> C, acc: seq<C>, xs: seq<C>, i: nat, j: nat)
    requires KeepsKey(key, merge) && Distinct(Keys(key, acc)) && |acc| <= i < |Fold(key, merge, acc, xs)| && j < |acc|
    ensures key(Fold(key, merge, acc, xs)[i]) != key(acc[j])
  {
    FoldKeys(key, merge, acc, xs);
    FoldGroup(key, merge, acc, xs, j);
    var keys := Keys(key, Fold(key, merge, acc, xs));
    assert keys[j] != keys[i];
  }

  /** r is its key's elements of xs merged in order. */
  ghost predicate IsGroup<C, K>(key: C -> K, merge: (C, C) -> C, r: C, xs: seq<C>) {
    var members := Members(key, key(r), xs);
    members != [] && r == MergeAll(merge, members[0], members[1..])
  }

  lemma {:induction false} FoldGroupFrom<C(!new), K>(key: C -> K, merge: (C, C) -> C, acc: seq<C>, xs: seq<C>, i: nat)
    requires KeepsKey(key, merge) && Distinct(Keys(key, acc)) && |acc| <= i < |Fold(key, merge, acc, xs)|
    ensures IsGroup(key, merge, Fold(key, merge, acc, xs)[i], xs)
    decreases |xs|
  {
    if xs != [] {
      var acc', rest := Insert(key, merge, acc, xs[0]), xs[1..];
      InsertKeys(key, merge, acc, xs[0]);
      var k := key(Fold(key, merge, acc', rest)[i]);
      if i < |acc'| {
        FoldGroup(key, merge, acc', rest, i);
        var others := Members(key, k, rest);
        assert ([xs[0]] + others)[1..] == others;
      } else {
        FoldGroupFrom(key, merge, acc', rest, i);
        var found := Find(key, acc, key(xs[0]));
        KeyElsewhere(key, merge, acc', rest, i, if found.Some? then found.value else |acc|);
      }
    }
  }

  /** A measure that merging joins is joined over the whole group. */
  ghost function JoinAll<C, P>(measure: C -> P, join: (P, P) -> P, p: P, rest: seq<C>): P
    decreases |rest|
  {
    if rest == [] then p else JoinAll(measure, join, join(p, measure(rest[0])), rest[1..])
  }

  lemma {:induction false} MergeAllMeasure<C(!new), P>(merge: (C, C) -> C, measure: C -> P, join: (P, P) -> P, first: C,
      rest: seq<C>)
    requires forall a, b :: measure(merge(a, b)) == join(measure(a), measure(b))
    ensures measure(MergeAll(merge, first, rest)) == JoinAll(measure, join, measure(first), rest)
    decreases |rest|
  {
    if rest != [] {
      MergeAllMeasure(merge, measure, join, merge(first, rest[0]), rest[1..]);
    }
  }

  /** What holds of every merged pair holds of every group of two or more. */
  lemma {:induction false} MergeAllLast<C(!new)>(merge: (C, C) -> C, good: C -> bool, first: C, rest: seq<C>)
    requires forall a, b :: good(merge(a, b))
    requires rest != []
    ensures good(MergeAll(merge, first, rest))
    decreases |rest|
  {
    if rest[1..] != [] {
      MergeAllLast(merge, good, merge(first, rest[0]), rest[1..]);
    }
  }

  /** A dictionary with this insertion order holds these entries. */
  ghost predicate Represents<C, K>(key: C -> K, order: seq<K>, byKey: map<K, C>, acc: seq<C>) {
    && order == Keys(key, acc) && Distinct(order)
    && (forall k :: 0 <= k < |acc| ==> order[k] in byKey && byKey[order[k]] == acc[k])
    && (forall k :: k in byKey ==> k in order)
  }

  lemma Replaced<C(!new), K>(key: C -> K, merge: (C, C) -> C, order: seq<K>, byKey: map<K, C>, acc: seq<C>, c: C)
    requires KeepsKey(key, merge) && Represents(key, order, byKey, acc) && key(c) in byKey
    ensures Represents(key, order, byKey[key(c) := merge(byKey[key(c)], c)], Insert(key, merge, acc, c))
  {
    InsertKeys(key, merge, acc, c);
    var at :| 0 <= at < |order| && order[at] == key(c);
    FindIsAt(key, acc, at);
    var now := Insert(key, merge, acc, c);
    assert now == acc[at := merge(acc[at], c)];
    forall k | 0 <= k < |now| && k != at ensures order[k] != key(c) {
      assert order[k] != order[at];
    }
  }

  lemma Appended<C(!new), K>(key: C -> K, merge: (C, C) -> C, order: seq<K>, byKey: map<K, C>, acc: seq<C>, c: C)
    requires KeepsKey(key, merge) && Represents(key, order, byKey, acc) && key(c) !in byKey
    ensures Represents(key, order + [key(c)], byKey[key(c) := c], Insert(key, merge, acc, c))
  {
    InsertKeys(key, merge, acc, c);
    assert Find(key, acc, key(c)).None?;
  }

  /** The loop over a Python dictionary, which keeps the place of the first insertion. */
  method FoldLoop<C(!new), K(==)>(key: C -> K, merge: (C, C) -> C, xs: seq<C>) returns (result: seq<C>)
    requires KeepsKey(key, merge)
    ensures result == Fold(key, merge, [], xs)
  {
    var order: seq<K>, byKey: map<K, C> := [], map[];
    ghost var acc: seq<C> := [];
    for i := 0 to |xs|
      invariant Fold(key, merge, [], xs) == Fold(key, merge, acc, xs[i..])
      invariant Represents(key, order, byKey, acc)
    {
      var c := xs[i];
      var k := key(c);
      assert xs[i..][1..] == xs[i + 1..];
      if k in byKey {
        Replaced(key, merge, order, byKey, acc, c);
        byKey := byKey[k := merge(byKey[k], c)];
      } else {
        Appended(key, merge, order, byKey, acc, c);
        byKey := byKey[k := c];
        order := order + [k];
      }
      acc := Insert(key, merge, acc, c);
    }
    result := seq(|order|, k requires 0 <= k < |order| && order[k] in byKey => byKey[order[k]]);
    assert result == acc;
  }
}
