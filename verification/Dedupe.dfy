/** Deduplicating the candidates of a scan: one entry per key, with exact provenance. */
module Dedupe {
  import opened Basics
  import opened Json
  import opened OrderedDict
  import opened Candidates

  function KeyFn(text: Json -> string): Candidate -> Key {
    c => KeyOf(text, c)
  }

  function Deduped(text: Json -> string, xs: seq<Candidate>): seq<Candidate> {
    Fold(KeyFn(text), Merge, [], xs)
  }

  lemma MergeFits(text: Json -> string)
    ensures KeepsKey(KeyFn(text), Merge)
  {
    forall a, b | KeyFn(text)(a) == KeyFn(text)(b) ensures KeyFn(text)(Merge(a, b)) == KeyFn(text)(a) {
      MergeKeepsKey(text, a, b);
    }
  }

  /** One entry per key, in the order in which keys first occur. */
  lemma KeysInFirstOrder(text: Json -> string, xs: seq<Candidate>)
    ensures
      var keys := Keys(KeyFn(text), Deduped(text, xs));
      Distinct(keys) && keys == FirstKeys([], Keys(KeyFn(text), xs))
  {
    MergeFits(text);
    FoldKeys(KeyFn(text), Merge, [], xs);
  }

  lemma DedupeIdempotent(text: Json -> string, xs: seq<Candidate>)
    ensures Deduped(text, Deduped(text, xs)) == Deduped(text, xs)
  {
    MergeFits(text);
    Idempotent(KeyFn(text), Merge, xs);
  }

  /** Deduplicating a part first makes no difference. */
  lemma DedupeIncremental(text: Json -> string, xs: seq<Candidate>, ys: seq<Candidate>)
    ensures Deduped(text, xs + ys) == Deduped(text, Deduped(text, xs) + ys)
  {
    FoldConcat(KeyFn(text), Merge, [], xs, ys);
    FoldConcat(KeyFn(text), Merge, [], Deduped(text, xs), ys);
    DedupeIdempotent(text, xs);
  }

  // ----- Provenance of a group -----

  /** Bom-refs, paths and scanners. */
  type Sources = (set<Json>, set<Json>, set<Json>)

  /** Everything a candidate speaks for. */
  ghost function Provenance(c: Candidate): Sources {
    (Refs(c), Paths(c), Scanners(c))
  }

  ghost function Join(p: Sources, q: Sources): Sources {
    (p.0 + q.0, p.1 + q.1, p.2 + q.2)
  }

  ghost function ProvenanceOf(xs: seq<Candidate>): Sources {
    if xs == [] then ({}, {}, {}) else Join(Provenance(xs[0]), ProvenanceOf(xs[1..]))
  }

  lemma MergeProvenance(a: Candidate, b: Candidate)
    ensures Provenance(Merge(a, b)) == Join(Provenance(a), Provenance(b))
    ensures Shape(Merge(a, b)) == Shape(a)
    ensures WellListed(Merge(a, b))
  {
    MergeRefs(a, b);
    MergePaths(a, b);
    MergeScanners(a, b);
    MergeListed(a, b);
  }

  function Shape(c: Candidate): Candidate {
    c.(metadata := map[])
  }

  function Keep(p: Candidate, q: Candidate): Candidate {
    p
  }

  /** The lists in the metadata are exactly what the candidate speaks for, without repeats. */
  ghost predicate WellListed(c: Candidate) {
    Listed(c, Refs(c), Paths(c), Scanners(c))
  }

  lemma JoinAssociates(p: Sources, q: Sources, r: Sources)
    ensures Join(Join(p, q), r) == Join(p, Join(q, r))
  {
    assert p.0 + q.0 + r.0 == p.0 + (q.0 + r.0) && p.1 + q.1 + r.1 == p.1 + (q.1 + r.1)
        && p.2 + q.2 + r.2 == p.2 + (q.2 + r.2);
  }

  lemma {:induction false} JoinAllIsProvenance(p: Sources, rest: seq<Candidate>)
    ensures JoinAll(Provenance, Join, p, rest) == Join(p, ProvenanceOf(rest))
    decreases |rest|
  {
    if rest == [] {
      assert p.0 + {} == p.0 && p.1 + {} == p.1 && p.2 + {} == p.2;
    } else {
      var q, r := Provenance(rest[0]), ProvenanceOf(rest[1..]);
      JoinAllIsProvenance(Join(p, q), rest[1..]);
      JoinAssociates(p, q, r);
    }
  }

  lemma {:induction false} JoinAllShape(s: Candidate, rest: seq<Candidate>)
    ensures JoinAll(Shape, Keep, s, rest) == s
    decreases |rest|
  {
    if rest != [] {
      JoinAllShape(s, rest[1..]);
    }
  }

  lemma GroupCarries(first: Candidate, rest: seq<Candidate>)
    ensures
      var r := MergeAll(Merge, first, rest);
      && Shape(r) == Shape(first)
      && Provenance(r) == Join(Provenance(first), ProvenanceOf(rest))
      && (rest != [] ==> WellListed(r))
  {
    forall a, b ensures Provenance(Merge(a, b)) == Join(Provenance(a), Provenance(b)) && Shape(Merge(a, b)) == Shape(a)
        && WellListed(Merge(a, b)) {
      MergeProvenance(a, b);
    }
    MergeAllMeasure(Merge, Provenance, Join, first, rest);
    JoinAllIsProvenance(Provenance(first), rest);
    MergeAllMeasure(Merge, Shape, Keep, first, rest);
    JoinAllShape(Shape(first), rest);
    if rest != [] {
      MergeAllLast(Merge, WellListed, first, rest);
    }
  }

  // ----- In terms of the candidates' fields -----

  /** Two candidates are one asset: both carry a fingerprint, the same one after rendering, and the same asset type,
      or neither carries one and their references are equal. */
  predicate Same(text: Json -> string, a: Candidate, b: Candidate) {
    var f, g := Read(a.metadata, FingerprintSha256), Read(b.metadata, FingerprintSha256);
    || (Truthy(f) && Truthy(g) && a.assetType == b.assetType && text(f) == text(g))
    || (!Truthy(f) && !Truthy(g) && a.bomRef == b.bomRef)
  }

  lemma SameIsKey(text: Json -> string, a: Candidate, b: Candidate)
    ensures Same(text, a, b) <==> KeyOf(text, a) == KeyOf(text, b)
  {
  }

  /** The candidates of the list that are the same asset as c, in order. */
  function SameAs(text: Json -> string, c: Candidate, xs: seq<Candidate>): seq<Candidate> {
    if xs == [] then []
    else if Same(text, xs[0], c) then [xs[0]] + SameAs(text, c, xs[1..])
    else SameAs(text, c, xs[1..])
  }

  lemma {:induction false} MembersAreSame(text: Json -> string, c: Candidate, xs: seq<Candidate>)
    ensures Members(KeyFn(text), KeyOf(text, c), xs) == SameAs(text, c, xs)
  {
    if xs != [] {
      SameIsKey(text, xs[0], c);
      MembersAreSame(text, c, xs[1..]);
    }
  }

  /** No two entries of the result are the same asset. */
  lemma EntriesDiffer(text: Json -> string, xs: seq<Candidate>, i: nat, j: nat)
    requires i < j < |Deduped(text, xs)|
    ensures !Same(text, Deduped(text, xs)[i], Deduped(text, xs)[j])
  {
    KeysInFirstOrder(text, xs);
    var r := Deduped(text, xs);
    assert Keys(KeyFn(text), r)[i] != Keys(KeyFn(text), r)[j];
    SameIsKey(text, r[i], r[j]);
  }

  lemma {:induction false} FirstKeysHave<K>(keys: seq<K>, more: seq<K>)
    ensures forall k :: k in FirstKeys(keys, more) <==> k in keys || k in more
    decreases |more|
  {
    if more != [] {
      FirstKeysHave(if more[0] in keys then keys else keys + [more[0]], more[1..]);
    }
  }

  /** Every candidate is the same asset as some entry. */
  lemma EntryFor(text: Json -> string, xs: seq<Candidate>, i: nat) returns (k: nat)
    requires i < |xs|
    ensures k < |Deduped(text, xs)| && Same(text, xs[i], Deduped(text, xs)[k])
  {
    KeysInFirstOrder(text, xs);
    var r := Deduped(text, xs);
    FirstKeysHave([], Keys(KeyFn(text), xs));
    assert Keys(KeyFn(text), xs)[i] in Keys(KeyFn(text), r);
    k :| 0 <= k < |r| && Keys(KeyFn(text), r)[k] == KeyOf(text, xs[i]);
    SameIsKey(text, xs[i], r[k]);
  }

  /** Two candidates end in the same entry if and only if they are the same asset. */
  lemma MergedExactly(text: Json -> string, xs: seq<Candidate>, i: nat, j: nat)
    requires i < |xs| && j < |xs|
    ensures
      var r := Deduped(text, xs);
      (exists k :: 0 <= k < |r| && Same(text, xs[i], r[k]) && Same(text, xs[j], r[k])) <==> Same(text, xs[i], xs[j])
  {
    var k := EntryFor(text, xs, i);
  }

  lemma {:induction false} FirstKeysOrder<K>(keys: seq<K>, more: seq<K>, k: nat, l: nat)
    requires |keys| <= k < l < |FirstKeys(keys, more)|
    ensures
      var r := FirstKeys(keys, more);
      exists i :: 0 <= i < |more| && more[i] == r[k] && r[l] !in more[..i + 1]
    decreases |more|
  {
    if more != [] {
      var r, next := FirstKeys(keys, more), if more[0] in keys then keys else keys + [more[0]];
      FirstKeysDistinctFrom(next, more[1..]);
      if k < |next| {
        assert more[..1] == [more[0]] && r[k] == more[0];
      } else {
        FirstKeysOrder(next, more[1..], k, l);
        var i :| 0 <= i < |more| - 1 && more[1..][i] == r[k] && r[l] !in more[1..][..i + 1];
        assert more[..i + 2] == [more[0]] + more[1..][..i + 1];
        assert more[i + 1] == r[k];
      }
    }
  }

  /** The keys so far stay in front, and later ones are different from them. */
  lemma {:induction false} FirstKeysDistinctFrom<K>(keys: seq<K>, more: seq<K>)
    ensures keys <= FirstKeys(keys, more)
    ensures forall l :: |keys| <= l < |FirstKeys(keys, more)| ==> FirstKeys(keys, more)[l] !in keys
    decreases |more|
  {
    if more != [] {
      FirstKeysDistinctFrom(if more[0] in keys then keys else keys + [more[0]], more[1..]);
    }
  }

  /** Entries come in the order in which their assets first occur. */
  lemma EntriesInOrder(text: Json -> string, xs: seq<Candidate>, k: nat, l: nat) returns (i: nat)
    requires k < l < |Deduped(text, xs)|
    ensures i < |xs| && Same(text, xs[i], Deduped(text, xs)[k])
    ensures forall j :: 0 <= j <= i ==> !Same(text, xs[j], Deduped(text, xs)[l])
  {
    KeysInFirstOrder(text, xs);
    var r, keys := Deduped(text, xs), Keys(KeyFn(text), xs);
    FirstKeysOrder([], keys, k, l);
    i :| 0 <= i < |keys| && keys[i] == FirstKeys([], keys)[k] && FirstKeys([], keys)[l] !in keys[..i + 1];
    SameIsKey(text, xs[i], r[k]);
    forall j | 0 <= j <= i ensures !Same(text, xs[j], r[l]) {
      SameIsKey(text, xs[j], r[l]);
      assert keys[..i + 1][j] == KeyOf(text, xs[j]);
    }
  }

  /** Each entry of the result is a group of candidates that are the same asset: it has its first member's other
      fields, it speaks for exactly the bom-refs, paths and scanners of its members, and, merged from two or more,
      it lists them without repeats. */
  lemma GroupsAreExact(text: Json -> string, xs: seq<Candidate>, i: nat)
    requires i < |Deduped(text, xs)|
    ensures
      var r := Deduped(text, xs)[i];
      var members := SameAs(text, r, xs);
      && members != [] && Shape(r) == Shape(members[0])
      && (|members| == 1 ==> r == members[0])
      && Provenance(r) == ProvenanceOf(members)
      && (|members| > 1 ==> WellListed(r))
  {
    MergeFits(text);
    FoldGroupFrom(KeyFn(text), Merge, [], xs, i);
    var members := Members(KeyFn(text), KeyOf(text, Deduped(text, xs)[i]), xs);
    MembersAreSame(text, Deduped(text, xs)[i], xs);
    GroupCarries(members[0], members[1..]);
  }

  /** The value of another metadata field in the first candidate that has it. */
  function FirstValue(name: string, xs: seq<Candidate>): Option<Json> {
    if xs == [] then None else Either(ValueOf(name)(xs[0]), FirstValue(name, xs[1..]))
  }

  function ValueOf(name: string): Candidate -> Option<Json> {
    (c: Candidate) => if Field.Other(name) in c.metadata then Some(c.metadata[Field.Other(name)]) else None
  }

  function Either(p: Option<Json>, q: Option<Json>): Option<Json> {
    if p.Some? then p else q
  }

  lemma {:induction false} JoinAllFirst(name: string, p: Option<Json>, rest: seq<Candidate>)
    ensures JoinAll(ValueOf(name), Either, p, rest) == Either(p, FirstValue(name, rest))
    decreases |rest|
  {
    if rest != [] {
      JoinAllFirst(name, Either(p, ValueOf(name)(rest[0])), rest[1..]);
    }
  }

  /** An entry's other metadata: each field has the value of the first of its candidates that has the field. */
  lemma GroupFields(text: Json -> string, xs: seq<Candidate>, i: nat, name: string)
    requires i < |Deduped(text, xs)|
    ensures
      var r := Deduped(text, xs)[i];
      ValueOf(name)(r) == FirstValue(name, SameAs(text, r, xs))
  {
    MergeFits(text);
    FoldGroupFrom(KeyFn(text), Merge, [], xs, i);
    var members := Members(KeyFn(text), KeyOf(text, Deduped(text, xs)[i]), xs);
    MembersAreSame(text, Deduped(text, xs)[i], xs);
    forall a, b ensures ValueOf(name)(Merge(a, b)) == Either(ValueOf(name)(a), ValueOf(name)(b)) {
      MergeFields(a, b, Field.Other(name));
    }
    MergeAllMeasure(Merge, ValueOf(name), Either, members[0], members[1..]);
    JoinAllFirst(name, ValueOf(name)(members[0]), members[1..]);
  }

  method DedupeCandidates(text: Json -> string, candidates: seq<Candidate>) returns (result: seq<Candidate>)
    ensures result == Deduped(text, candidates)
  {
    MergeFits(text);
    result := FoldLoop(KeyFn(text), Merge, candidates);
  }
}
