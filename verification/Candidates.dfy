/** Deduplication of scan candidates: a fold into an insertion-ordered dictionary that merges provenance. */
module Candidates {
  import opened Json
  import opened OrderedDict

  /** The metadata keys: those that deduplication reads or writes, and all others. */
  datatype Field =
    | FingerprintSha256 | Scanner | SourceScanners | Path | SourcePaths | SourceBomRefs | Merged | Other(name: string)

  type Metadata = map<Field, Json>

  function Read(m: Metadata, f: Field): Json {
    if f in m then m[f] else JNull
  }

  datatype Candidate = Candidate(target: nat, kind: string, name: string, assetType: string, algorithm: string,
                                 family: string, bomRef: string, metadata: Metadata)

  /** Tagged where the code prefixes text. */
  datatype Key = Fingerprint(assetType: string, digest: string) | Reference(bomRef: string)

  const MULTIPLE := JStr("multiple")

  /** `text` renders a value and lower-cases it. */
  function KeyOf(text: Json -> string, c: Candidate): Key {
    var fingerprint := Read(c.metadata, FingerprintSha256);
    if Truthy(fingerprint) then Fingerprint(c.assetType, text(fingerprint)) else Reference(c.bomRef)
  }

  // ----- Lists without blanks or repeats -----

  predicate Blank(v: Json) {
    v == JNull || v == JStr("")
  }

  function AsList(v: Json): seq<Json> {
    match v case JNull => [] case JList(items) => items case _ => [v]
  }

  /** The non-blank values a field stands for. */
  ghost function Items(v: Json): set<Json> {
    set x | x in AsList(v) && !Blank(x)
  }

  function AddNew(acc: seq<Json>, items: seq<Json>): seq<Json>
    decreases |items|
  {
    if items == [] then acc
    else AddNew(if Blank(items[0]) || items[0] in acc then acc else acc + [items[0]], items[1..])
  }

  lemma {:induction false} AddNewCollects(acc: seq<Json>, items: seq<Json>)
    requires Distinct(acc)
    ensures Distinct(AddNew(acc, items))
    ensures forall x :: x in AddNew(acc, items) <==> x in acc || (x in items && !Blank(x))
    decreases |items|
  {
    if items != [] {
      AddNewCollects(if Blank(items[0]) || items[0] in acc then acc else acc + [items[0]], items[1..]);
    }
  }

  function MergedValues(current: Json, value: Json): seq<Json> {
    AddNew([], AsList(current) + AsList(value))
  }

  lemma MergedValuesExact(current: Json, value: Json)
    ensures Distinct(MergedValues(current, value))
    ensures (set x | x in MergedValues(current, value)) == Items(current) + Items(value)
    ensures Items(JList(MergedValues(current, value))) == Items(current) + Items(value)
  {
    var r := MergedValues(current, value);
    AddNewCollects([], AsList(current) + AsList(value));
    forall x ensures x in r <==> x in Items(current) || x in Items(value) {
      assert x in AsList(current) + AsList(value) <==> x in AsList(current) || x in AsList(value);
    }
    assert AsList(JList(r)) == r;
  }

  function NonBlank(items: seq<Json>): seq<Json> {
    if items == [] then []
    else if Blank(items[0]) then NonBlank(items[1..])
    else [items[0]] + NonBlank(items[1..])
  }

  lemma {:induction false} AddNewInOrder(acc: seq<Json>, items: seq<Json>)
    ensures AddNew(acc, items) == FirstKeys(acc, NonBlank(items))
    decreases |items|
  {
    if items != [] {
      var rest := NonBlank(items[1..]);
      assert ([items[0]] + rest)[1..] == rest;
      AddNewInOrder(if Blank(items[0]) || items[0] in acc then acc else acc + [items[0]], items[1..]);
    }
  }

  /** The non-blank values of both, each at its first occurrence. */
  lemma MergedInOrder(current: Json, value: Json)
    ensures MergedValues(current, value) == FirstKeys([], NonBlank(AsList(current) + AsList(value)))
  {
    AddNewInOrder([], AsList(current) + AsList(value));
  }

  method MergeValues(current: Json, value: Json) returns (result: seq<Json>)
    ensures result == MergedValues(current, value)
    ensures Distinct(result) && (set x | x in result) == Items(current) + Items(value)
  {
    result := [];
    var items := AsList(current) + AsList(value);
    for i := 0 to |items|
      invariant MergedValues(current, value) == AddNew(result, items[i..])
    {
      var item := items[i];
      assert items[i..][1..] == items[i + 1..];
      if item == JNull || item == JStr("") {
        continue;
      }
      if item !in result {
        result := result + [item];
      }
    }
    MergedValuesExact(current, value);
  }

  /** Three fields into one list, as the code chains it. */
  function Chain(first: Json, own: Json, theirs: Json, other: Json): seq<Json> {
    MergedValues(JList(MergedValues(JList(MergedValues(first, own)), theirs)), other)
  }

  lemma ChainExact(first: Json, own: Json, theirs: Json, other: Json)
    ensures Distinct(Chain(first, own, theirs, other))
    ensures (set x | x in Chain(first, own, theirs, other)) == Items(first) + Items(own) + Items(theirs) + Items(other)
    ensures Items(JList(Chain(first, own, theirs, other))) == Items(first) + Items(own) + Items(theirs) + Items(other)
  {
    MergedValuesExact(first, own);
    MergedValuesExact(JList(MergedValues(first, own)), theirs);
    MergedValuesExact(JList(MergedValues(JList(MergedValues(first, own)), theirs)), other);
  }

  // ----- Merging two candidates -----

  function ScannerOf(c: Candidate): Json {
    Or(Read(c.metadata, Scanner), JStr(c.kind))
  }

  function ScannerList(a: Candidate, b: Candidate): seq<Json> {
    Chain(Read(a.metadata, SourceScanners), ScannerOf(a), Read(b.metadata, SourceScanners), ScannerOf(b))
  }

  function PathList(a: Candidate, b: Candidate): seq<Json> {
    Chain(Read(a.metadata, SourcePaths), Read(a.metadata, Path), Read(b.metadata, SourcePaths), Read(b.metadata, Path))
  }

  function RefList(a: Candidate, b: Candidate): seq<Json> {
    Chain(Read(a.metadata, SourceBomRefs), JStr(a.bomRef), Read(b.metadata, SourceBomRefs), JStr(b.bomRef))
  }

  /** The merged dictionary, given the three lists. */
  function WithProvenance(base: Metadata, scanners: seq<Json>, refs: seq<Json>, paths: seq<Json>): (m: Metadata)
    ensures Read(m, SourceScanners) == JList(scanners) && Read(m, SourceBomRefs) == JList(refs)
    ensures Read(m, SourcePaths) == if paths != [] then JList(paths) else Read(base, SourcePaths)
    ensures Read(m, Scanner) == if |scanners| > 1 then MULTIPLE else Read(base, Scanner)
    ensures Read(m, Path) == Read(base, Path) && Read(m, FingerprintSha256) == Read(base, FingerprintSha256)
  {
    var listed := base[SourceScanners := JList(scanners)][SourceBomRefs := JList(refs)];
    var pathed := if paths != [] then listed[SourcePaths := JList(paths)] else listed;
    if |scanners| > 1 then pathed[Scanner := MULTIPLE][Merged := JBool(true)] else pathed
  }

  function Merge(a: Candidate, b: Candidate): Candidate {
    a.(metadata := WithProvenance(b.metadata + a.metadata, ScannerList(a, b), RefList(a, b), PathList(a, b)))
  }

  method MergeCandidates(existing: Candidate, incoming: Candidate) returns (merged: Candidate)
    ensures merged == Merge(existing, incoming)
  {
    var metadata := incoming.metadata + existing.metadata;
    var scanners := MergeValues(Read(existing.metadata, SourceScanners), ScannerOf(existing));
    scanners := MergeValues(JList(scanners), Read(incoming.metadata, SourceScanners));
    scanners := MergeValues(JList(scanners), ScannerOf(incoming));
    var paths := MergeValues(Read(existing.metadata, SourcePaths), Read(existing.metadata, Path));
    paths := MergeValues(JList(paths), Read(incoming.metadata, SourcePaths));
    paths := MergeValues(JList(paths), Read(incoming.metadata, Path));
    var refs := MergeValues(Read(existing.metadata, SourceBomRefs), JStr(existing.bomRef));
    refs := MergeValues(JList(refs), Read(incoming.metadata, SourceBomRefs));
    refs := MergeValues(JList(refs), JStr(incoming.bomRef));
    metadata := metadata[SourceScanners := JList(scanners)];
    metadata := metadata[SourceBomRefs := JList(refs)];
    if paths != [] {
      metadata := metadata[SourcePaths := JList(paths)];
    }
    if |scanners| > 1 {
      metadata := metadata[Scanner := MULTIPLE];
      metadata := metadata[Merged := JBool(true)];
    }
    merged := existing.(metadata := metadata);
  }

  // ----- Provenance -----

  /** Every bom-ref, path and scanner a candidate speaks for; the marker "multiple" is set aside. */
  ghost function Refs(c: Candidate): set<Json> {
    Items(Read(c.metadata, SourceBomRefs)) + Items(JStr(c.bomRef))
  }

  ghost function Paths(c: Candidate): set<Json> {
    Items(Read(c.metadata, SourcePaths)) + Items(Read(c.metadata, Path))
  }

  ghost function Scanners(c: Candidate): set<Json> {
    var own := Read(c.metadata, Scanner);
    Items(Read(c.metadata, SourceScanners)) + Items(if Truthy(own) then own else JStr(c.kind)) - {MULTIPLE}
  }

  /** The three lists of a merged candidate, exactly. */
  ghost predicate Listed(c: Candidate, refs: set<Json>, paths: set<Json>, scanners: set<Json>) {
    && Read(c.metadata, SourceBomRefs).JList? && Read(c.metadata, SourceScanners).JList?
    && var refList, scannerList := Read(c.metadata, SourceBomRefs).items, Read(c.metadata, SourceScanners).items;
       && Distinct(refList) && (set x | x in refList) == refs
       && Distinct(scannerList) && (set x | x in scannerList) - {MULTIPLE} == scanners
       && (paths != {} ==>
             && Read(c.metadata, SourcePaths).JList?
             && Distinct(Read(c.metadata, SourcePaths).items)
                && (set x | x in Read(c.metadata, SourcePaths).items) == paths)
  }

  lemma MergeRefs(a: Candidate, b: Candidate)
    ensures Refs(Merge(a, b)) == Refs(a) + Refs(b)
    ensures (set x | x in RefList(a, b)) == Refs(a) + Refs(b) && Distinct(RefList(a, b))
  {
    ChainExact(Read(a.metadata, SourceBomRefs), JStr(a.bomRef), Read(b.metadata, SourceBomRefs), JStr(b.bomRef));
    assert Items(JList(RefList(a, b))) == Refs(a) + Refs(b);
  }

  lemma MergePaths(a: Candidate, b: Candidate)
    ensures Paths(Merge(a, b)) == Paths(a) + Paths(b)
    ensures (set x | x in PathList(a, b)) == Paths(a) + Paths(b) && Distinct(PathList(a, b))
  {
    ChainExact(Read(a.metadata, SourcePaths), Read(a.metadata, Path), Read(b.metadata, SourcePaths),
        Read(b.metadata, Path));
    assert Items(JList(PathList(a, b))) == Paths(a) + Paths(b);
    if PathList(a, b) == [] {
      assert Paths(a) + Paths(b) == {};
    }
  }

  /** What is left of the scanner field speaks for nobody new. */
  lemma ScannerLeft(a: Candidate, b: Candidate)
    ensures ScannerOf(Merge(a, b)) == MULTIPLE || ScannerOf(Merge(a, b)) == ScannerOf(a)
        || ScannerOf(Merge(a, b)) == ScannerOf(b)
  {
  }

  lemma ScannersOf(a: Candidate, b: Candidate, c: Candidate, list: seq<Json>)
    requires Read(c.metadata, SourceScanners) == JList(list)
    requires Items(JList(list)) == Items(Read(a.metadata, SourceScanners)) + Items(ScannerOf(a))
                                   + Items(Read(b.metadata, SourceScanners)) + Items(ScannerOf(b))
    requires ScannerOf(c) == MULTIPLE || ScannerOf(c) == ScannerOf(a) || ScannerOf(c) == ScannerOf(b)
    ensures Scanners(c) == Scanners(a) + Scanners(b) == Items(JList(list)) - {MULTIPLE}
  {
    assert Items(MULTIPLE) == {MULTIPLE};
    SetAside(Items(Read(a.metadata, SourceScanners)), Items(ScannerOf(a)), Items(Read(b.metadata, SourceScanners)),
             Items(ScannerOf(b)), Items(ScannerOf(c)), {MULTIPLE});
  }

  lemma MergeScanners(a: Candidate, b: Candidate)
    ensures Scanners(Merge(a, b)) == Scanners(a) + Scanners(b)
    ensures (set x | x in ScannerList(a, b)) - {MULTIPLE} == Scanners(a) + Scanners(b) && Distinct(ScannerList(a, b))
  {
    ChainExact(Read(a.metadata, SourceScanners), ScannerOf(a), Read(b.metadata, SourceScanners), ScannerOf(b));
    ScannerLeft(a, b);
    ScannersOf(a, b, Merge(a, b), ScannerList(a, b));
  }

  lemma SetAside<T>(p: set<T>, q: set<T>, r: set<T>, s: set<T>, left: set<T>, marker: set<T>)
    requires left == marker || left == q || left == s
    ensures p + q + r + s + left - marker == (p + q - marker) + (r + s - marker) == p + q + r + s - marker
  {
  }

  lemma MergeListed(a: Candidate, b: Candidate)
    ensures Listed(Merge(a, b), Refs(a) + Refs(b), Paths(a) + Paths(b), Scanners(a) + Scanners(b))
  {
    MergeRefs(a, b);
    MergePaths(a, b);
    MergeScanners(a, b);
    if Paths(a) + Paths(b) != {} {
      assert PathList(a, b) != [];
    }
  }

  /** Merging candidates of one key never changes that key. */
  lemma MergeKeepsKey(text: Json -> string, a: Candidate, b: Candidate)
    requires KeyOf(text, a) == KeyOf(text, b)
    ensures KeyOf(text, Merge(a, b)) == KeyOf(text, a)
  {
    assert Read(Merge(a, b).metadata, FingerprintSha256)
        == if FingerprintSha256 in a.metadata then a.metadata[FingerprintSha256]
            else Read(b.metadata, FingerprintSha256);
  }

  lemma ProvenanceFields(base: Metadata, scanners: seq<Json>, refs: seq<Json>, paths: seq<Json>, f: Field)
    ensures
      var m := WithProvenance(base, scanners, refs, paths);
      && (f.Other? || f == Path || f == FingerprintSha256 ==> (f in m <==> f in base) && Read(m, f) == Read(base, f))
      && (|scanners| > 1 ==> Read(m, Scanner) == MULTIPLE && Read(m, Merged) == JBool(true))
      && (|scanners| <= 1 ==> Read(m, Scanner) == Read(base, Scanner) && Read(m, Merged) == Read(base, Merged))
  {
  }

  /** Every field that merging does not write itself is the existing candidate's, or else the incoming one's; two or
      more scanners are marked. */
  lemma MergeFields(a: Candidate, b: Candidate, f: Field)
    ensures
      var m := Merge(a, b).metadata;
      && (f.Other? || f == Path || f == FingerprintSha256 ==>
            && (f in m <==> f in a.metadata || f in b.metadata)
            && Read(m, f) == if f in a.metadata then a.metadata[f] else Read(b.metadata, f))
      && (|ScannerList(a, b)| > 1 ==> Read(m, Scanner) == JStr("multiple") && Read(m, Merged) == JBool(true))
      && (|ScannerList(a, b)| <= 1 ==>
            && Read(m, Scanner) == (if Scanner in a.metadata then a.metadata[Scanner] else Read(b.metadata, Scanner))
            && Read(m, Merged) == (if Merged in a.metadata then a.metadata[Merged] else Read(b.metadata, Merged)))
  {
    ProvenanceFields(b.metadata + a.metadata, ScannerList(a, b), RefList(a, b), PathList(a, b), f);
  }
}
