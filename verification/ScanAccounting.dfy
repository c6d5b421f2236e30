/** The accounting of a scan run: the progress counter, the run logs and the candidates they count. */
module ScanAccounting {
  import opened Basics
  import opened OrderedDict

  /** A scanner selection: "network", a name that starts with "agent.", or something else. */
  datatype Scanner = Network | HostAgent(name: string) | Unknown(name: string)

  /** A candidate as far as the accounting looks: its scanner and its algorithm. */
  datatype Entry = Entry(kind: Scanner, algorithm: string)

  datatype Finding = Finding(ftype: string, algorithms: seq<string>, kex: seq<string>, tlsVersions: seq<string>,
                             cipherSuites: seq<string>, algorithm: string, minimumTls: string)

  datatype Agent = Agent(stale: bool, connected: bool, capabilities: set<Scanner>)

  /** A target, the active host agents under its name, and what probing it would bring:
      None stands for an exception. */
  datatype Target = Target(id: nat, agentEnabled: bool, agents: seq<Agent>,
                           network: Option<seq<Entry>>, reply: Option<seq<Finding>>)

  datatype LogStatus = Success | Error | Skipped
  datatype Log = Log(target: nat, kind: Scanner, status: LogStatus, count: nat)

  // ----- Agent findings -----

  function AlgorithmsFor(f: Finding): (r: seq<string>)
    ensures r != []
  {
    var collected := f.algorithms + f.kex + f.tlsVersions + f.cipherSuites;
    if collected != [] then
      FirstKeysGrow([], collected);
      FirstKeys([], collected)
    else if f.algorithm != "" then [f.algorithm]
    else if f.minimumTls != "" then [f.minimumTls]
    else ["unknown"]
  }

  lemma {:induction false} FirstKeysGrow<K>(keys: seq<K>, more: seq<K>)
    ensures |keys| <= |FirstKeys(keys, more)| <= |keys| + |more|
    ensures keys != [] || more != [] ==> FirstKeys(keys, more) != []
    decreases |more|
  {
    if more != [] {
      FirstKeysGrow(if more[0] in keys then keys else keys + [more[0]], more[1..]);
    }
  }

  function EntriesOf(kind: Scanner, algorithms: seq<string>): (r: seq<Entry>)
    ensures |r| == |algorithms| && forall i :: 0 <= i < |r| ==> r[i] == Entry(kind, algorithms[i])
  {
    seq(|algorithms|, i requires 0 <= i < |algorithms| => Entry(kind, algorithms[i]))
  }

  /** `scannerOf` is the table from finding types to scanners. */
  function Mapped(scannerOf: string -> Option<Scanner>, findings: seq<Finding>, selected: set<Scanner>): seq<Entry> {
    if findings == [] then []
    else
      var n := |findings| - 1;
      var kind := scannerOf(findings[n].ftype);
      Mapped(scannerOf, findings[..n], selected)
      + if kind.Some? && kind.value in selected then EntriesOf(kind.value, AlgorithmsFor(findings[n])) else []
  }

  method MapAgentFindings(scannerOf: string -> Option<Scanner>, findings: seq<Finding>, selected: set<Scanner>)
    returns (candidates: seq<Entry>)
    ensures candidates == Mapped(scannerOf, findings, selected)
    ensures forall i :: 0 <= i < |candidates| ==> candidates[i].kind in selected
  {
    candidates := [];
    for i := 0 to |findings|
      invariant candidates == Mapped(scannerOf, findings[..i], selected)
      invariant forall k :: 0 <= k < |candidates| ==> candidates[k].kind in selected
    {
      assert findings[..i + 1][..i] == findings[..i];
      var source := scannerOf(findings[i].ftype);
      if source.None? || source.value !in selected {
        continue;
      }
      candidates := AppendEntries(candidates, source.value, AlgorithmsFor(findings[i]));
    }
    assert findings[..|findings|] == findings;
  }

  method AppendEntries(before: seq<Entry>, kind: Scanner, algorithms: seq<string>) returns (candidates: seq<Entry>)
    ensures candidates == before + EntriesOf(kind, algorithms)
  {
    candidates := before;
    for k := 0 to |algorithms|
      invariant candidates == before + EntriesOf(kind, algorithms[..k])
    {
      candidates := candidates + [Entry(kind, algorithms[k])];
      assert EntriesOf(kind, algorithms[..k + 1]) == EntriesOf(kind, algorithms[..k]) + [Entry(kind, algorithms[k])];
    }
    assert algorithms[..|algorithms|] == algorithms;
  }

  lemma {:induction false} MappedKinds(scannerOf: string -> Option<Scanner>, findings: seq<Finding>,
      selected: set<Scanner>)
    ensures forall i :: 0 <= i < |Mapped(scannerOf, findings, selected)| ==>
              Mapped(scannerOf, findings, selected)[i].kind in selected
  {
    if findings != [] {
      MappedKinds(scannerOf, findings[..|findings| - 1], selected);
    }
  }

  // ----- One target -----

  function AgentsOnly(xs: seq<Scanner>): seq<Scanner> {
    if xs == [] then [] else AgentsOnly(xs[..|xs| - 1]) + if xs[|xs| - 1].HostAgent? then [xs[|xs| - 1]] else []
  }

  /** The scanners that are among the capabilities, or those that are not. */
  function Among(capabilities: set<Scanner>, having: bool, xs: seq<Scanner>): seq<Scanner> {
    if xs == [] then []
    else Among(capabilities, having, xs[..|xs| - 1])
         + if (xs[|xs| - 1] in capabilities) == having then [xs[|xs| - 1]] else []
  }

  /** The agent that may be asked, if the target allows it and one is usable. */
  function UsableAgent(t: Target): Option<Agent> {
    if !t.agentEnabled || t.agents == [] || t.agents[0].stale || !t.agents[0].connected then None else Some(t.agents[0])
  }

  function Supported(t: Target, kinds: seq<Scanner>): seq<Scanner> {
    if UsableAgent(t).None? then []
    else Among(UsableAgent(t).value.capabilities, true, kinds)
  }

  /** The keys of a dictionary: repeated scanners collapse. */
  function SkippedKinds(t: Target, kinds: seq<Scanner>): seq<Scanner> {
    FirstKeys([], if UsableAgent(t).None? then kinds
                  else Among(UsableAgent(t).value.capabilities, false, kinds))
  }

  /** A second lookup demands exactly one agent. */
  predicate Raises(t: Target, scanners: seq<Scanner>) {
    Supported(t, AgentsOnly(scanners)) != [] && |t.agents| != 1
  }

  /** None of the first n targets does. */
  predicate NoneRaises(targets: seq<Target>, scanners: seq<Scanner>, n: nat)
    requires n <= |targets|
  {
    n == 0 || (NoneRaises(targets, scanners, n - 1) && !Raises(targets[n - 1], scanners))
  }

  lemma {:induction false} RaisesSoon(targets: seq<Target>, scanners: seq<Scanner>, i: nat, n: nat)
    requires i < n <= |targets| && Raises(targets[i], scanners)
    ensures !NoneRaises(targets, scanners, n)
  {
    if i < n - 1 {
      RaisesSoon(targets, scanners, i, n - 1);
    }
  }

  function CountKind(entries: seq<Entry>, kind: Scanner): nat {
    if entries == [] then 0
    else CountKind(entries[..|entries| - 1], kind) + if entries[|entries| - 1].kind == kind then 1 else 0
  }

  function LogEach(t: Target, kinds: seq<Scanner>, status: LogStatus, entries: seq<Entry>): (r: seq<Log>)
    ensures |r| == |kinds|
    ensures forall i :: 0 <= i < |r| ==> r[i] == Log(t.id, kinds[i], status, CountKind(entries, kinds[i]))
  {
    seq(|kinds|, i requires 0 <= i < |kinds| => Log(t.id, kinds[i], status, CountKind(entries, kinds[i])))
  }

  function NetworkLog(t: Target): Log {
    match t.network case None => Log(t.id, Network, Error, 0) case Some(es) => Log(t.id, Network, Success, |es|)
  }

  function NetworkEntries(t: Target): seq<Entry> {
    match t.network case None => [] case Some(es) => es
  }

  function AgentEntries(scannerOf: string -> Option<Scanner>, t: Target, kinds: seq<Scanner>): seq<Entry> {
    if Supported(t, kinds) == [] then [] else Answer(scannerOf, t, Supported(t, kinds))
  }

  /** What the agent's reply brings for the scanners it was asked for. */
  function Answer(scannerOf: string -> Option<Scanner>, t: Target, supported: seq<Scanner>): seq<Entry> {
    if t.reply.None? then [] else Mapped(scannerOf, t.reply.value, set k | k in supported)
  }

  function AgentLogs(scannerOf: string -> Option<Scanner>, t: Target, kinds: seq<Scanner>): seq<Log> {
    LogEach(t, SkippedKinds(t, kinds), Skipped, [])
    + LogEach(t, Supported(t, kinds), if t.reply.None? then Error else Success, AgentEntries(scannerOf, t, kinds))
  }

  function TargetLogs(scannerOf: string -> Option<Scanner>, t: Target, scanners: seq<Scanner>): seq<Log> {
    (if Network in scanners then [NetworkLog(t)] else []) + AgentLogs(scannerOf, t, AgentsOnly(scanners))
  }

  function TargetEntries(scannerOf: string -> Option<Scanner>, t: Target, scanners: seq<Scanner>): seq<Entry> {
    (if Network in scanners then NetworkEntries(t) else []) + AgentEntries(scannerOf, t, AgentsOnly(scanners))
  }

  function RunLogs(scannerOf: string -> Option<Scanner>, targets: seq<Target>, scanners: seq<Scanner>): seq<Log> {
    if targets == [] then []
    else
      RunLogs(scannerOf, targets[..|targets| - 1], scanners)
      + TargetLogs(scannerOf, targets[|targets| - 1], scanners)
  }

  function RunEntries(scannerOf: string -> Option<Scanner>, targets: seq<Target>, scanners: seq<Scanner>): seq<Entry> {
    if targets == [] then []
    else
      RunEntries(scannerOf, targets[..|targets| - 1], scanners)
      + TargetEntries(scannerOf, targets[|targets| - 1], scanners)
  }

  // ----- The run -----

  /** The run's side effects: the log table, the counter and every value of it that was published. */
  class Run {
    var logs: seq<Log>
    var completed: nat
    var published: seq<nat>

    constructor ()
      ensures logs == [] && completed == 0 && published == []
    {
      logs, completed, published := [], 0, [];
    }

    /** One log and one step of the counter. */
    method Record(log: Log)
      modifies this
      ensures logs == old(logs) + [log] && completed == old(completed) + 1 && published == old(published) + [completed]
    {
      logs := logs + [log];
      completed := completed + 1;
      published := published + [completed];
    }

    method RecordEach(t: Target, kinds: seq<Scanner>, status: LogStatus, entries: seq<Entry>)
      requires Counted()
      modifies this
      ensures Counted() && logs == old(logs) + LogEach(t, kinds, status, entries)
    {
      for i := 0 to |kinds|
        invariant Counted() && logs == old(logs) + LogEach(t, kinds[..i], status, entries)
      {
        Record(Log(t.id, kinds[i], status, CountKind(entries, kinds[i])));
        assert LogEach(t, kinds[..i + 1], status, entries)
            == LogEach(t, kinds[..i], status, entries) + [Log(t.id, kinds[i], status, CountKind(entries, kinds[i]))];
      }
      assert kinds[..|kinds|] == kinds;
    }

    /** The counter is the number of logs, and was published at every step. */
    ghost predicate Counted()
      reads this
    {
      completed == |logs| == |published| && forall i :: 0 <= i < |published| ==> published[i] == i + 1
    }

    method RunNetwork(t: Target) returns (found: seq<Entry>)
      requires Counted()
      modifies this
      ensures Counted() && logs == old(logs) + [NetworkLog(t)] && found == NetworkEntries(t)
    {
      match t.network {
        case None =>
          Record(Log(t.id, Network, Error, 0));
          found := [];
        case Some(entries) =>
          Record(Log(t.id, Network, Success, |entries|));
          found := entries;
      }
    }

    /** Asks the agent and logs each scanner it was asked for. */
    method AskAgent(scannerOf: string -> Option<Scanner>, t: Target, supported: seq<Scanner>)
      returns (found: seq<Entry>)
      requires Counted()
      modifies this
      ensures Counted() && found == Answer(scannerOf, t, supported)
      ensures logs == old(logs) + LogEach(t, supported, if t.reply.None? then Error else Success, found)
    {
      found := [];
      var status := Error;
      if t.reply.Some? {
        found := MapAgentFindings(scannerOf, t.reply.value, set k | k in supported);
        status := Success;
      }
      RecordEach(t, supported, status, found);
    }

    /** The bound also holds of a call that raises after logging the skipped scanners. */
    method RunAgents(scannerOf: string -> Option<Scanner>, t: Target, kinds: seq<Scanner>)
      returns (ok: bool, found: seq<Entry>)
      requires Counted()
      modifies this
      ensures Counted() && |logs| <= |old(logs)| + |kinds|
      ensures ok <==> Supported(t, kinds) == [] || |t.agents| == 1
      ensures ok ==> logs == old(logs) + AgentLogs(scannerOf, t, kinds) && found == AgentEntries(scannerOf, t, kinds)
      ensures !ok ==> logs == old(logs) + LogEach(t, SkippedKinds(t, kinds), Skipped, [])
    {
      var supported := Supported(t, kinds);
      ghost var before, skipped := logs, LogEach(t, SkippedKinds(t, kinds), Skipped, []);
      KindsWithinTotal(t, kinds);
      RecordEach(t, SkippedKinds(t, kinds), Skipped, []);
      if supported == [] {
        NothingSupported(scannerOf, t, kinds);
        return true, [];
      }
      if |t.agents| != 1 {
        return false, [];
      }
      found := AskAgent(scannerOf, t, supported);
      AnsweredLogs(scannerOf, t, kinds);
      Regroup(before, skipped, LogEach(t, supported, if t.reply.None? then Error else Success, found));
      return true, found;
    }

    method RunTarget(scannerOf: string -> Option<Scanner>, t: Target, scanners: seq<Scanner>)
      returns (ok: bool, found: seq<Entry>)
      requires Counted()
      modifies this
      ensures Counted() && |logs| <= |old(logs)| + |scanners|
      ensures ok <==> !Raises(t, scanners)
      ensures ok ==> logs == old(logs) + TargetLogs(scannerOf, t, scanners)
      ensures ok ==> found == TargetEntries(scannerOf, t, scanners)
    {
      var network := [];
      if Network in scanners {
        network := RunNetwork(t);
      }
      var kinds := AgentsOnly(scanners);
      AgentsOnlyBound(scanners);
      ghost var first := if Network in scanners then [NetworkLog(t)] else [];
      assert logs == old(logs) + first;
      NoAgents(scannerOf, t);
      ghost var rest := AgentLogs(scannerOf, t, kinds);
      Regroup(old(logs), first, rest);
      if kinds == [] {
        assert first + [] == first && network + [] == network;
        return true, network;
      }
      ok, found := RunAgents(scannerOf, t, kinds);
      found := network + found;
    }

    /** All targets in order; an exception from the agent lookup ends the run.  The count stays within the
        total either way. */
    method Execute(scannerOf: string -> Option<Scanner>, targets: seq<Target>, scanners: seq<Scanner>)
      returns (ok: bool, candidates: seq<Entry>)
      requires logs == [] && completed == 0 && published == []
      modifies this
      ensures Counted() && completed <= |targets| * |scanners|
      ensures ok <==> NoneRaises(targets, scanners, |targets|)
      ensures ok ==> logs == RunLogs(scannerOf, targets, scanners)
      ensures ok ==> candidates == RunEntries(scannerOf, targets, scanners)
    {
      candidates := [];
      for i := 0 to |targets|
        invariant Counted() && completed <= i * |scanners|
        invariant logs == RunLogs(scannerOf, targets[..i], scanners)
        invariant candidates == RunEntries(scannerOf, targets[..i], scanners)
        invariant NoneRaises(targets, scanners, i)
      {
        var fine, found := RunTarget(scannerOf, targets[i], scanners);
        MulStep(i, |scanners|);
        if !fine {
          RaisesSoon(targets, scanners, i, |targets|);
          MulMonotone(i + 1, |targets|, |scanners|);
          return false, [];
        }
        RunTurn(scannerOf, targets, scanners, i);
        candidates := candidates + found;
      }
      assert targets[..|targets|] == targets;
      return true, candidates;
    }
  }

  lemma Regroup(a: seq<Log>, b: seq<Log>, c: seq<Log>)
    ensures (a + b) + c == a + (b + c)
  {
  }

  lemma NothingSupported(scannerOf: string -> Option<Scanner>, t: Target, kinds: seq<Scanner>)
    requires Supported(t, kinds) == []
    ensures AgentLogs(scannerOf, t, kinds) == LogEach(t, SkippedKinds(t, kinds), Skipped, [])
        && AgentEntries(scannerOf, t, kinds) == []
  {
  }

  lemma AnsweredLogs(scannerOf: string -> Option<Scanner>, t: Target, kinds: seq<Scanner>)
    requires Supported(t, kinds) != []
    ensures
      var supported := Supported(t, kinds);
      var found := Answer(scannerOf, t, supported);
      && AgentEntries(scannerOf, t, kinds) == found
      && AgentLogs(scannerOf, t, kinds) == LogEach(t, SkippedKinds(t, kinds), Skipped, [])
                                           + LogEach(t, supported, if t.reply.None? then Error else Success, found)
  {
  }

  lemma RunTurn(scannerOf: string -> Option<Scanner>, targets: seq<Target>, scanners: seq<Scanner>, i: nat)
    requires i < |targets|
    ensures RunLogs(scannerOf, targets[..i + 1], scanners)
            == RunLogs(scannerOf, targets[..i], scanners) + TargetLogs(scannerOf, targets[i], scanners)
    ensures RunEntries(scannerOf, targets[..i + 1], scanners)
            == RunEntries(scannerOf, targets[..i], scanners) + TargetEntries(scannerOf, targets[i], scanners)
  {
    assert targets[..i + 1][..i] == targets[..i];
  }

  lemma NoAgents(scannerOf: string -> Option<Scanner>, t: Target)
    ensures AgentLogs(scannerOf, t, []) == [] && AgentEntries(scannerOf, t, []) == [] && Supported(t, []) == []
  {
    assert SkippedKinds(t, []) == [];
  }

  // ----- The counter never runs over -----

  lemma {:induction false} AmongPartition(capabilities: set<Scanner>, xs: seq<Scanner>)
    ensures |Among(capabilities, true, xs)| + |Among(capabilities, false, xs)| == |xs|
  {
    if xs != [] {
      AmongPartition(capabilities, xs[..|xs| - 1]);
    }
  }

  lemma {:induction false} AgentsOnlyBound(xs: seq<Scanner>)
    ensures |AgentsOnly(xs)| + (if Network in xs then 1 else 0) <= |xs|
  {
    if xs != [] {
      AgentsOnlyBound(xs[..|xs| - 1]);
    }
  }

  /** Every agent scanner is skipped or asked for, at most once. */
  lemma KindsWithinTotal(t: Target, kinds: seq<Scanner>)
    ensures |SkippedKinds(t, kinds)| + |Supported(t, kinds)| <= |kinds|
  {
    if UsableAgent(t).Some? {
      AmongPartition(UsableAgent(t).value.capabilities, kinds);
      FirstKeysGrow([], Among(UsableAgent(t).value.capabilities, false, kinds));
    } else {
      FirstKeysGrow([], kinds);
    }
  }

  lemma TargetWithinTotal(scannerOf: string -> Option<Scanner>, t: Target, scanners: seq<Scanner>)
    ensures |TargetLogs(scannerOf, t, scanners)| <= |scanners|
  {
    AgentsOnlyBound(scanners);
    KindsWithinTotal(t, AgentsOnly(scanners));
  }

  lemma {:induction false} RunWithinTotal(scannerOf: string -> Option<Scanner>, targets: seq<Target>,
      scanners: seq<Scanner>)
    ensures |RunLogs(scannerOf, targets, scanners)| <= |targets| * |scanners|
  {
    if targets != [] {
      var n := |targets| - 1;
      RunWithinTotal(scannerOf, targets[..n], scanners);
      TargetWithinTotal(scannerOf, targets[n], scanners);
      var done, step := |RunLogs(scannerOf, targets[..n], scanners)|, |TargetLogs(scannerOf, targets[n], scanners)|;
      assert |RunLogs(scannerOf, targets, scanners)| == done + step;
      MulStep(n, |scanners|);
    }
  }

  lemma MulStep(n: nat, m: nat)
    ensures (n + 1) * m == n * m + m
  {
  }

  lemma MulMonotone(i: nat, n: nat, m: nat)
    requires i <= n
    ensures i * m <= n * m
  {
  }

  // ----- Exactly one log per target and scanner -----

  predicate AllKnown(scanners: seq<Scanner>) {
    forall i :: 0 <= i < |scanners| ==> !scanners[i].Unknown?
  }

  function Pairs(logs: seq<Log>): seq<(nat, Scanner)> {
    seq(|logs|, i requires 0 <= i < |logs| => (logs[i].target, logs[i].kind))
  }

  /** Each scanner once, for this target. */
  function Wanted(id: nat, scanners: seq<Scanner>): seq<(nat, Scanner)> {
    seq(|scanners|, i requires 0 <= i < |scanners| => (id, scanners[i]))
  }

  function AllWanted(targets: seq<Target>, scanners: seq<Scanner>): seq<(nat, Scanner)> {
    if targets == [] then []
    else AllWanted(targets[..|targets| - 1], scanners) + Wanted(targets[|targets| - 1].id, scanners)
  }

  lemma {:induction false} FirstKeysDistinct<K>(keys: seq<K>, more: seq<K>)
    requires Distinct(keys + more)
    ensures FirstKeys(keys, more) == keys + more
    decreases |more|
  {
    if more == [] {
      assert keys + more == keys;
    } else {
      forall i | 0 <= i < |keys| ensures keys[i] != more[0] {
        assert (keys + more)[i] != (keys + more)[|keys|];
      }
      assert (keys + [more[0]]) + more[1..] == keys + more;
      FirstKeysDistinct(keys + [more[0]], more[1..]);
    }
  }

  lemma LastIsNew<K>(xs: seq<K>)
    requires xs != [] && Distinct(xs)
    ensures xs[|xs| - 1] !in xs[..|xs| - 1] && Distinct(xs[..|xs| - 1])
  {
  }

  /** A sublist of a list without repeats has none. */
  lemma {:induction false} AmongDistinct(capabilities: set<Scanner>, having: bool, xs: seq<Scanner>)
    requires Distinct(xs)
    ensures Distinct(Among(capabilities, having, xs))
    ensures forall k :: k in Among(capabilities, having, xs) ==> k in xs
  {
    if xs != [] {
      LastIsNew(xs);
      AmongDistinct(capabilities, having, xs[..|xs| - 1]);
    }
  }

  lemma {:induction false} AgentsDistinct(xs: seq<Scanner>)
    requires Distinct(xs)
    ensures Distinct(AgentsOnly(xs))
    ensures forall k :: k in AgentsOnly(xs) ==> k in xs
  {
    if xs != [] {
      LastIsNew(xs);
      AgentsDistinct(xs[..|xs| - 1]);
    }
  }

  lemma WantedSnoc(id: nat, xs: seq<Scanner>, x: Scanner)
    ensures multiset(Wanted(id, xs + [x])) == multiset(Wanted(id, xs)) + multiset{(id, x)}
  {
    assert Wanted(id, xs + [x]) == Wanted(id, xs) + [(id, x)];
  }

  lemma {:induction false} WantedAmong(id: nat, capabilities: set<Scanner>, xs: seq<Scanner>)
    ensures multiset(Wanted(id, Among(capabilities, false, xs))) + multiset(Wanted(id, Among(capabilities, true, xs)))
            == multiset(Wanted(id, xs))
  {
    if xs != [] {
      var n := |xs| - 1;
      WantedAmong(id, capabilities, xs[..n]);
      var side := xs[n] in capabilities;
      assert xs[..n] + [xs[n]] == xs;
      WantedSnoc(id, xs[..n], xs[n]);
      WantedSnoc(id, Among(capabilities, side, xs[..n]), xs[n]);
      assert Among(capabilities, !side, xs) == Among(capabilities, !side, xs[..n]) + []
          == Among(capabilities, !side, xs[..n]);
    }
  }

  lemma {:induction false} WantedAgents(id: nat, xs: seq<Scanner>)
    requires Distinct(xs) && AllKnown(xs)
    ensures (if Network in xs then multiset{(id, Network)} else multiset{}) + multiset(Wanted(id, AgentsOnly(xs)))
            == multiset(Wanted(id, xs))
  {
    if xs != [] {
      var n := |xs| - 1;
      LastIsNew(xs);
      WantedAgents(id, xs[..n]);
      assert xs[..n] + [xs[n]] == xs;
      assert Network in xs <==> Network in xs[..n] || xs[n] == Network;
      WantedSnoc(id, xs[..n], xs[n]);
      if xs[n].HostAgent? {
        WantedSnoc(id, AgentsOnly(xs[..n]), xs[n]);
      } else {
        assert AgentsOnly(xs) == AgentsOnly(xs[..n]) + [] == AgentsOnly(xs[..n]);
      }
    }
  }

  lemma LogPairs(t: Target, kinds: seq<Scanner>, status: LogStatus, entries: seq<Entry>)
    ensures Pairs(LogEach(t, kinds, status, entries)) == Wanted(t.id, kinds)
  {
  }

  lemma PairsConcat(a: seq<Log>, b: seq<Log>)
    ensures multiset(Pairs(a + b)) == multiset(Pairs(a)) + multiset(Pairs(b))
  {
    assert Pairs(a + b) == Pairs(a) + Pairs(b);
  }

  /** Skipped or asked for: together every scanner once. */
  lemma FatesPartition(t: Target, kinds: seq<Scanner>)
    requires Distinct(kinds)
    ensures multiset(Wanted(t.id, SkippedKinds(t, kinds))) + multiset(Wanted(t.id, Supported(t, kinds)))
            == multiset(Wanted(t.id, kinds))
  {
    if UsableAgent(t).None? {
      assert [] + kinds == kinds;
      FirstKeysDistinct([], kinds);
      assert Wanted(t.id, []) == [];
    } else {
      var capabilities := UsableAgent(t).value.capabilities;
      AmongDistinct(capabilities, false, kinds);
      var lacking := Among(capabilities, false, kinds);
      assert [] + lacking == lacking;
      FirstKeysDistinct([], lacking);
      WantedAmong(t.id, capabilities, kinds);
    }
  }

  lemma AgentPairs(scannerOf: string -> Option<Scanner>, t: Target, kinds: seq<Scanner>)
    requires Distinct(kinds)
    ensures multiset(Pairs(AgentLogs(scannerOf, t, kinds))) == multiset(Wanted(t.id, kinds))
  {
    var status := if t.reply.None? then Error else Success;
    var skipped := LogEach(t, SkippedKinds(t, kinds), Skipped, []);
    var asked := LogEach(t, Supported(t, kinds), status, AgentEntries(scannerOf, t, kinds));
    assert AgentLogs(scannerOf, t, kinds) == skipped + asked;
    LogPairs(t, SkippedKinds(t, kinds), Skipped, []);
    LogPairs(t, Supported(t, kinds), status, AgentEntries(scannerOf, t, kinds));
    PairsConcat(skipped, asked);
    FatesPartition(t, kinds);
  }

  lemma TargetPairs(scannerOf: string -> Option<Scanner>, t: Target, scanners: seq<Scanner>)
    requires Distinct(scanners) && AllKnown(scanners)
    ensures multiset(Pairs(TargetLogs(scannerOf, t, scanners))) == multiset(Wanted(t.id, scanners))
  {
    AgentsDistinct(scanners);
    AgentPairs(scannerOf, t, AgentsOnly(scanners));
    WantedAgents(t.id, scanners);
    var first := if Network in scanners then [NetworkLog(t)] else [];
    var rest := AgentLogs(scannerOf, t, AgentsOnly(scanners));
    assert TargetLogs(scannerOf, t, scanners) == first + rest;
    PairsConcat(first, rest);
    NetworkPairs(t);
  }

  lemma NetworkPairs(t: Target)
    ensures multiset(Pairs([NetworkLog(t)])) == multiset{(t.id, Network)} && multiset(Pairs([])) == multiset{}
  {
    assert Pairs([NetworkLog(t)]) == [(t.id, Network)];
  }

  /** For distinct, known scanners a finished run logged every target and scanner exactly once,
      so the count has reached the total. */
  lemma {:induction false} OneLogEach(scannerOf: string -> Option<Scanner>, targets: seq<Target>,
      scanners: seq<Scanner>)
    requires Distinct(scanners) && AllKnown(scanners)
    ensures multiset(Pairs(RunLogs(scannerOf, targets, scanners))) == multiset(AllWanted(targets, scanners))
    ensures |RunLogs(scannerOf, targets, scanners)| == |targets| * |scanners|
  {
    if targets != [] {
      var n := |targets| - 1;
      OneLogEach(scannerOf, targets[..n], scanners);
      TargetPairs(scannerOf, targets[n], scanners);
      var before, last := RunLogs(scannerOf, targets[..n], scanners), TargetLogs(scannerOf, targets[n], scanners);
      PairsConcat(before, last);
      PairsSize(last, targets[n].id, scanners);
      MulStep(n, |scanners|);
    }
  }

  lemma PairsSize(logs: seq<Log>, id: nat, scanners: seq<Scanner>)
    requires multiset(Pairs(logs)) == multiset(Wanted(id, scanners))
    ensures |logs| == |scanners|
  {
    assert |multiset(Pairs(logs))| == |multiset(Wanted(id, scanners))|;
  }

  // ----- The logs count every candidate once -----

  function SumCounts(logs: seq<Log>): nat {
    if logs == [] then 0 else SumCounts(logs[..|logs| - 1]) + logs[|logs| - 1].count
  }

  lemma {:induction false} SumConcat(a: seq<Log>, b: seq<Log>)
    ensures SumCounts(a + b) == SumCounts(a) + SumCounts(b)
    decreases |b|
  {
    if b == [] {
      assert a + b == a;
    } else {
      SumConcat(a, b[..|b| - 1]);
      assert (a + b)[..|a + b| - 1] == a + b[..|b| - 1];
    }
  }

  lemma SumLast(t: Target, kinds: seq<Scanner>, status: LogStatus, entries: seq<Entry>)
    requires kinds != []
    ensures
      var n := |kinds| - 1;
      SumCounts(LogEach(t, kinds, status, entries)) == SumCounts(LogEach(t, kinds[..n], status, entries))
          + CountKind(entries, kinds[n])
  {
    var n := |kinds| - 1;
    assert LogEach(t, kinds, status, entries)[..n] == LogEach(t, kinds[..n], status, entries);
  }

  /** One more entry adds one to the log of its scanner, if that scanner is logged. */
  lemma {:induction false} SumOneMore(t: Target, kinds: seq<Scanner>, status: LogStatus, entries: seq<Entry>, e: Entry)
    requires Distinct(kinds)
    ensures SumCounts(LogEach(t, kinds, status, entries + [e]))
            == SumCounts(LogEach(t, kinds, status, entries)) + if e.kind in kinds then 1 else 0
    decreases |kinds|
  {
    if kinds != [] {
      var n := |kinds| - 1;
      SumOneMore(t, kinds[..n], status, entries, e);
      SumLast(t, kinds, status, entries + [e]);
      SumLast(t, kinds, status, entries);
      assert (entries + [e])[..|entries|] == entries;
    }
  }

  lemma {:induction false} SumNone(t: Target, kinds: seq<Scanner>, status: LogStatus)
    ensures SumCounts(LogEach(t, kinds, status, [])) == 0
    decreases |kinds|
  {
    if kinds != [] {
      SumNone(t, kinds[..|kinds| - 1], status);
      assert LogEach(t, kinds, status, [])[..|kinds| - 1] == LogEach(t, kinds[..|kinds| - 1], status, []);
    }
  }

  lemma {:induction false} SumIsSize(t: Target, kinds: seq<Scanner>, status: LogStatus, entries: seq<Entry>)
    requires Distinct(kinds) && forall i :: 0 <= i < |entries| ==> entries[i].kind in kinds
    ensures SumCounts(LogEach(t, kinds, status, entries)) == |entries|
    decreases |entries|
  {
    if entries == [] {
      SumNone(t, kinds, status);
    } else {
      var n := |entries| - 1;
      SumIsSize(t, kinds, status, entries[..n]);
      SumOneMore(t, kinds, status, entries[..n], entries[n]);
      assert entries == entries[..n] + [entries[n]];
    }
  }

  lemma EntriesAsked(scannerOf: string -> Option<Scanner>, t: Target, kinds: seq<Scanner>)
    requires Distinct(kinds)
    ensures
      var supported, entries := Supported(t, kinds), AgentEntries(scannerOf, t, kinds);
      Distinct(supported) && forall i :: 0 <= i < |entries| ==> entries[i].kind in supported
  {
    var supported := Supported(t, kinds);
    if UsableAgent(t).Some? {
      AmongDistinct(UsableAgent(t).value.capabilities, true, kinds);
    }
    if t.reply.Some? {
      MappedKinds(scannerOf, t.reply.value, set k | k in supported);
    }
  }

  lemma AgentsConserve(scannerOf: string -> Option<Scanner>, t: Target, kinds: seq<Scanner>)
    requires Distinct(kinds)
    ensures SumCounts(AgentLogs(scannerOf, t, kinds)) == |AgentEntries(scannerOf, t, kinds)|
  {
    var supported, entries := Supported(t, kinds), AgentEntries(scannerOf, t, kinds);
    var status := if t.reply.None? then Error else Success;
    EntriesAsked(scannerOf, t, kinds);
    SumNone(t, SkippedKinds(t, kinds), Skipped);
    SumIsSize(t, supported, status, entries);
    SumConcat(LogEach(t, SkippedKinds(t, kinds), Skipped, []), LogEach(t, supported, status, entries));
  }

  lemma TargetConserves(scannerOf: string -> Option<Scanner>, t: Target, scanners: seq<Scanner>)
    requires Distinct(scanners)
    ensures SumCounts(TargetLogs(scannerOf, t, scanners)) == |TargetEntries(scannerOf, t, scanners)|
  {
    AgentsDistinct(scanners);
    AgentsConserve(scannerOf, t, AgentsOnly(scanners));
    SumConcat(if Network in scanners then [NetworkLog(t)] else [], AgentLogs(scannerOf, t, AgentsOnly(scanners)));
    assert SumCounts([NetworkLog(t)]) == |NetworkEntries(t)|;
  }

  /** For distinct scanners the logged counts add up to the number of candidates before deduplication. */
  lemma {:induction false} LogsConserve(scannerOf: string -> Option<Scanner>, targets: seq<Target>,
      scanners: seq<Scanner>)
    requires Distinct(scanners)
    ensures SumCounts(RunLogs(scannerOf, targets, scanners)) == |RunEntries(scannerOf, targets, scanners)|
  {
    if targets != [] {
      var n := |targets| - 1;
      LogsConserve(scannerOf, targets[..n], scanners);
      TargetConserves(scannerOf, targets[n], scanners);
      SumConcat(RunLogs(scannerOf, targets[..n], scanners), TargetLogs(scannerOf, targets[n], scanners));
    }
  }

  // ----- In terms of the rows and replies -----

  lemma {:induction false} FirstKeysSet<K>(keys: seq<K>, more: seq<K>)
    requires Distinct(keys)
    ensures Distinct(FirstKeys(keys, more))
    ensures forall k :: k in FirstKeys(keys, more) <==> k in keys || k in more
    decreases |more|
  {
    if more != [] {
      FirstKeysSet(if more[0] in keys then keys else keys + [more[0]], more[1..]);
    }
  }

  /** A finding's algorithms: everything its four lists name, without repeats; only if they name nothing its single
      algorithm, or else its minimum TLS version, or else "unknown". */
  lemma AlgorithmsExactly(f: Finding, x: string)
    ensures Distinct(AlgorithmsFor(f))
    ensures x in AlgorithmsFor(f) <==>
      if f.algorithms == [] && f.kex == [] && f.tlsVersions == [] && f.cipherSuites == [] then
        (if f.algorithm != "" then x == f.algorithm
         else if f.minimumTls != "" then x == f.minimumTls else x == "unknown")
      else x in f.algorithms || x in f.kex || x in f.tlsVersions || x in f.cipherSuites
  {
    FirstKeysSet([], f.algorithms + f.kex + f.tlsVersions + f.cipherSuites);
  }

  /** The finding belongs to the entry's scanner and names its algorithm. */
  predicate Gives(scannerOf: string -> Option<Scanner>, f: Finding, e: Entry) {
    scannerOf(f.ftype) == Some(e.kind) && e.algorithm in AlgorithmsFor(f)
  }

  /** An entry for each algorithm of each finding whose scanner was selected, and no other. */
  lemma {:induction false} MappedExactly(scannerOf: string -> Option<Scanner>, findings: seq<Finding>,
      selected: set<Scanner>, e: Entry)
    ensures e in Mapped(scannerOf, findings, selected) <==>
      e.kind in selected && exists f :: f in findings && Gives(scannerOf, f, e)
  {
    if findings != [] {
      var n := |findings| - 1;
      MappedExactly(scannerOf, findings[..n], selected, e);
      LastFinding(scannerOf, findings, selected, e);
      assert forall f :: f in findings <==> f in findings[..n] || f == findings[n];
    }
  }

  lemma LastFinding(scannerOf: string -> Option<Scanner>, findings: seq<Finding>, selected: set<Scanner>, e: Entry)
    requires findings != []
    ensures
      var n := |findings| - 1;
      e in Mapped(scannerOf, findings, selected) <==>
      e in Mapped(scannerOf, findings[..n], selected) || (e.kind in selected && Gives(scannerOf, findings[n], e))
  {
    var f := findings[|findings| - 1];
    var kind := scannerOf(f.ftype);
    if kind.Some? {
      EntriesExactly(kind.value, AlgorithmsFor(f), e);
    }
  }

  lemma EntriesExactly(kind: Scanner, algorithms: seq<string>, e: Entry)
    ensures e in EntriesOf(kind, algorithms) <==> e.kind == kind && e.algorithm in algorithms
  {
    if e.kind == kind && e.algorithm in algorithms {
      var i :| 0 <= i < |algorithms| && algorithms[i] == e.algorithm;
      assert EntriesOf(kind, algorithms)[i] == e;
    }
  }

  /** The first agent may be asked for a scanner: the target allows agents, the agent is fresh and connected, and the
      scanner is among its capabilities. */
  predicate Askable(t: Target, kind: Scanner) {
    t.agentEnabled && t.agents != [] && !t.agents[0].stale && t.agents[0].connected && kind in t.agents[0].capabilities
  }

  lemma {:induction false} AmongExactly(capabilities: set<Scanner>, having: bool, xs: seq<Scanner>, k: Scanner)
    ensures k in Among(capabilities, having, xs) <==> k in xs && (k in capabilities) == having
  {
    if xs != [] {
      AmongExactly(capabilities, having, xs[..|xs| - 1], k);
      assert k in xs <==> k in xs[..|xs| - 1] || k == xs[|xs| - 1];
    }
  }

  lemma {:induction false} AgentsOnlyExactly(xs: seq<Scanner>, k: Scanner)
    ensures k in AgentsOnly(xs) <==> k in xs && k.HostAgent?
  {
    if xs != [] {
      AgentsOnlyExactly(xs[..|xs| - 1], k);
      assert k in xs <==> k in xs[..|xs| - 1] || k == xs[|xs| - 1];
    }
  }

  /** Each agent scanner is asked for if it can be, and skipped otherwise. */
  lemma FateOfScanner(t: Target, kinds: seq<Scanner>, k: Scanner)
    ensures k in Supported(t, kinds) <==> k in kinds && Askable(t, k)
    ensures k in SkippedKinds(t, kinds) <==> k in kinds && !Askable(t, k)
  {
    if UsableAgent(t).Some? {
      AmongExactly(t.agents[0].capabilities, true, kinds, k);
      AmongExactly(t.agents[0].capabilities, false, kinds, k);
      FirstKeysSet([], Among(t.agents[0].capabilities, false, kinds));
    } else {
      FirstKeysSet([], kinds);
    }
  }

  /** What a log must say. */
  predicate LogSays(scannerOf: string -> Option<Scanner>, t: Target, scanners: seq<Scanner>, log: Log) {
    && log.target == t.id && log.kind in scanners
    && match log.kind
       case Network =>
         if t.network.None? then log.status == Error && log.count == 0
         else log.status == Success && log.count == |t.network.value|
       case HostAgent(_) =>
         if !Askable(t, log.kind) then log.status == Skipped && log.count == 0
         else if t.reply.None? then log.status == Error && log.count == 0
         else
           log.status == Success
           && log.count == CountKind(TargetEntries(scannerOf, t, AgentsOnly(scanners)), log.kind)
       case Unknown(_) => false
  }

  lemma LogEachExactly(t: Target, kinds: seq<Scanner>, status: LogStatus, entries: seq<Entry>, log: Log)
    ensures log in LogEach(t, kinds, status, entries) <==>
      log.kind in kinds && log == Log(t.id, log.kind, status, CountKind(entries, log.kind))
  {
    if log.kind in kinds && log == Log(t.id, log.kind, status, CountKind(entries, log.kind)) {
      var i :| 0 <= i < |kinds| && kinds[i] == log.kind;
      assert LogEach(t, kinds, status, entries)[i] == log;
    }
  }

  lemma {:induction false} AgentsOnlyTwice(xs: seq<Scanner>)
    ensures AgentsOnly(AgentsOnly(xs)) == AgentsOnly(xs) && Network !in AgentsOnly(xs)
  {
    if xs != [] {
      var n := |xs| - 1;
      AgentsOnlyTwice(xs[..n]);
      var before := AgentsOnly(xs[..n]);
      if xs[n].HostAgent? {
        assert (before + [xs[n]])[..|before|] == before;
      } else {
        assert AgentsOnly(xs) == before;
      }
    }
  }

  lemma AgentLogsExactly(scannerOf: string -> Option<Scanner>, t: Target, scanners: seq<Scanner>, log: Log)
    ensures log in AgentLogs(scannerOf, t, AgentsOnly(scanners)) <==>
      log.kind.HostAgent? && LogSays(scannerOf, t, scanners, log)
  {
    var kinds := AgentsOnly(scanners);
    var status := if t.reply.None? then Error else Success;
    var entries := AgentEntries(scannerOf, t, kinds);
    OnlyAgentEntries(scannerOf, t, scanners);
    AgentsOnlyExactly(scanners, log.kind);
    FateOfScanner(t, kinds, log.kind);
    LogEachExactly(t, SkippedKinds(t, kinds), Skipped, [], log);
    LogEachExactly(t, Supported(t, kinds), status, entries, log);
    assert log in AgentLogs(scannerOf, t, kinds) <==>
      log in LogEach(t, SkippedKinds(t, kinds), Skipped, []) || log in LogEach(t, Supported(t, kinds), status, entries);
  }

  lemma OnlyAgentEntries(scannerOf: string -> Option<Scanner>, t: Target, scanners: seq<Scanner>)
    ensures
      var kinds := AgentsOnly(scanners);
      && TargetEntries(scannerOf, t, kinds) == AgentEntries(scannerOf, t, kinds)
      && (t.reply.None? ==> AgentEntries(scannerOf, t, kinds) == [])
  {
    AgentsOnlyTwice(scanners);
    var entries := AgentEntries(scannerOf, t, AgentsOnly(scanners));
    assert [] + entries == entries;
  }

  /** The logs of a target, field by field: the network scanner's outcome, and each agent scanner skipped, failed or
      counted. */
  lemma LogsExactly(scannerOf: string -> Option<Scanner>, t: Target, scanners: seq<Scanner>, log: Log)
    ensures log in TargetLogs(scannerOf, t, scanners) <==> LogSays(scannerOf, t, scanners, log)
  {
    AgentLogsExactly(scannerOf, t, scanners, log);
  }

  /** The candidates of a target: what the network scanner found, and an entry for each algorithm of each finding of
      the agent whose scanner was asked for. */
  lemma CandidatesExactly(scannerOf: string -> Option<Scanner>, t: Target, scanners: seq<Scanner>, e: Entry)
    ensures e in TargetEntries(scannerOf, t, scanners) <==>
      || (Network in scanners && t.network.Some? && e in t.network.value)
      || (e.kind in scanners && e.kind.HostAgent? && Askable(t, e.kind) && t.reply.Some?
          && exists f :: f in t.reply.value && Gives(scannerOf, f, e))
  {
    var kinds := AgentsOnly(scanners);
    AgentsOnlyExactly(scanners, e.kind);
    FateOfScanner(t, kinds, e.kind);
    if t.reply.Some? {
      MappedExactly(scannerOf, t.reply.value, (set k | k in Supported(t, kinds)), e);
    }
  }
}
