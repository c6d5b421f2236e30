/** The TLS scanner's search for server names: every name found in a leaf certificate is probed in turn. */
module SniWorklist {
  import opened Basics
  import opened OrderedDict

  /** The name sent in a probe; None when the target has no hostname. */
  type Sni = Option<string>

  /** What a scan depends on: the addresses among the names, the names known to share the target's address,
      and what probing a name brings back: the leaf certificate's names and the assets found. */
  datatype Network<!A> = Network(isIp: string -> bool, aliases: seq<string>, sans: Sni -> seq<string>,
      assets: Sni -> seq<A>)
  {
    predicate IsHostname(value: string) {
      value != "" && !isIp(value)
    }

    /** Aliases are collected through the same hostname filter. */
    predicate Valid() {
      forall i :: 0 <= i < |aliases| ==> IsHostname(aliases[i])
    }

    function Hostnames(names: seq<string>): (r: seq<string>)
      ensures forall n :: n in r <==> n in names && IsHostname(n)
    {
      if names == [] then []
      else (if IsHostname(names[0]) then [names[0]] else []) + Hostnames(names[1..])
    }

    /** The names a probe leads to. */
    predicate Leads(from: Sni, to: Sni) {
      to.Some? && (to.value in Hostnames(sans(from)) || to.value in aliases)
    }

    ghost predicate Closed(names: set<Sni>) {
      forall n, m :: n in names && Leads(n, m) ==> m in names
    }

    function AssetsOf(names: seq<Sni>): seq<A> {
      if names == [] then [] else AssetsOf(names[..|names| - 1]) + assets(names[|names| - 1])
    }
  }

  /** The set key under which a name counts as seen. */
  function Key(n: Sni): string {
    if n.Some? then n.value else ""
  }

  predicate NonEmpty(names: seq<Sni>) {
    forall i :: 0 <= i < |names| ==> names[i] != Some("")
  }

  /** Appends the names that are neither seen nor pending. */
  method Enqueue(pending: seq<Sni>, names: seq<string>, seen: set<string>) returns (r: seq<Sni>)
    requires NonEmpty(pending) && "" !in names
    ensures NonEmpty(r) && pending <= r
    ensures forall n :: n in names ==> n in seen || Some(n) in r
    ensures forall m :: m in r ==> m in pending || (m.Some? && m.value in names)
    ensures forall i :: |pending| <= i < |r| ==> IsNew(r, i, names, seen)
  {
    r := pending;
    for i := 0 to |names|
      invariant NonEmpty(r) && pending <= r
      invariant forall k :: |pending| <= k < |r| ==> IsNew(r, k, names, seen)
      invariant forall n :: n in names[..i] ==> n in seen || Some(n) in r
      invariant forall m :: m in r ==> m in pending || (m.Some? && m.value in names)
    {
      assert names[i] in names;
      if names[i] !in seen && Some(names[i]) !in r {
        AppendNew(r, names, seen, names[i]);
        r := r + [Some(names[i])];
      }
    }
    assert names[..|names|] == names;
  }

  /** The name at i was given, has not been seen and was not pending. */
  predicate IsNew(r: seq<Sni>, i: nat, names: seq<string>, seen: set<string>)
    requires i < |r|
  {
    r[i].Some? && r[i].value in names && r[i].value !in seen && r[i] !in r[..i]
  }

  lemma AppendNew(r: seq<Sni>, names: seq<string>, seen: set<string>, name: string)
    requires name in names && name !in seen && Some(name) !in r
    ensures IsNew(r + [Some(name)], |r|, names, seen)
    ensures forall k :: 0 <= k < |r| && IsNew(r, k, names, seen) ==> IsNew(r + [Some(name)], k, names, seen)
  {
    forall k | 0 <= k <= |r| ensures (r + [Some(name)])[..k] == r[..k] {
    }
  }

  /** The target's own name, or None, followed by the other aliases. */
  method InitialNames<A>(net: Network<A>, sni: Option<string>, host: string) returns (names: seq<Sni>)
    requires net.Valid()
    ensures NonEmpty(names) && Distinct(names) && |names| > 0
    ensures names[0] == if sni.Some? && sni.value != "" then sni
                        else if net.IsHostname(host) then Some(host) else None
    ensures forall m :: m in names <==> m == names[0] || (m.Some? && m.value in net.aliases)
  {
    var primary := if sni.Some? && sni.value != "" then sni else if net.IsHostname(host) then Some(host) else None;
    names := [primary];
    for i := 0 to |net.aliases|
      invariant NonEmpty(names) && Distinct(names) && |names| > 0 && names[0] == primary
      invariant forall m :: m in names <==> m == primary || (m.Some? && m.value in net.aliases[..i])
    {
      assert net.aliases[..i + 1] == net.aliases[..i] + [net.aliases[i]];
      if Some(net.aliases[i]) !in names {
        names := names + [Some(net.aliases[i])];
      }
    }
    assert net.aliases[..|net.aliases|] == net.aliases;
  }

  /** Every initial name, and every name a visited one leads to, is visited or pending. */
  ghost predicate Frontier<A>(net: Network<A>, initial: seq<Sni>, visited: set<Sni>, pending: seq<Sni>) {
    && (forall n :: n in initial ==> n in visited || n in pending)
    && (forall n, m :: n in visited && net.Leads(n, m) ==> m in visited || m in pending)
  }

  ghost predicate Holds(initial: seq<Sni>, names: set<Sni>) {
    forall n :: n in initial ==> n in names
  }

  /** Visited and pending names lie in every closed set that holds the initial ones. */
  ghost predicate Needed<A>(net: Network<A>, initial: seq<Sni>, visited: set<Sni>, pending: seq<Sni>) {
    forall names: set<Sni> :: net.Closed(names) && Holds(initial, names) ==> visited <= names && Holds(pending, names)
  }

  lemma Expand<A>(net: Network<A>, initial: seq<Sni>, visited: set<Sni>, sni: Sni, rest: seq<Sni>, pending: seq<Sni>)
    requires Frontier(net, initial, visited, [sni] + rest) && Needed(net, initial, visited, [sni] + rest)
    requires rest <= pending
    requires forall m :: net.Leads(sni, m) ==> m in visited + {sni} || m in pending
    requires forall m :: m in pending ==> m in rest || net.Leads(sni, m)
    ensures Frontier(net, initial, visited + {sni}, pending) && Needed(net, initial, visited + {sni}, pending)
  {
    forall m | m in [sni] + rest ensures m == sni || m in pending {
    }
    forall names: set<Sni> | net.Closed(names) && Holds(initial, names)
      ensures visited + {sni} <= names && Holds(pending, names)
    {
      assert sni in [sni] + rest;
      forall m | m in pending ensures m in names {
        if m in rest {
          assert m in [sni] + rest;
        }
      }
    }
  }

  /** Probes each reachable name exactly once: the probed names are the least set that holds the initial
      ones and is closed under the leaf certificates' hostnames and the aliases.  Termination needs
      only that some finite set of names is closed. */
  method ScanTls<A>(net: Network<A>, initial: seq<Sni>, ghost universe: set<Sni>)
    returns (probed: seq<Sni>, assets: seq<A>)
    requires net.Valid() && NonEmpty(initial)
    requires net.Closed(universe) && Holds(initial, universe)
    ensures Distinct(probed)
    ensures Holds(initial, set n | n in probed) && net.Closed(set n | n in probed)
    ensures forall names: set<Sni> :: net.Closed(names) && Holds(initial, names) ==> (set n | n in probed) <= names
    ensures assets == net.AssetsOf(probed)
  {
    probed, assets := [], [];
    var pending, seen := initial, {};
    ghost var visited: set<Sni> := {};
    while pending != []
      invariant NonEmpty(pending) && Distinct(probed)
      invariant visited == (set n | n in probed) && Some("") !in visited
      invariant seen == set n | n in visited :: Key(n)
      invariant Frontier(net, initial, visited, pending) && Needed(net, initial, visited, pending)
      invariant assets == net.AssetsOf(probed)
      decreases universe - visited, |pending|
    {
      var sni, rest := pending[0], pending[1..];
      assert pending == [sni] + rest;
      if Key(sni) in seen {
        pending := rest;
      } else {
        seen := seen + {Key(sni)};
        assets := assets + net.assets(sni);
        assert (probed + [sni])[..|probed|] == probed;
        probed := probed + [sni];
        var more := Enqueue(rest, net.Hostnames(net.sans(sni)), seen);
        var all := Enqueue(more, net.aliases, seen);
        SeenNames(net, visited + {sni}, seen, sni, more, all);
        Expand(net, initial, visited, sni, rest, all);
        assert sni in universe;
        visited := visited + {sni};
        pending := all;
      }
    }
  }

  /** What the two queueing loops leave out has been seen. */
  lemma SeenNames<A>(net: Network<A>, visited: set<Sni>, seen: set<string>, sni: Sni, more: seq<Sni>, all: seq<Sni>)
    requires seen == (set n | n in visited :: Key(n)) && more <= all
    requires forall n :: n in net.Hostnames(net.sans(sni)) ==> n in seen || Some(n) in more
    requires net.Valid() && forall n :: n in net.aliases ==> n in seen || Some(n) in all
    ensures forall m :: net.Leads(sni, m) ==> m in visited || m in all
  {
    forall m | net.Leads(sni, m) ensures m in visited || m in all {
      if m.value in seen {
        var n :| n in visited && Key(n) == m.value;
        assert n == m;
      } else if Some(m.value) in more {
        assert m in all;
      }
    }
  }

  /** The assets are those of each probe, in the order of the probes. */
  lemma {:induction false} AssetsInOrder<A>(net: Network<A>, a: seq<Sni>, b: seq<Sni>, n: Sni)
    ensures net.AssetsOf([n]) == net.assets(n)
    ensures net.AssetsOf(a + b) == net.AssetsOf(a) + net.AssetsOf(b)
    decreases |b|
  {
    assert [n][..0] == [] && net.AssetsOf([]) + net.assets(n) == net.assets(n);
    if b == [] {
      assert a + b == a && net.AssetsOf(a) + [] == net.AssetsOf(a);
    } else {
      var k := |b| - 1;
      AssetsInOrder(net, a, b[..k], n);
      assert (a + b)[..|a + b| - 1] == a + b[..k];
      var x, y, z := net.AssetsOf(a), net.AssetsOf(b[..k]), net.assets(b[k]);
      assert (x + y) + z == x + (y + z);
    }
  }
}
