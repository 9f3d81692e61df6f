/** Binding services to networks under aliases. Docker's update of a service is
    taken as: drop the named network, then attach it with exactly the aliases
    asked for. */
module NetworkAliases {
  import opened Basics
  import opened Text
  import opened Ordering

  function Itself(s: string): string {
    s
  }

  /** The aliases a list amounts to: trimmed, the blank ones left out. */
  function Names(values: seq<string>): set<string> {
    set v | v in values && Trim(v) != "" :: Trim(v)
  }

  predicate Distinct<T(==)>(s: seq<T>) {
    forall i, j | 0 <= i < j < |s| :: s[i] != s[j]
  }

  ghost predicate Canonical(r: seq<string>, values: seq<string>) {
    Distinct(r) && SortedBy(r, Itself) && (forall x :: x in r <==> x in Names(values))
  }

  method SortedUniqueStrings(values: seq<string>) returns (r: seq<string>)
    ensures Canonical(r, values)
  {
    var seen: set<string> := {};
    r := [];
    for i := 0 to |values|
      invariant Distinct(r) && (forall x :: x in r <==> x in seen)
      invariant seen == Names(values[..i])
    {
      NamesMore(values[..i], values[i]);
      assert values[..i + 1] == values[..i] + [values[i]];
      var value := Trim(values[i]);
      if value != "" && value !in seen {
        seen := seen + {value};
        r := r + [value];
      }
    }
    assert values[..|values|] == values;
    ghost var before := r;
    r := Sort(r, Itself);
    SameElements(r, before);
  }

  lemma NamesMore(values: seq<string>, v: string)
    ensures Names(values + [v]) == Names(values) + if Trim(v) != "" then {Trim(v)} else {}
  {
    assert forall x | x in values + [v] :: x in values || x == v;
    assert v in values + [v] && forall x | x in values :: x in values + [v];
  }

  lemma SameElements(a: seq<string>, b: seq<string>)
    requires multiset(a) == multiset(b) && Distinct(b)
    ensures Distinct(a) && forall x :: x in a <==> x in b
  {
    forall x ensures x in a <==> x in b {
      assert x in a <==> x in multiset(a);
      assert x in b <==> x in multiset(b);
    }
    forall i, j | 0 <= i < j < |a| ensures a[i] != a[j] {
      if a[i] == a[j] {
        Twice(a, i, j);
        AtMostOnce(b, a[i]);
      }
    }
  }

  lemma Twice(a: seq<string>, i: nat, j: nat)
    requires i < j < |a| && a[i] == a[j]
    ensures multiset(a)[a[i]] >= 2
  {
    assert a == a[..j] + [a[j]] + a[j + 1..];
    assert a[i] in a[..j];
  }

  lemma {:induction false} AtMostOnce(b: seq<string>, x: string)
    requires Distinct(b)
    ensures multiset(b)[x] <= 1
  {
    if b != [] {
      var rest, last := b[..|b| - 1], b[|b| - 1];
      AtMostOnce(rest, x);
      assert b == rest + [last];
      assert last !in rest;
    }
  }

  /** There is one canonical list for a set of names. */
  lemma CanonicalIsUnique(a: seq<string>, b: seq<string>, values: seq<string>, others: seq<string>)
    requires Canonical(a, values) && Canonical(b, others) && Names(values) == Names(others)
    ensures a == b
  {
    forall x: string ensures multiset(a)[x] == multiset(b)[x] {
      AtMostOnce(a, x);
      AtMostOnce(b, x);
      assert x in a <==> x in multiset(a);
      assert x in b <==> x in multiset(b);
      assert x in a <==> x in b;
    }
    assert multiset(a) == multiset(b);
    OneOrder(a, b);
  }

  lemma CanonicalNames(r: seq<string>, values: seq<string>)
    requires Canonical(r, values)
    ensures Names(r) == Names(values)
  {
    forall x | x in r ensures Trim(x) == x && x != "" {
      var v :| v in values && Trim(v) != "" && Trim(v) == x;
      TrimTwice(v);
    }
    forall x | x in Names(values) ensures x in Names(r) {
      assert x in r;
      assert Trim(x) == x;
    }
    forall x | x in Names(r) ensures x in Names(values) {
      var v :| v in r && Trim(v) != "" && Trim(v) == x;
    }
  }

  // ----- A service's networks -----

  datatype Attachment = Attachment(target: string, aliases: seq<string>)

  predicate OnePerNetwork(networks: seq<Attachment>) {
    forall i, j | 0 <= i < j < |networks| :: networks[i].target != networks[j].target
  }

  function Find(networks: seq<Attachment>, network: string): Option<seq<string>> {
    if networks == [] then None
    else if networks[0].target == network then Some(networks[0].aliases)
    else Find(networks[1..], network)
  }

  /** Docker's removal of a network from a service. */
  function Detached(networks: seq<Attachment>, network: string): (r: seq<Attachment>)
    ensures forall x | x in r :: x in networks && x.target != network
  {
    if networks == [] then []
    else (if networks[0].target == network then [] else [networks[0]]) + Detached(networks[1..], network)
  }

  /** Whether binding the alias asks Docker for anything. */
  predicate Updates(networks: seq<Attachment>, network: string, name: string) {
    var found := Find(networks, network);
    found.None? || (name != "" && name !in found.value)
  }

  /** What binding leaves of a service's networks. */
  ghost predicate Bound(before: seq<Attachment>, network: string, name: string, after: seq<Attachment>) {
    match Find(before, network)
    case None => after == before + [Attachment(network, if name == "" then [] else [name])]
    case Some(aliases) =>
      if !Updates(before, network, name) then after == before
      else
        && after != []
        && after == Detached(before, network) + [Attachment(network, after[|after| - 1].aliases)]
        && Canonical(after[|after| - 1].aliases, aliases + [name])
  }

  lemma {:induction false} FindFirst(networks: seq<Attachment>, i: nat)
    requires i < |networks| && forall k | 0 <= k < i :: networks[k].target != networks[i].target
    ensures Find(networks, networks[i].target) == Some(networks[i].aliases)
  {
    if i > 0 {
      FindFirst(networks[1..], i - 1);
    }
  }

  lemma {:induction false} FindNone(networks: seq<Attachment>, network: string)
    ensures Find(networks, network).None? <==> forall i | 0 <= i < |networks| :: networks[i].target != network
  {
    if networks != [] {
      FindNone(networks[1..], network);
      assert forall i | 0 <= i < |networks| - 1 :: networks[1..][i] == networks[i + 1];
    }
  }

  class Service {
    var networks: seq<Attachment>

    /** Attaches the service to the network under the alias, keeping the aliases
        it already has there. */
    method Bind(network: string, name: string) returns (updated: bool)
      modifies this
      ensures Bound(old(networks), network, name, networks)
      ensures updated == Updates(old(networks), network, name)
      ensures OnePerNetwork(old(networks)) ==> OnePerNetwork(networks)
    {
      FindNone(networks, network);
      for i := 0 to |networks|
        invariant networks == old(networks)
        invariant forall k | 0 <= k < i :: networks[k].target != network
      {
        var attachment := networks[i];
        if attachment.target == network {
          FindFirst(networks, i);
          if name == "" || name in attachment.aliases {
            return false;
          }
          var aliases := SortedUniqueStrings(attachment.aliases + [name]);
          if OnePerNetwork(networks) {
            DetachedIsApart(networks, network);
          }
          networks := Detached(networks, network) + [Attachment(network, aliases)];
          return true;
        }
      }
      networks := networks + [Attachment(network, if name == "" then [] else [name])];
      return true;
    }
  }

  lemma {:induction false} DetachedIsApart(networks: seq<Attachment>, network: string)
    requires OnePerNetwork(networks)
    ensures OnePerNetwork(Detached(networks, network))
  {
    if networks != [] {
      DetachedIsApart(networks[1..], network);
    }
  }

  // ----- What bindings keep -----

  lemma {:induction false} FindAfter(networks: seq<Attachment>, last: Attachment, network: string)
    ensures Find(networks + [last], network) ==
            if Find(networks, network).Some? then Find(networks, network)
            else if last.target == network then Some(last.aliases) else None
  {
    if networks == [] {
      assert networks + [last] == [last];
    } else {
      FindAfter(networks[1..], last, network);
      assert (networks + [last])[1..] == networks[1..] + [last];
    }
  }

  lemma {:induction false} FindDetached(networks: seq<Attachment>, gone: string, network: string)
    ensures Find(Detached(networks, gone), network) == if network == gone then None else Find(networks, network)
  {
    if networks != [] {
      FindDetached(networks[1..], gone, network);
      var rest := Detached(networks[1..], gone);
      if networks[0].target != gone {
        assert ([networks[0]] + rest)[1..] == rest;
      } else {
        assert [] + rest == rest;
      }
    }
  }

  /** Binding changes no network but its own. */
  lemma BindLeavesOthers(before: seq<Attachment>, network: string, name: string, after: seq<Attachment>, other: string)
    requires Bound(before, network, name, after) && other != network
    ensures Find(after, other) == Find(before, other)
  {
    if Updates(before, network, name) {
      var last := after[|after| - 1];
      FindDetached(before, network, other);
      FindAfter(Detached(before, network), last, other);
      FindAfter(before, last, other);
    }
  }

  function AliasesOf(networks: seq<Attachment>, network: string): seq<string> {
    var found := Find(networks, network);
    if found.Some? then found.value else []
  }

  lemma FindBound(before: seq<Attachment>, network: string, name: string, after: seq<Attachment>)
    requires Bound(before, network, name, after) && Updates(before, network, name)
    ensures after != [] && Find(after, network) == Some(after[|after| - 1].aliases)
  {
    var last := after[|after| - 1];
    FindDetached(before, network, network);
    FindAfter(Detached(before, network), last, network);
    FindAfter(before, last, network);
  }

  /** Binding an alias adds that alias to the names on its network, and nothing
      else: no name is lost and none appears. */
  lemma BindAddsOneName(before: seq<Attachment>, network: string, name: string, after: seq<Attachment>)
    requires Bound(before, network, name, after)
    ensures Find(after, network).Some?
    ensures Names(AliasesOf(after, network)) == Names(AliasesOf(before, network)) + Names([name])
  {
    var aliases := AliasesOf(before, network);
    if !Updates(before, network, name) {
      NamesOfOne(name);
      assert name != "" ==> name in aliases;
    } else {
      FindBound(before, network, name, after);
      if Find(before, network).Some? {
        CanonicalNames(after[|after| - 1].aliases, aliases + [name]);
        NamesMore(aliases, name);
        NamesOfOne(name);
      } else {
        NamesOfOne("");
        assert Names([]) == {};
      }
    }
  }

  lemma NamesOfOne(name: string)
    ensures Names([name]) == if Trim(name) != "" then {Trim(name)} else {}
  {
    NamesMore([], name);
    assert [] + [name] == [name];
  }

  /** An alias already on the network stays, letter for letter, exactly when the
      binding asks for nothing or the alias is free of surrounding blanks. */
  lemma AliasStaysIff(before: seq<Attachment>, network: string, name: string, after: seq<Attachment>, x: string)
    requires Bound(before, network, name, after) && x in AliasesOf(before, network)
    ensures x in AliasesOf(after, network) <==> !Updates(before, network, name) || (x != "" && Trim(x) == x)
  {
    if Updates(before, network, name) {
      FindBound(before, network, name, after);
      var values := AliasesOf(before, network) + [name];
      if x in Names(values) {
        var v :| v in values && Trim(v) != "" && Trim(v) == x;
        TrimTwice(v);
      }
    }
  }

  lemma BlankNames()
    ensures Names([" a", "b"]) == {"a", "b"}
  {
    TrimsTo(" a", "a");
    TrimsTo("b", "b");
    NamesOfOne(" a");
    NamesMore([" a"], "b");
    assert [" a"] + ["b"] == [" a", "b"];
  }

  lemma TwoAreCanonical(values: seq<string>)
    requires Names(values) == {"a", "b"}
    ensures Canonical(["a", "b"], values)
  {
    assert AtMost("a", "b");
  }

  /** An alias Docker reports with a blank in front is trimmed away by the next
      binding. */
  lemma BlankAliasIsLost() returns (before: seq<Attachment>, after: seq<Attachment>)
    ensures Bound(before, "net", "b", after)
    ensures " a" in AliasesOf(before, "net") && " a" !in AliasesOf(after, "net")
  {
    before, after := [Attachment("net", [" a"])], [Attachment("net", ["a", "b"])];
    BlankNames();
    assert [" a"] + ["b"] == [" a", "b"];
    TwoAreCanonical([" a"] + ["b"]);
    assert Find(before, "net") == Some([" a"]) && Detached(before, "net") == [];
  }

  lemma TrimsTo(s: string, t: string)
    requires t != "" && !IsSpace(t[0]) && !IsSpace(t[|t| - 1]) && (s == t || s == " " + t)
    ensures Trim(s) == t
  {
    TrimIsStable(t);
  }

  /** Binding again leaves the service as it is. It asks Docker for nothing
      exactly when the alias is empty or by then on the network as written. */
  lemma BindTwiceIsOnce(start: seq<Attachment>, network: string, name: string,
                        once: seq<Attachment>, twice: seq<Attachment>)
    requires Bound(start, network, name, once) && Bound(once, network, name, twice)
    ensures twice == once
    ensures Updates(once, network, name) <==>
            Updates(start, network, name) && Find(start, network).Some? && Trim(name) != name
  {
    if Updates(start, network, name) {
      FindBound(start, network, name, once);
      if Find(start, network).Some? {
        var values := AliasesOf(start, network) + [name];
        var aliases := AliasesOf(once, network);
        CanonicalHas(aliases, values, name);
        if Updates(once, network, name) {
          CanonicalNames(aliases, values);
          NamesMore(AliasesOf(start, network), name);
          NamesMore(aliases, name);
          CanonicalIsUnique(aliases, twice[|twice| - 1].aliases, values, aliases + [name]);
          DetachedLast(start, network, aliases);
        }
      }
    }
  }

  lemma CanonicalHas(r: seq<string>, values: seq<string>, name: string)
    requires Canonical(r, values) && name in values && name != ""
    ensures name in r <==> Trim(name) == name
  {
    if name in r {
      var v :| v in values && Trim(v) != "" && Trim(v) == name;
      TrimTwice(v);
    }
  }

  lemma DetachedLast(networks: seq<Attachment>, network: string, aliases: seq<string>)
    ensures Detached(Detached(networks, network) + [Attachment(network, aliases)], network) == Detached(networks, network)
  {
    DetachedNothing(Detached(networks, network), Attachment(network, aliases));
  }

  lemma {:induction false} DetachedNothing(networks: seq<Attachment>, last: Attachment)
    requires forall x | x in networks :: x.target != last.target
    ensures Detached(networks + [last], last.target) == networks
  {
    if networks == [] {
      assert networks + [last] == [last];
    } else {
      DetachedNothing(networks[1..], last);
      assert (networks + [last])[1..] == networks[1..] + [last];
    }
  }

  // ----- Runs of bindings -----

  datatype Binding = Binding(network: string, name: string)

  /** A service's networks through a run of bindings: states[k] is how they stand
      before binding k. */
  ghost predicate History(states: seq<seq<Attachment>>, bindings: seq<Binding>) {
    && |states| == |bindings| + 1
    && forall k | 0 <= k < |bindings| :: Bound(states[k], bindings[k].network, bindings[k].name, states[k + 1])
  }

  /** The names bound on one network, over a run. */
  function BoundNames(bindings: seq<Binding>, network: string): set<string> {
    if bindings == [] then {}
    else
      var last := bindings[|bindings| - 1];
      BoundNames(bindings[..|bindings| - 1], network) + if last.network == network then Names([last.name]) else {}
  }

  /** Over any run, the names on a network are those it had and those bound
      there, no more and no fewer. */
  lemma {:induction false} RunKeepsNames(states: seq<seq<Attachment>>, bindings: seq<Binding>, network: string)
    requires History(states, bindings)
    ensures Names(AliasesOf(states[|bindings|], network)) ==
            Names(AliasesOf(states[0], network)) + BoundNames(bindings, network)
    decreases |bindings|
  {
    if bindings != [] {
      var n := |bindings| - 1;
      var last := bindings[n];
      RunKeepsNames(states[..n + 1], bindings[..n], network);
      if last.network == network {
        BindAddsOneName(states[n], network, last.name, states[n + 1]);
      } else {
        BindLeavesOthers(states[n], last.network, last.name, states[n + 1], network);
      }
    }
  }

  /** Every alias bound along the way is still attached at the end, as written if
      it is free of surrounding blanks. */
  lemma {:induction false} BoundAliasStays(states: seq<seq<Attachment>>, bindings: seq<Binding>, k: nat)
    requires History(states, bindings) && k < |bindings|
    requires bindings[k].name != "" && Trim(bindings[k].name) == bindings[k].name
    ensures bindings[k].name in AliasesOf(states[|bindings|], bindings[k].network)
    decreases |bindings|
  {
    var n := |bindings| - 1;
    var last, b := bindings[n], bindings[k];
    assert Bound(states[n], last.network, last.name, states[n + 1]);
    if k == n {
      if Updates(states[n], b.network, b.name) {
        FindBound(states[n], b.network, b.name, states[n + 1]);
        assert b.name in AliasesOf(states[n], b.network) + [b.name];
      }
    } else {
      BoundAliasStays(states[..n + 1], bindings[..n], k);
      if last.network == b.network {
        AliasStaysIff(states[n], b.network, last.name, states[n + 1], b.name);
      } else {
        BindLeavesOthers(states[n], last.network, last.name, states[n + 1], b.network);
      }
    }
  }
}
