/** The crates.io publish order: the root crate's workspace-dependency closure,
    dependencies first.

    The visit recurses into a crate that is still being visited, so on a cyclic
    graph it runs until the interpreter's recursion limit stops it. The limit is
    therefore part of the model, and the order is proved to come out exactly when
    the closure has no dependency cycle. */
module PublishOrder {
  import opened Outcomes
  import opened Collections

  type Crate = string

  datatype PublishError = RootNotInWorkspace | RecursionLimit | OrderInvalid

  /** `cargo metadata`: every workspace package with its dependency list, which may
      repeat a name and may name crates outside the workspace. */
  type Metadata = map<Crate, seq<Crate>>

  function WorkspaceDeps(packages: Metadata, name: Crate): set<Crate>
    requires name in packages
  {
    set dep | dep in packages[name] && dep in packages
  }

  ghost predicate ClosedUnderDeps(packages: Metadata, crates: set<Crate>) {
    crates <= packages.Keys && forall c <- crates :: WorkspaceDeps(packages, c) <= crates
  }

  /** The least set of crates that holds the root and every dependency of its members. */
  ghost predicate IsClosureOf(packages: Metadata, root: Crate, closure: set<Crate>) {
    && root in closure
    && ClosedUnderDeps(packages, closure)
    && forall other :: root in other && ClosedUnderDeps(packages, other) ==> closure <= other
  }

  /** from depends on to through a chain of exactly n dependency edges. */
  ghost predicate DependsIn(packages: Metadata, from: Crate, to: Crate, n: nat)
    decreases n
  {
    && from in packages
    && if n == 0 then from == to
       else exists next :: next in WorkspaceDeps(packages, from) && DependsIn(packages, next, to, n - 1)
  }

  ghost predicate DependsOn(packages: Metadata, from: Crate, to: Crate) {
    exists n: nat :: n > 0 && DependsIn(packages, from, to, n)
  }

  ghost predicate HasCycle(packages: Metadata, crates: set<Crate>) {
    exists c :: c in crates && DependsOn(packages, c, c)
  }

  /** Every crate stands after all its workspace dependencies. */
  ghost predicate DependenciesFirst(packages: Metadata, order: seq<Crate>) {
    forall i :: 0 <= i < |order| ==> order[i] in packages && WorkspaceDeps(packages, order[i]) <= Elements(order[..i])
  }

  ghost function Elements(s: seq<Crate>): set<Crate> { set x | x in s }

  /** In terms of the listed dependencies: each one that is a workspace member stands
      earlier in such an order, and a closed set holds it. */
  lemma {:induction false} ListedDependenciesAreKept(
      packages: Metadata, order: seq<Crate>, closure: set<Crate>, i: nat, dep: Crate)
    requires i < |order| && order[i] in packages && dep in packages[order[i]] && dep in packages
    ensures DependenciesFirst(packages, order) ==> exists j :: 0 <= j < i && order[j] == dep
    ensures ClosedUnderDeps(packages, closure) && order[i] in closure ==> dep in closure
  {
    assert dep in WorkspaceDeps(packages, order[i]);
    if DependenciesFirst(packages, order) {
      assert dep in Elements(order[..i]);
      var j :| 0 <= j < i && order[..i][j] == dep;
      assert order[j] == dep;
    }
  }

  // ---------- What dependency order excludes ----------

  lemma {:induction false} DependencyStandsEarlier(packages: Metadata, order: seq<Crate>, i: nat, to: Crate, n: nat)
    returns (j: nat)
    requires DependenciesFirst(packages, order) && i < |order|
    requires DependsIn(packages, order[i], to, n)
    ensures j + n <= i && order[j] == to
    decreases n
  {
    if n == 0 {
      j := i;
    } else {
      var next :| next in WorkspaceDeps(packages, order[i]) && DependsIn(packages, next, to, n - 1);
      assert next in Elements(order[..i]);
      var k: nat :| k < i && order[k] == next;
      j := DependencyStandsEarlier(packages, order, k, to, n - 1);
    }
  }

  /** No crate of a dependencies-first order can depend on itself. */
  lemma {:induction false} NoChainBack(packages: Metadata, order: seq<Crate>, i: nat, n: nat)
    requires DependenciesFirst(packages, order) && i < |order| && n > 0
    ensures !DependsIn(packages, order[i], order[i], n)
    decreases i
  {
    if DependsIn(packages, order[i], order[i], n) {
      var j := DependencyStandsEarlier(packages, order, i, order[i], n);
      NoChainBack(packages, order, j, n);
    }
  }

  /** No crate of a dependencies-first order can depend on itself. */
  lemma OrderedCrateIsOnNoCycle(packages: Metadata, order: seq<Crate>, node: Crate)
    requires DependenciesFirst(packages, order) && node in order
    ensures !DependsOn(packages, node, node)
  {
    var i :| 0 <= i < |order| && order[i] == node;
    forall n: nat | n > 0 ensures !DependsIn(packages, node, node, n) {
      NoChainBack(packages, order, i, n);
    }
  }

  lemma {:induction false} ChainExtends(packages: Metadata, from: Crate, to: Crate, n: nat, dep: Crate)
    requires DependsIn(packages, from, to, n) && to in packages && dep in WorkspaceDeps(packages, to)
    ensures DependsIn(packages, from, dep, n + 1)
    decreases n
  {
    if n == 0 {
      assert DependsIn(packages, dep, dep, 0);
    } else {
      var next :| next in WorkspaceDeps(packages, from) && DependsIn(packages, next, to, n - 1);
      ChainExtends(packages, next, to, n - 1, dep);
    }
  }

  lemma DirectDependency(packages: Metadata, from: Crate, dep: Crate)
    requires from in packages && dep in WorkspaceDeps(packages, from)
    ensures DependsOn(packages, from, dep)
    ensures forall to :: DependsOn(packages, dep, to) ==> DependsOn(packages, from, to)
    ensures forall top :: DependsOn(packages, top, from) ==> DependsOn(packages, top, dep)
  {
    assert DependsIn(packages, dep, dep, 0);
    assert DependsIn(packages, from, dep, 1);
    forall to | DependsOn(packages, dep, to) ensures DependsOn(packages, from, to) {
      var n: nat :| n > 0 && DependsIn(packages, dep, to, n);
      assert DependsIn(packages, from, to, n + 1);
    }
    forall top | DependsOn(packages, top, from) ensures DependsOn(packages, top, dep) {
      var n: nat :| n > 0 && DependsIn(packages, top, from, n);
      ChainExtends(packages, top, from, n, dep);
    }
  }

  lemma AppendDone(packages: Metadata, order: seq<Crate>, node: Crate)
    requires DependenciesFirst(packages, order)
    requires node in packages && WorkspaceDeps(packages, node) <= Elements(order)
    ensures DependenciesFirst(packages, order + [node])
    ensures Elements(order + [node]) == Elements(order) + {node}
    ensures Distinct(order) && node !in order ==> Distinct(order + [node])
  {
    var longer := order + [node];
    forall i | 0 <= i < |longer|
      ensures longer[i] in packages && WorkspaceDeps(packages, longer[i]) <= Elements(longer[..i])
    {
      assert longer[..i] == order[..i];
      if i == |order| { assert order[..i] == order; }
    }
  }

  /** An inner visit that had emitted this crate would have found it below itself. */
  lemma ReadyToEmit(packages: Metadata, order: seq<Crate>, node: Crate)
    requires DependenciesFirst(packages, order) && Distinct(order)
    requires node in packages && WorkspaceDeps(packages, node) <= Elements(order)
    requires node in order ==> DependsOn(packages, node, node)
    ensures node !in order
    ensures DependenciesFirst(packages, order + [node]) && Distinct(order + [node])
    ensures Elements(order + [node]) == Elements(order) + {node}
  {
    if node in order {
      OrderedCrateIsOnNoCycle(packages, order, node);
    }
    AppendDone(packages, order, node);
  }

  // ---------- The program ----------

  /** Iterating a Python set, or sorting it: some order of its elements. Every
      result below holds for all of them, so for the alphabetical one too. */
  method Enumerate(s: set<Crate>) returns (q: seq<Crate>)
    ensures Elements(q) == s
    ensures Distinct(q)
  {
    q := [];
    var rest := s;
    while rest != {}
      invariant Elements(q) == s - rest && rest <= s
      invariant Distinct(q)
      decreases rest
    {
      var x :| x in rest;
      assert Elements(q + [x]) == Elements(q) + {x};
      q, rest := q + [x], rest - {x};
    }
  }

  /** The worklist: a stack that may hold a crate many times over. */
  method Closure(packages: Metadata, root: Crate) returns (closure: set<Crate>)
    requires root in packages
    ensures IsClosureOf(packages, root, closure)
  {
    closure := {};
    var stack := [root];
    while stack != []
      invariant Elements(stack) <= packages.Keys && closure <= packages.Keys
      invariant root in closure || root in stack
      invariant forall c <- closure :: WorkspaceDeps(packages, c) <= closure + Elements(stack)
      invariant forall other :: root in other && ClosedUnderDeps(packages, other) ==> closure + Elements(stack) <= other
      decreases packages.Keys - closure, |stack|
    {
      var current := stack[|stack| - 1];
      ghost var before := stack;
      stack := stack[..|stack| - 1];
      assert Elements(before) == Elements(stack) + {current};
      if current in closure {
        continue;
      }
      closure := closure + {current};
      var deps := Enumerate(WorkspaceDeps(packages, current));
      assert Elements(stack + deps) == Elements(stack) + Elements(deps);
      stack := stack + deps;
    }
  }

  /** The depth-first post-order: the `state` and `order` that `visit` updates. */
  class Sorter {
    const packages: Metadata
    const closure: set<Crate>
    const recursionLimit: nat
    var state: map<Crate, int>
    var order: seq<Crate>

    constructor (packages: Metadata, closure: set<Crate>, recursionLimit: nat)
      requires ClosedUnderDeps(packages, closure)
      ensures this.packages == packages && this.closure == closure && this.recursionLimit == recursionLimit
      ensures Valid() && order == []
    {
      this.packages, this.closure, this.recursionLimit := packages, closure, recursionLimit;
      state, order := map[], [];
    }

    ghost predicate Valid()
      reads this
    {
      && ClosedUnderDeps(packages, closure)
      && Elements(order) <= closure
      && (forall c :: c in order <==> c in state && state[c] == 2)
      && Distinct(order)
      && DependenciesFirst(packages, order)
    }

    /** Crates emitted since then were all reached from node. */
    ghost predicate EmittedBelow(node: Crate, earlier: seq<Crate>)
      reads this
    {
      && earlier <= order
      && forall c :: c in order && c !in earlier ==> c == node || DependsOn(packages, node, c)
    }

    /** The visit stack above a call: on an acyclic graph its crates are distinct. */
    ghost predicate OnPath(ancestors: set<Crate>, node: Crate, depth: nat) {
      && ancestors <= closure && |ancestors| == depth
      && forall a <- ancestors :: DependsOn(packages, a, node)
    }

    method Visit(node: Crate, depth: nat, ghost ancestors: set<Crate>) returns (ok: bool)
      requires Valid() && node in closure && depth <= recursionLimit
      requires !HasCycle(packages, closure) ==> OnPath(ancestors, node, depth)
      modifies this
      ensures ok ==> Valid() && node in order && EmittedBelow(node, old(order))
      ensures !HasCycle(packages, closure) && |closure| <= recursionLimit ==> ok
      decreases recursionLimit - depth, 1
    {
      if !HasCycle(packages, closure) {
        NodeIsNotItsAncestor(ancestors, node, depth);
      }
      if depth == recursionLimit {
        return false;
      }
      if node in state && state[node] == 2 {
        return true;
      }
      state := state[node := 1];
      var deps := Enumerate(WorkspaceDeps(packages, node));
      for i := 0 to |deps|
        invariant Valid() && old(order) <= order
        invariant forall k :: 0 <= k < i ==> deps[k] in order
        invariant DependencyBelow(node, old(order))
      {
        assert deps[i] in Elements(deps);
        ok := VisitDependency(node, deps[i], depth, ancestors);
        if !ok {
          return;
        }
      }
      assert WorkspaceDeps(packages, node) <= Elements(order);
      ReadyToEmit(packages, order, node);
      state := state[node := 2];
      order := order + [node];
      return true;
    }

    /** Crates emitted since then are dependencies of node. */
    ghost predicate DependencyBelow(node: Crate, earlier: seq<Crate>)
      reads this
    {
      forall c :: c in order && c !in earlier ==> DependsOn(packages, node, c)
    }

    /** The body of the loop over a node's dependencies. */
    method VisitDependency(node: Crate, dep: Crate, depth: nat, ghost ancestors: set<Crate>) returns (ok: bool)
      requires Valid() && node in closure && dep in WorkspaceDeps(packages, node) && depth < recursionLimit
      requires !HasCycle(packages, closure) ==> OnPath(ancestors, node, depth) && node !in ancestors
      modifies this
      ensures ok ==> Valid() && dep in order && old(order) <= order && DependencyBelow(node, old(order))
      ensures !HasCycle(packages, closure) && |closure| <= recursionLimit ==> ok
      decreases recursionLimit - depth, 0
    {
      DirectDependency(packages, node, dep);
      ok := true;
      if dep in closure && !(dep in state && state[dep] == 2) {
        if !HasCycle(packages, closure) {
          PathExtends(ancestors, node, depth, dep);
        }
        ok := Visit(dep, depth + 1, ancestors + {node});
      }
    }

    lemma NodeIsNotItsAncestor(ancestors: set<Crate>, node: Crate, depth: nat)
      requires OnPath(ancestors, node, depth) && node in closure && !HasCycle(packages, closure)
      ensures node !in ancestors && depth < |closure|
    {
      SubsetSize(ancestors + {node}, closure);
    }

    lemma PathExtends(ancestors: set<Crate>, node: Crate, depth: nat, dep: Crate)
      requires ClosedUnderDeps(packages, closure) && node in closure && node !in ancestors
      requires OnPath(ancestors, node, depth) && dep in WorkspaceDeps(packages, node)
      ensures OnPath(ancestors + {node}, dep, depth + 1)
    {
      DirectDependency(packages, node, dep);
    }
  }

  /** The safety net: with `index[name]` the last position of a name. */
  method OrderIsValid(packages: Metadata, order: seq<Crate>) returns (valid: bool)
    requires Elements(order) <= packages.Keys && Distinct(order)
    ensures valid <==> forall i, j :: 0 <= i <= j < |order| ==> order[j] !in WorkspaceDeps(packages, order[i])
  {
    var index: map<Crate, nat> := map[];
    for i := 0 to |order|
      invariant forall c :: c in index <==> c in order[..i]
      invariant forall k :: 0 <= k < i ==> order[k] in index && index[order[k]] == k
    {
      index := index[order[i] := i];
    }
    for i := 0 to |order|
      invariant forall k, j :: 0 <= k < i && k <= j < |order| ==> order[j] !in WorkspaceDeps(packages, order[k])
    {
      var name := order[i];
      assert name in Elements(order);
      var deps := Enumerate(WorkspaceDeps(packages, name));
      for d := 0 to |deps|
        invariant forall e :: 0 <= e < d ==> !(deps[e] in index && index[deps[e]] >= i)
      {
        if deps[d] in index && index[deps[d]] >= index[name] {
          assert deps[d] in Elements(deps);
          assert order[index[deps[d]]] == deps[d];
          return false;
        }
      }
      forall j | i <= j < |order| ensures order[j] !in WorkspaceDeps(packages, name) {
        assert index[order[j]] == j >= i;
        assert order[j] !in Elements(deps);
      }
    }
    return true;
  }

  method ComputePublishOrder(packages: Metadata, root: Crate, recursionLimit: nat)
    returns (r: Result<seq<Crate>, PublishError>)
    ensures r == Err(RootNotInWorkspace) <==> root !in packages
    ensures r.Ok? ==>
              && Distinct(r.value)
              && IsClosureOf(packages, root, Elements(r.value))
              && DependenciesFirst(packages, r.value)
    ensures r != Err(OrderInvalid)
    ensures root in packages ==> forall closure :: IsClosureOf(packages, root, closure) ==>
              && (r.Ok? ==> !HasCycle(packages, closure))
              && (!HasCycle(packages, closure) && |closure| <= recursionLimit ==> r.Ok?)
  {
    if root !in packages {
      return Err(RootNotInWorkspace);
    }
    var closure := Closure(packages, root);
    assert forall other :: IsClosureOf(packages, root, other) ==> other == closure;
    var sorter := new Sorter(packages, closure, recursionLimit);
    var nodes := Enumerate(closure);
    for i := 0 to |nodes|
      invariant sorter.Valid()
      invariant forall k :: 0 <= k < i ==> nodes[k] in sorter.order
    {
      assert nodes[i] in Elements(nodes);
      var ok := sorter.Visit(nodes[i], 0, {});
      if !ok {
        return Err(RecursionLimit);
      }
    }
    var order := sorter.order;
    assert Elements(order) == closure;
    NoCycleLeft(packages, order);
    var valid := OrderIsValid(packages, order);
    if !valid {
      OrderPassesCheck(packages, order);
      return Err(OrderInvalid);
    }
    return Ok(order);
  }

  lemma NoCycleLeft(packages: Metadata, order: seq<Crate>)
    requires DependenciesFirst(packages, order)
    ensures !HasCycle(packages, Elements(order))
  {
    forall c | c in Elements(order) ensures !DependsOn(packages, c, c) {
      OrderedCrateIsOnNoCycle(packages, order, c);
    }
  }

  lemma OrderPassesCheck(packages: Metadata, order: seq<Crate>)
    requires DependenciesFirst(packages, order) && Distinct(order)
    ensures forall i, j :: 0 <= i <= j < |order| ==> order[j] !in WorkspaceDeps(packages, order[i])
  {
    forall i, j | 0 <= i <= j < |order|
      ensures order[j] !in WorkspaceDeps(packages, order[i])
    {
      assert WorkspaceDeps(packages, order[i]) <= Elements(order[..i]);
    }
  }

  /** What passing the check alone means, for any order that holds all its dependencies. */
  lemma CheckMeansDependenciesFirst(packages: Metadata, order: seq<Crate>)
    requires ClosedUnderDeps(packages, Elements(order)) && Distinct(order)
    ensures DependenciesFirst(packages, order) <==>
            forall i, j :: 0 <= i <= j < |order| ==> order[j] !in WorkspaceDeps(packages, order[i])
  {
    if forall i, j :: 0 <= i <= j < |order| ==> order[j] !in WorkspaceDeps(packages, order[i]) {
      forall i | 0 <= i < |order|
        ensures WorkspaceDeps(packages, order[i]) <= Elements(order[..i])
      {
        assert order[i] in Elements(order);
        forall dep | dep in WorkspaceDeps(packages, order[i]) ensures dep in order[..i] {
          assert dep in Elements(order);
          var j :| 0 <= j < |order| && order[j] == dep;
          assert order[..i][j] == dep;
        }
      }
    } else if DependenciesFirst(packages, order) {
      OrderPassesCheck(packages, order);
    }
  }

  /** Two crates that name each other, as dev-dependencies may, are a cycle: no order
      comes out, whatever the recursion limit. */
  lemma MutualDependencyIsCyclic(a: Crate, b: Crate)
    requires a != b
    ensures var packages := map[a := [b], b := [a]];
            IsClosureOf(packages, a, {a, b}) && HasCycle(packages, {a, b})
  {
    var packages := map[a := [b], b := [a]];
    assert WorkspaceDeps(packages, a) == {b} && WorkspaceDeps(packages, b) == {a};
    DirectDependency(packages, b, a);
    DirectDependency(packages, a, b);
    assert DependsOn(packages, a, a);
    forall other | a in other && ClosedUnderDeps(packages, other) ensures {a, b} <= other {
      assert WorkspaceDeps(packages, a) <= other;
    }
  }
}
