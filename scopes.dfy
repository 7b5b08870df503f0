/** The part of nodnod's `Scope` that the adapter relies on, kept abstract:
    a map from type keys to values local to the scope, an optional parent
    consulted on a local miss, and the cleanups still pending (one per
    generator-style node the scope resolved), run last-in-first-out when the
    scope is exited. */
module Scopes {
  import opened Py

  /** A pending cleanup, named after the node whose generator it finishes. */
  datatype Cleanup = Cleanup(node: TypeKey)

  function Reverse<T>(s: seq<T>): (r: seq<T>)
    ensures |r| == |s|
  {
    if s == [] then [] else [s[|s| - 1]] + Reverse(s[..|s| - 1])
  }

  lemma {:induction false} ReverseAt<T>(s: seq<T>, k: nat)
    requires k < |s|
    ensures Reverse(s)[k] == s[|s| - 1 - k]
    decreases |s|
  {
    if k > 0 {
      ReverseAt(s[..|s| - 1], k - 1);
    }
  }

  class Scope<V> {
    var values: map<TypeKey, V>
    var parent: Scope?<V>
    var cleanups: seq<Cleanup>
    var closed: bool
    ghost var Chain: set<Scope<V>>  // this scope and its ancestors
    ghost var depth: nat            // the length of the parent chain

    ghost predicate Valid()
      reads this, Chain
      decreases depth
    {
      && this in Chain
      && (parent == null ==> Chain == {this} && depth == 0)
      && (parent != null ==>
            && parent in Chain && parent.depth < depth
            && Chain == {this} + parent.Chain && this !in parent.Chain
            && parent.Valid())
    }

    /** What a lookup from this scope sees: the ancestors' values, each
        overridden by those of scopes closer to this one. */
    function View(): (m: map<TypeKey, V>)
      reads Chain
      requires Valid()
      ensures values.Keys <= m.Keys
      decreases depth
    {
      if parent == null then values else parent.View() + values
    }

    /** `Scope(detail=...)`: a standalone scope. */
    constructor Standalone()
      ensures Valid() && fresh(Chain - {this})
      ensures parent == null && values == map[] && cleanups == [] && !closed
      ensures View() == map[]
    {
      values, parent, cleanups, closed := map[], null, [], false;
      Chain, depth := {this}, 0;
    }

    /** `parent.create_child(detail=...)`: a scope whose lookups fall back
        to `p`; creating it leaves `p` as it was. */
    constructor ChildOf(p: Scope<V>)
      requires p.Valid()
      ensures Valid() && Chain == {this} + p.Chain
      ensures parent == p && values == map[] && cleanups == [] && !closed
      ensures View() == p.View()
    {
      values, parent, cleanups, closed := map[], p, [], false;
      Chain, depth := {this} + p.Chain, p.depth + 1;
    }

    /** `scope.retrieve(key)`: this scope first, then up the parent chain. */
    function Retrieve(key: TypeKey): (r: Option<V>)
      reads Chain
      requires Valid()
      ensures r.Some? <==> key in View()
      ensures r.Some? ==> r.value == View()[key]
      ensures key in values ==> r == Some(values[key])
      decreases depth
    {
      if key in values then Some(values[key])
      else if parent != null then parent.Retrieve(key)
      else None
    }

    /** `scope.push(Value(key, value))`: overwrite `key` in this scope only. */
    method Push(key: TypeKey, value: V)
      requires Valid() && !closed
      modifies this`values
      ensures Valid()
      ensures values == old(values)[key := value]
      ensures View() == old(View())[key := value]
    {
      values := values[key := value];
    }

    /** What a run of the agent leaves in the scope: every value it resolved
        stored locally, and the cleanups of the generators it entered
        appended in the order they were acquired. */
    method Absorb(resolved: map<TypeKey, V>, acquired: seq<Cleanup>)
      requires Valid() && !closed
      modifies this`values, this`cleanups
      ensures Valid()
      ensures values == old(values) + resolved
      ensures cleanups == old(cleanups) + acquired
      ensures View() == old(View()) + resolved
    {
      values := values + resolved;
      cleanups := cleanups + acquired;
    }

    /** Leaving `async with scope`: every pending cleanup runs exactly once,
        the most recently acquired first, and the scope accepts nothing
        afterwards. */
    method Exit() returns (ran: seq<Cleanup>)
      requires Valid()
      modifies this`cleanups, this`closed
      ensures Valid() && closed && cleanups == []
      ensures ran == Reverse(old(cleanups))
    {
      ran := [];
      while cleanups != []
        invariant ran + Reverse(cleanups) == Reverse(old(cleanups))
        decreases |cleanups|
      {
        ran := ran + [cleanups[|cleanups| - 1]];
        cleanups := cleanups[..|cleanups| - 1];
      }
      closed := true;
    }
  }
}
