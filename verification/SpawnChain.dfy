// Nested spawning: the chain of ancestors carried by each execution, the cycle check against it,
// and why recursion through agents that spawn agents always ends.
module SpawnChain {
  import opened Prelude

  // What became of one request to spawn an agent.
  datatype Outcome = Cycle(chain: seq<string>)
                   | Unknown
                   | Pooled
                   | Ran(name: string, spawned: seq<Outcome>)

  // Agents that exist, agents with a persistent lifecycle, and what each execution asks for: the
  // execution at an address (which request of which execution it answers) spawns these in turn.
  datatype World = World(known: set<string>, persistent: set<string>, plan: seq<nat> -> seq<string>)

  predicate IsChatAgent(name: string) {
    name != "coder" && name != "researcher" && name != "reviewer"
  }

  ghost function Elems(chain: seq<string>): set<string> { set x | x in chain }

  // ---- specification ----

  lemma LongerChainLeavesFewer(known: set<string>, chain: seq<string>, name: string)
    requires name in known && name !in chain
    ensures |known - Elems(chain + [name])| < |known - Elems(chain)|
  {
    assert known - Elems(chain) == known - Elems(chain + [name]) + {name};
  }

  ghost function Spawn(w: World, at: seq<nat>, chain: seq<string>, name: string): Outcome
    decreases |w.known - Elems(chain)|, 0
  {
    if name in chain then Cycle(chain + [name])
    else if name !in w.persistent && !IsChatAgent(name) then Pooled
    else if name !in w.known then Unknown
    else
      LongerChainLeavesFewer(w.known, chain, name);
      Ran(name, SpawnEach(w, at, chain + [name], w.plan(at)))
  }

  ghost function SpawnEach(w: World, at: seq<nat>, chain: seq<string>, names: seq<string>): (os: seq<Outcome>)
    ensures |os| == |names|
    decreases |w.known - Elems(chain)|, 1 + |names|
  {
    if names == [] then []
    else SpawnEach(w, at, chain, names[..|names| - 1]) + [Spawn(w, at + [|names| - 1], chain, names[|names| - 1])]
  }

  lemma {:induction false} EachAt(w: World, at: seq<nat>, chain: seq<string>, names: seq<string>, i: nat)
    requires i < |names|
    ensures SpawnEach(w, at, chain, names)[i] == Spawn(w, at + [i], chain, names[i])
    decreases |names|
  {
    if i < |names| - 1 { EachAt(w, at, chain, names[..|names| - 1], i); }
  }

  // ---- nesting is bounded ----

  function Depth(o: Outcome): nat {
    match o
    case Ran(_, spawned) => 1 + Deepest(spawned)
    case _ => 0
  }

  function Deepest(os: seq<Outcome>): nat {
    if os == [] then 0
    else
      var d, rest := Depth(os[0]), Deepest(os[1..]);
      if d < rest then rest else d
  }

  lemma {:induction false} DeepestAtMost(os: seq<Outcome>, bound: nat)
    requires forall i :: 0 <= i < |os| ==> Depth(os[i]) <= bound
    ensures Deepest(os) <= bound
  {
    if os != [] { DeepestAtMost(os[1..], bound); }
  }

  // Executions nest no deeper than the number of known agents not yet in the chain.
  lemma {:induction false} DepthBounded(w: World, at: seq<nat>, chain: seq<string>, name: string)
    ensures Depth(Spawn(w, at, chain, name)) <= |w.known - Elems(chain)|
    decreases |w.known - Elems(chain)|
  {
    var o := Spawn(w, at, chain, name);
    if o.Ran? {
      LongerChainLeavesFewer(w.known, chain, name);
      var names, bound := w.plan(at), |w.known - Elems(chain + [name])|;
      forall i | 0 <= i < |names| ensures Depth(o.spawned[i]) <= bound {
        EachAt(w, at, chain + [name], names, i);
        DepthBounded(w, at + [i], chain + [name], names[i]);
      }
      DeepestAtMost(o.spawned, bound);
    }
  }

  // ---- no agent runs inside itself ----

  // The names of the executions met on the way down a path, outermost first.
  function Lineage(o: Outcome, path: seq<nat>): seq<string>
    decreases |path|
  {
    if !o.Ran? then []
    else [o.name] + if path == [] || path[0] >= |o.spawned| then [] else Lineage(o.spawned[path[0]], path[1..])
  }

  function OutcomeAt(o: Outcome, path: seq<nat>): Option<Outcome>
    decreases |path|
  {
    if path == [] then Some(o)
    else if o.Ran? && path[0] < |o.spawned| then OutcomeAt(o.spawned[path[0]], path[1..])
    else None
  }

  // On no path does an agent's name occur twice.
  lemma {:induction false} NoAgentInsideItself(w: World, at: seq<nat>, chain: seq<string>, name: string, path: seq<nat>)
    requires Distinct(chain)
    ensures Distinct(chain + Lineage(Spawn(w, at, chain, name), path))
    decreases |path|
  {
    var o := Spawn(w, at, chain, name);
    if !o.Ran? {
      assert chain + [] == chain;
    } else {
      DistinctSnoc(chain, name);
      if path != [] && path[0] < |o.spawned| {
        var i := path[0];
        EachAt(w, at, chain + [name], w.plan(at), i);
        NoAgentInsideItself(w, at + [i], chain + [name], w.plan(at)[i], path[1..]);
        assert chain + Lineage(o, path) == chain + [name] + Lineage(o.spawned[i], path[1..]);
      } else {
        assert chain + Lineage(o, path) == chain + [name];
      }
    }
  }

  // The refusal reports the executions it happened under, followed by one of them asked for again.
  predicate NamesCycle(under: seq<string>, at: Option<Outcome>) {
    at.Some? && at.value.Cycle? ==>
      var reported := at.value.chain;
      && reported != [] && reported[..|reported| - 1] == under
      && reported[|reported| - 1] in under
  }

  // Every refusal, however deep, names the executions it happened under followed by one of them
  // asked for again; and nothing else is refused as a cycle, since a run never repeats a name.
  lemma {:induction false} RefusalNamesTheCycle(w: World, at: seq<nat>, chain: seq<string>, name: string,
                                                path: seq<nat>)
    ensures var o := Spawn(w, at, chain, name);
            NamesCycle(chain + Lineage(o, path), OutcomeAt(o, path))
    decreases |path|
  {
    var o := Spawn(w, at, chain, name);
    if path == [] {
      assert chain + [] == chain;
    } else if o.Ran? && path[0] < |o.spawned| {
      var i := path[0];
      EachAt(w, at, chain + [name], w.plan(at), i);
      RefusalNamesTheCycle(w, at + [i], chain + [name], w.plan(at)[i], path[1..]);
      assert chain + Lineage(o, path) == chain + [name] + Lineage(o.spawned[i], path[1..]);
    }
  }

  predicate AsAsked(w: World, asked: string, o: Outcome) {
    match o
    case Ran(ran, _) => ran == asked
    case Pooled => asked in {"coder", "researcher", "reviewer"} && asked !in w.persistent
    case Unknown => asked !in w.known
    case Cycle(reported) => reported != [] && reported[|reported| - 1] == asked
  }

  // Every request of every execution, however deep, comes to what its name says: only the three
  // code agents without a lifecycle of their own go to the pool, and only known others run.
  lemma {:induction false} FateOfRequests(w: World, at: seq<nat>, chain: seq<string>, name: string, path: seq<nat>)
    ensures match OutcomeAt(Spawn(w, at, chain, name), path)
            case Some(Ran(n, spawned)) =>
              && n in w.known && (n in {"coder", "researcher", "reviewer"} ==> n in w.persistent)
              && |spawned| == |w.plan(at + path)|
              && forall i :: 0 <= i < |spawned| ==> AsAsked(w, w.plan(at + path)[i], spawned[i])
            case _ => true
    decreases |path|
  {
    var o := Spawn(w, at, chain, name);
    if path == [] {
      assert at + [] == at;
      if o.Ran? {
        forall i | 0 <= i < |o.spawned|
          ensures o.spawned[i] == Spawn(w, at + [i], chain + [name], w.plan(at)[i])
        {
          EachAt(w, at, chain + [name], w.plan(at), i);
        }
      }
    } else if o.Ran? && path[0] < |o.spawned| {
      var i := path[0];
      EachAt(w, at, chain + [name], w.plan(at), i);
      FateOfRequests(w, at + [i], chain + [name], w.plan(at)[i], path[1..]);
      assert at + [i] + path[1..] == at + path;
    }
  }

  // ---- the code ----

  // The new chain lives in memory of its own: no context already handed out can see it change.
  method WithSpawnAncestor(prev: array<string>, name: string) returns (next: array<string>)
    ensures fresh(next) && next[..] == prev[..] + [name]
  {
    next := new string[prev.Length + 1];
    var i := 0;
    while i < prev.Length
      modifies next
      invariant 0 <= i <= prev.Length
      invariant next[..i] == prev[..i]
    {
      next[i] := prev[i];
      i := i + 1;
    }
    next[prev.Length] := name;
    assert next[..] == next[..prev.Length] + [name];
  }

  // It changes no array it was given, so every caller's chain is what it was, whatever the nested
  // executions did with theirs.
  method SpawnAgent(w: World, at: seq<nat>, ancestors: array<string>, name: string) returns (o: Outcome)
    ensures o == Spawn(w, at, ancestors[..], name)
    decreases |w.known - Elems(ancestors[..])|, 0
  {
    var i := 0;
    while i < ancestors.Length
      invariant 0 <= i <= ancestors.Length
      invariant name !in ancestors[..i]
    {
      if ancestors[i] == name {
        return Cycle(ancestors[..] + [name]);
      }
      i := i + 1;
    }
    assert ancestors[..i] == ancestors[..];
    var chain := WithSpawnAncestor(ancestors, name);
    if name !in w.persistent && !IsChatAgent(name) { return Pooled; }
    if name !in w.known { return Unknown; }
    LongerChainLeavesFewer(w.known, ancestors[..], name);
    var spawned := SpawnAll(w, at, chain, w.plan(at));
    return Ran(name, spawned);
  }

  // The spawns one execution makes, one after the other under the same chain.
  method SpawnAll(w: World, at: seq<nat>, chain: array<string>, names: seq<string>) returns (spawned: seq<Outcome>)
    ensures spawned == SpawnEach(w, at, chain[..], names)
    decreases |w.known - Elems(chain[..])|, 1
  {
    spawned := [];
    ghost var under := chain[..];
    while |spawned| < |names|
      invariant |spawned| <= |names|
      invariant spawned == SpawnEach(w, at, under, names[..|spawned|])
    {
      ghost var n := |spawned|;
      ghost var upTo := names[..n + 1];
      assert upTo[..n] == names[..n] && upTo[n] == names[n];
      var child := SpawnAgent(w, at + [|spawned|], chain, names[|spawned|]);
      spawned := spawned + [child];
    }
    assert names[..|spawned|] == names;
  }
}
