/** How many agents one agent can bring about by spawning (orchestrator.py, lines 367-383). */
module AgentForest {
  import opened Common
  import opened RepoPaths
  import opened ProjectTransitions
  import opened ProjectInvariants

  /** `a` was spawned by `root`, directly or through other agents, or is `root` itself. */
  predicate Descends(agents: map<Id, Agent>, root: Id, a: Id)
    decreases if a in agents then agents[a].contract.generation else 0
  {
    a in agents
    && (a == root
        || match agents[a].contract.parent
           case None => false
           case Some(p) => p in agents && agents[p].contract.generation < agents[a].contract.generation && Descends(agents, root, p))
  }

  function Tree(agents: map<Id, Agent>, root: Id): set<Id> {
    set a | a in agents && Descends(agents, root, a)
  }

  /** The members of the tree `k` generations below the root. */
  function Layer(agents: map<Id, Agent>, root: Id, k: nat): set<Id>
    requires root in agents
  {
    set a | a in Tree(agents, root) && agents[a].contract.generation == agents[root].contract.generation + k
  }

  /** The part of the tree at most `n` generations below the root. */
  function UpTo(agents: map<Id, Agent>, root: Id, n: nat): set<Id>
    requires root in agents
  {
    set a | a in Tree(agents, root) && agents[a].contract.generation <= agents[root].contract.generation + n
  }

  function Pow(c: nat, k: nat): nat {
    if k == 0 then 1 else c * Pow(c, k - 1)
  }

  /** c^0 + ... + c^n. */
  function PowSum(c: nat, n: nat): nat {
    if n == 0 then 1 else PowSum(c, n - 1) + Pow(c, n)
  }

  lemma {:induction false} PowSumGrows(c: nat, m: nat, n: nat)
    requires m <= n
    ensures PowSum(c, m) <= PowSum(c, n)
  {
    if m < n {
      PowSumGrows(c, m, n - 1);
    }
  }

  predicate Rooted(agents: map<Id, Agent>, a: Id, depth: nat) {
    a in agents ==> InForest(agents, agents[a].contract, depth)
  }

  ghost predicate Forest(agents: map<Id, Agent>, depth: nat, children: nat) {
    && (forall a :: Rooted(agents, a, depth))
    && forall a :: |ChildrenOf(agents, a)| <= children
  }

  function AllChildren(agents: map<Id, Agent>, parents: set<Id>): set<Id> {
    set a | a in agents && agents[a].contract.parent.Some? && agents[a].contract.parent.value in parents
  }

  lemma {:induction false} ChildrenBound(agents: map<Id, Agent>, parents: set<Id>, children: nat)
    requires forall a :: |ChildrenOf(agents, a)| <= children
    ensures |AllChildren(agents, parents)| <= children * |parents|
    decreases |parents|
  {
    if parents == {} {
      assert AllChildren(agents, parents) == {};
    } else {
      var p :| p in parents;
      ChildrenBound(agents, parents - {p}, children);
      assert AllChildren(agents, parents) == AllChildren(agents, parents - {p}) + ChildrenOf(agents, p);
      assert |parents| == |parents - {p}| + 1;
      assert children * |parents| == children * |parents - {p}| + children;
    }
  }

  /** Every member but the root is the child of a member one generation above. */
  lemma {:induction false} MemberIsBelow(agents: map<Id, Agent>, root: Id, a: Id, depth: nat, children: nat)
    requires Forest(agents, depth, children) && root in agents && Descends(agents, root, a)
    ensures agents[a].contract.generation >= agents[root].contract.generation
    ensures a != root ==> agents[a].contract.generation > agents[root].contract.generation
    decreases agents[a].contract.generation
  {
    if a != root {
      MemberIsBelow(agents, root, agents[a].contract.parent.value, depth, children);
    }
  }

  lemma LayerFromAbove(agents: map<Id, Agent>, root: Id, k: nat, depth: nat, children: nat)
    requires Forest(agents, depth, children) && root in agents && k > 0
    ensures Layer(agents, root, k) <= AllChildren(agents, Layer(agents, root, k - 1))
  {
    forall a | a in Layer(agents, root, k)
      ensures a in AllChildren(agents, Layer(agents, root, k - 1))
    {
      assert Rooted(agents, a, depth) && a != root;
    }
  }

  lemma FirstLayer(agents: map<Id, Agent>, root: Id, depth: nat, children: nat)
    requires Forest(agents, depth, children) && root in agents
    ensures |UpTo(agents, root, 0)| <= 1 && |Layer(agents, root, 0)| <= 1
  {
    forall a | a in UpTo(agents, root, 0)
      ensures a == root
    {
      MemberIsBelow(agents, root, a, depth, children);
    }
    SubsetSize(UpTo(agents, root, 0), {root});
    SubsetSize(Layer(agents, root, 0), UpTo(agents, root, 0));
  }

  lemma NextLayer(agents: map<Id, Agent>, root: Id, k: nat, depth: nat, children: nat)
    requires Forest(agents, depth, children) && root in agents && k > 0
    ensures |Layer(agents, root, k)| <= children * |Layer(agents, root, k - 1)|
  {
    LayerFromAbove(agents, root, k, depth, children);
    ChildrenBound(agents, Layer(agents, root, k - 1), children);
    SubsetSize(Layer(agents, root, k), AllChildren(agents, Layer(agents, root, k - 1)));
  }

  lemma {:induction false} LayerBound(agents: map<Id, Agent>, root: Id, k: nat, depth: nat, children: nat)
    requires Forest(agents, depth, children) && root in agents
    ensures |Layer(agents, root, k)| <= Pow(children, k)
  {
    if k == 0 {
      FirstLayer(agents, root, depth, children);
    } else {
      LayerBound(agents, root, k - 1, depth, children);
      NextLayer(agents, root, k, depth, children);
      MulMonotone(children, |Layer(agents, root, k - 1)|, Pow(children, k - 1));
    }
  }

  lemma MulMonotone(c: nat, a: nat, b: nat)
    requires a <= b
    ensures c * a <= c * b
  {
  }

  lemma UpToSplits(agents: map<Id, Agent>, root: Id, n: nat)
    requires root in agents && n > 0
    ensures UpTo(agents, root, n) == UpTo(agents, root, n - 1) + Layer(agents, root, n)
  {
  }

  lemma {:induction false} UpToBound(agents: map<Id, Agent>, root: Id, n: nat, depth: nat, children: nat)
    requires Forest(agents, depth, children) && root in agents
    ensures |UpTo(agents, root, n)| <= PowSum(children, n)
  {
    if n == 0 {
      FirstLayer(agents, root, depth, children);
    } else {
      UpToBound(agents, root, n - 1, depth, children);
      LayerBound(agents, root, n, depth, children);
      UpToSplits(agents, root, n);
      UnionSize(UpTo(agents, root, n - 1), Layer(agents, root, n));
    }
  }

  lemma UnionSize(a: set<Id>, b: set<Id>)
    ensures |a + b| <= |a| + |b|
  {
  }

  /**
   * With at most C children per agent and clone depth D, an agent of generation g and everything spawned from it
   * are at most C^0 + ... + C^(D-g) agents.
   */
  lemma TreeBound(agents: map<Id, Agent>, root: Id, depth: nat, children: nat)
    requires Forest(agents, depth, children) && root in agents
    ensures agents[root].contract.generation <= depth
    ensures |Tree(agents, root)| <= PowSum(children, depth - agents[root].contract.generation) <= PowSum(children, depth)
  {
    assert Rooted(agents, root, depth);
    var n := depth - agents[root].contract.generation;
    UpToBound(agents, root, n, depth, children);
    PowSumGrows(children, n, depth);
    forall a | a in Tree(agents, root)
      ensures a in UpTo(agents, root, n)
    {
      assert Rooted(agents, a, depth);
    }
    assert Tree(agents, root) == UpTo(agents, root, n);
  }

  /** The bound holds for every agent after every run. */
  lemma TreeBoundOnEveryRun(s: ProjectState, ops: seq<Op>, rule: ClassRule, root: Id)
    requires Initial(s) && ProperRun(s, ops, rule) && root in RunAll(s, ops, rule).agents
    ensures var e := RunAll(s, ops, rule);
            |Tree(e.agents, root)| <= PowSum(e.governance.maxChildren, e.governance.maxDepth)
  {
    InitialInv(s);
    RunKeepsInv(s, ops, rule);
    var e := RunAll(s, ops, rule);
    TreeBound(e.agents, root, e.governance.maxDepth, e.governance.maxChildren);
  }
}
