/** Correct nodes on one network, with faulty validators that send whatever they like: what holds in every run. */
module Cluster {
  import opened Quorum
  import opened Payloads
  import opened NodeState
  import opened Refinement
  import Spec = NodeSpec
  import P = Protocol

  // The states of the correct nodes.
  type Nodes = seq<State>

  predicate IsNode(cfgs: seq<Config>, a: int) {
    0 <= a < |cfgs|
  }

  ghost predicate CorrectIndex(cfgs: seq<Config>, height: nat, i: int) {
    exists a :: IsNode(cfgs, a) && IndexAt(cfgs[a], height) == i
  }

  // The validators of a height that no correct node controls.
  ghost function Faulty(cfgs: seq<Config>, validators: nat -> pos, height: nat): set<int> {
    set i | 0 <= i < validators(height) && !CorrectIndex(cfgs, height, i)
  }

  /** The assumptions: all nodes know the same validators, no two share a key, and at every height at most F
      validators are faulty. */
  ghost predicate Network(cfgs: seq<Config>, validators: nat -> pos) {
    && (forall a, h: nat :: IsNode(cfgs, a) ==> cfgs[a].validators(h) == validators(h))
    && (forall a, b, h: nat :: IsNode(cfgs, a) && IsNode(cfgs, b) && IndexAt(cfgs[a], h) == IndexAt(cfgs[b], h) >= 0
          ==> a == b)
    && (forall h: nat :: |Faulty(cfgs, validators, h)| <= F(validators(h)))
  }

  // Nobody but its owner makes a payload of a correct validator.
  ghost predicate Authentic(cfgs: seq<Config>, nodes: Nodes, p: Payload)
    requires |nodes| == |cfgs|
  {
    forall a :: IsNode(cfgs, a) && IndexAt(cfgs[a], p.height) == p.from ==> p in nodes[a].core.sent
  }

  ghost predicate Init(cfgs: seq<Config>, nodes: Nodes) {
    && |nodes| == |cfgs|
    && forall a {:trigger nodes[a]} ::
      IsNode(cfgs, a) ==> exists h, ts :: nodes[a] == Spec.Start(cfgs[a], Blank(), h, ts)
  }

  // Node a handles one event; the payloads in it are authentic, all else about them is up to the network.
  ghost predicate Moves(cfgs: seq<Config>, nodes: Nodes, nodes': Nodes, a: int, e: Event) {
    && |nodes| == |cfgs| && IsNode(cfgs, a)
    && Proper(nodes[a], e)
    && (forall p :: p in Input(e) ==> Authentic(cfgs, nodes, p))
    && nodes' == nodes[a := Handle(cfgs[a], nodes[a], e)]
  }

  ghost predicate Next(cfgs: seq<Config>, nodes: Nodes, nodes': Nodes) {
    exists a, e :: Moves(cfgs, nodes, nodes', a, e)
  }

  ghost predicate IsRun(cfgs: seq<Config>, run: seq<Nodes>) {
    && run != [] && Init(cfgs, run[0])
    && forall i :: 0 <= i < |run| - 1 ==> Next(cfgs, run[i], run[i + 1])
  }

  ghost predicate Reachable(cfgs: seq<Config>, nodes: Nodes) {
    exists run :: IsRun(cfgs, run) && run[|run| - 1] == nodes
  }

  lemma ReachableNext(cfgs: seq<Config>, nodes: Nodes, nodes': Nodes)
    requires Reachable(cfgs, nodes) && Next(cfgs, nodes, nodes')
    ensures Reachable(cfgs, nodes')
  {
    hide Init, Next;
    var run :| IsRun(cfgs, run) && run[|run| - 1] == nodes;
    var run' := run + [nodes'];
    forall i | 0 <= i < |run'| - 1
      ensures Next(cfgs, run'[i], run'[i + 1])
    {
      assert i < |run| - 1 ==> Next(cfgs, run[i], run[i + 1]);
    }
    assert IsRun(cfgs, run') && run'[|run'| - 1] == nodes';
  }

  lemma InitReaches(cfgs: seq<Config>, nodes: Nodes)
    requires Init(cfgs, nodes)
    ensures Reachable(cfgs, nodes)
  {
    hide Init, Next;
    assert IsRun(cfgs, [nodes]) && [nodes][|[nodes]| - 1] == nodes;
  }

  // One event at one node.
  lemma MoveReaches(cfgs: seq<Config>, nodes: Nodes, a: nat, e: Event) returns (nodes': Nodes)
    requires Reachable(cfgs, nodes) && |nodes| == |cfgs| && IsNode(cfgs, a) && Proper(nodes[a], e)
    requires forall p :: p in Input(e) ==> Authentic(cfgs, nodes, p)
    ensures Reachable(cfgs, nodes') && nodes' == nodes[a := Handle(cfgs[a], nodes[a], e)]
  {
    hide Reachable, Handle, Input, Proper;
    nodes' := nodes[a := Handle(cfgs[a], nodes[a], e)];
    assert Moves(cfgs, nodes, nodes', a, e);
    ReachableNext(cfgs, nodes, nodes');
  }

  // ---- the invariant of the cluster ----

  ghost predicate NodeOK(cfgs: seq<Config>, nodes: Nodes, a: int)
    requires |nodes| == |cfgs| && IsNode(cfgs, a)
  {
    && P.Inv(cfgs[a], nodes[a].core) && Coherent(nodes[a]) && HearsItself(nodes[a])
    && forall p :: p in nodes[a].core.delivered ==> Authentic(cfgs, nodes, p)
  }

  ghost predicate ClusterInv(cfgs: seq<Config>, nodes: Nodes) {
    |nodes| == |cfgs| && forall a :: IsNode(cfgs, a) ==> NodeOK(cfgs, nodes, a)
  }

  lemma InitOK(cfgs: seq<Config>, nodes: Nodes)
    requires Init(cfgs, nodes)
    ensures ClusterInv(cfgs, nodes)
  {
    hide P.Inv, Coherent, Spec.Start;
    forall a | IsNode(cfgs, a)
      ensures NodeOK(cfgs, nodes, a)
    {
      var h, ts :| nodes[a] == Spec.Start(cfgs[a], Blank(), h, ts);
      StartIsReady(cfgs[a], h, ts);
    }
  }

  lemma MoveKeeps(cfgs: seq<Config>, nodes: Nodes, nodes': Nodes, a: int, e: Event)
    requires ClusterInv(cfgs, nodes) && Moves(cfgs, nodes, nodes', a, e)
    ensures ClusterInv(cfgs, nodes')
    ensures forall b :: IsNode(cfgs, b) ==> P.Evolves(nodes[b].core, nodes'[b].core)
  {
    hide P.Inv, Coherent, Handle, Input, Proper, P.Reaches, P.LockKept, P.Settled, P.EvidenceKept;
    assert NodeOK(cfgs, nodes, a);
    HandleRefines(cfgs[a], nodes[a], e);
    P.EvolvesReflexive(nodes[a].core);
    forall p | Authentic(cfgs, nodes, p)
      ensures Authentic(cfgs, nodes', p)
    {
    }
    forall b | IsNode(cfgs, b)
      ensures NodeOK(cfgs, nodes', b) && P.Evolves(nodes[b].core, nodes'[b].core)
    {
      assert NodeOK(cfgs, nodes, b);
      P.EvolvesReflexive(nodes[b].core);
    }
  }

  lemma {:induction false} RunOK(cfgs: seq<Config>, run: seq<Nodes>)
    requires IsRun(cfgs, run)
    ensures ClusterInv(cfgs, run[|run| - 1])
    decreases |run|
  {
    hide ClusterInv, Init, Moves;
    if |run| == 1 {
      InitOK(cfgs, run[0]);
    } else {
      var prefix := run[..|run| - 1];
      forall i | 0 <= i < |prefix| - 1
        ensures Next(cfgs, prefix[i], prefix[i + 1])
      {
        assert Next(cfgs, run[i], run[i + 1]);
      }
      RunOK(cfgs, prefix);
      var nodes, nodes' := run[|run| - 2], run[|run| - 1];
      assert Next(cfgs, nodes, nodes');
      var a, e :| Moves(cfgs, nodes, nodes', a, e);
      MoveKeeps(cfgs, nodes, nodes', a, e);
    }
  }

  /** In no reachable state does a node count itself among the failed ones. */
  lemma NobodyMissesItself(cfgs: seq<Config>, nodes: Nodes, a: int)
    requires Reachable(cfgs, nodes) && IsNode(cfgs, a)
    ensures |nodes| == |cfgs| && nodes[a].core.me !in Failed(nodes[a])
  {
    hide P.Inv, Coherent, Init, Next;
    var run :| IsRun(cfgs, run) && run[|run| - 1] == nodes;
    RunOK(cfgs, run);
    assert NodeOK(cfgs, nodes, a);
  }

  // ---- agreement ----

  // A payload of a correct validator is on the network only if that validator sent it.
  lemma KnownIsSent(cfgs: seq<Config>, validators: nat -> pos, nodes: Nodes, a: int, m: int, p: Payload)
    requires ClusterInv(cfgs, nodes) && Network(cfgs, validators) && IsNode(cfgs, a) && IsNode(cfgs, m)
    requires P.Known(nodes[a].core, p) && IndexAt(cfgs[m], p.height) == p.from
    ensures p in nodes[m].core.sent
  {
    hide P.Epoch, Coherent, GetPrimaryIndex, P.SignaturesOK, P.AnswersOK, P.CountedOK, P.BuiltOK, P.OwnBlockOK;
    hide P.CurrentBlockOK, P.ProcessedOnce, P.VoteOnce, P.CommitOnce, Faulty;
    assert NodeOK(cfgs, nodes, a);
    assert p in nodes[a].core.sent ==> IndexAt(cfgs[a], p.height) == p.from;
  }

  // A correct node prepares at most one request per view, and one of the primary of that view.
  lemma Prepared(cfgs: seq<Config>, validators: nat -> pos, nodes: Nodes, m: int, v: Payload)
    requires ClusterInv(cfgs, nodes) && Network(cfgs, validators) && IsNode(cfgs, m)
    requires v in nodes[m].core.sent && v.IsPreparation()
    ensures P.Known(nodes[m].core, v.Supports()) && P.FromPrimary(cfgs[m], v.Supports())
    ensures v.Supports().height == v.height && v.Supports().view == v.view
    ensures forall w :: w in nodes[m].core.sent && w.IsPreparation() && w.height == v.height && w.view == v.view ==>
      w == v
  {
    hide P.Epoch, Coherent, GetPrimaryIndex, P.SignaturesOK, P.CountedOK, P.BuiltOK, P.OwnBlockOK, Authentic;
    hide P.CurrentBlockOK, P.ProcessedOnce, P.CommitOnce, P.SentOK, P.OwnGenuine, P.FromPrimary, Faulty;
    assert NodeOK(cfgs, nodes, m);
  }

  // A correct validator counted behind a signature prepared exactly the signed request.
  lemma BackerSupports(cfgs: seq<Config>, validators: nat -> pos, nodes: Nodes, a: int, m: int,
                       req: Payload, i: int) returns (v: Payload)
    requires ClusterInv(cfgs, nodes) && Network(cfgs, validators) && IsNode(cfgs, a) && IsNode(cfgs, m)
    requires P.Known(nodes[a].core, req) && P.FromPrimary(cfgs[a], req)
    requires P.HasBacking(cfgs[a], nodes[a].core, req, i) && IndexAt(cfgs[m], req.height) == i
    ensures v in nodes[m].core.sent && v.IsPreparation() && v.height == req.height && v.view == req.view
    ensures v.Supports() == req
  {
    hide NodeOK, GetPrimaryIndex, P.Known, Faulty;
    v :| P.Backs(cfgs[a], nodes[a].core, req, i, v);
    KnownIsSent(cfgs, validators, nodes, a, m, v);
    Prepared(cfgs, validators, nodes, m, v);
    var req' := v.Supports();
    if req' != req {
      // a is the primary of the view: the request that v supports is its own, and it sent only one
      assert cfgs[m].validators(req.height) == validators(req.height) == cfgs[a].validators(req.height);
      KnownIsSent(cfgs, validators, nodes, a, a, req);
      KnownIsSent(cfgs, validators, nodes, m, a, req');
      Prepared(cfgs, validators, nodes, a, req);
    }
  }

  // What a correct node signs is a proposal that M validators prepared.
  lemma SignedIsCertified(cfgs: seq<Config>, nodes: Nodes, a: int, p: Payload) returns (req: Payload, voters: set<int>)
    requires ClusterInv(cfgs, nodes) && IsNode(cfgs, a)
    requires p in nodes[a].core.sent && p.IsSignature()
    ensures P.Certifies(cfgs[a], nodes[a].core, p, req, voters)
  {
    hide P.Epoch, Coherent, GetPrimaryIndex, P.CountedOK, P.BuiltOK, P.OwnBlockOK, Authentic, P.Certifies;
    hide P.CurrentBlockOK, P.ProcessedOnce, P.CommitOnce, P.SentOK, P.OwnGenuine, P.AnswersOK, P.VoteOnce;
    assert NodeOK(cfgs, nodes, a);
    req, voters :| P.Certifies(cfgs[a], nodes[a].core, p, req, voters);
  }

  /** No two correct nodes sign different proposals in one view. */
  lemma OneProposalPerView(cfgs: seq<Config>, validators: nat -> pos, nodes: Nodes, a: int, b: int,
                           p: Payload, q: Payload)
    requires ClusterInv(cfgs, nodes) && Network(cfgs, validators) && IsNode(cfgs, a) && IsNode(cfgs, b)
    requires p in nodes[a].core.sent && p.IsSignature()
    requires q in nodes[b].core.sent && q.IsSignature()
    requires p.height == q.height && p.view == q.view
    ensures p.Signed().header == q.Signed().header
  {
    hide NodeOK, GetPrimaryIndex, P.Known, P.FromPrimary, P.HasBacking;
    var h := p.height;
    var reqA, votersA := SignedIsCertified(cfgs, nodes, a, p);
    var reqB, votersB := SignedIsCertified(cfgs, nodes, b, q);
    assert cfgs[a].validators(h) == validators(h) == cfgs[b].validators(h);
    var i := QuorumIntersection(validators(h), votersA, votersB, Faulty(cfgs, validators, h));
    var m :| IsNode(cfgs, m) && IndexAt(cfgs[m], h) == i;
    var va := BackerSupports(cfgs, validators, nodes, a, m, reqA, i);
    var vb := BackerSupports(cfgs, validators, nodes, b, m, reqB, i);
    Prepared(cfgs, validators, nodes, m, va);
  }

  // A processed block or pre-block counted M Commits or PreCommits of its view.
  lemma BlockIsCounted(cfgs: seq<Config>, validators: nat -> pos, nodes: Nodes, a: int, x: Acceptance)
    requires ClusterInv(cfgs, nodes) && Network(cfgs, validators) && IsNode(cfgs, a) && x in P.Blocks(nodes[a].core)
    ensures P.Counted(cfgs[a], nodes[a].core, x) && cfgs[a].validators(x.height) == validators(x.height)
    ensures x.kind == if x in nodes[a].core.processed then CommitType else PreCommitType
  {
    hide P.Epoch, Coherent, GetPrimaryIndex, P.BuiltOK, P.OwnBlockOK, Authentic, P.Counted, P.SignaturesOK;
    hide P.CurrentBlockOK, P.ProcessedOnce, P.CommitOnce, P.SentOK, P.OwnGenuine, P.AnswersOK, P.VoteOnce, Faulty;
    assert NodeOK(cfgs, nodes, a);
  }

  // A Commit or PreCommit that was counted and belongs to a correct validator was sent by it.
  lemma CountedIsSent(cfgs: seq<Config>, validators: nat -> pos, nodes: Nodes, a: int, x: Acceptance, i: int)
    returns (m: int)
    requires ClusterInv(cfgs, nodes) && Network(cfgs, validators) && IsNode(cfgs, a) && x in P.Blocks(nodes[a].core)
    requires i in Voters(x.counted, validators(x.height), InView(x.view)) - Faulty(cfgs, validators, x.height)
    ensures IsNode(cfgs, m) && x.counted[i] in nodes[m].core.sent
    ensures x.counted[i].IsSignature() && x.counted[i].Type() == x.kind
    ensures x.counted[i].height == x.height && x.counted[i].view == x.view
    ensures x.counted[i].from == i && IndexAt(cfgs[m], x.height) == i
  {
    hide NodeOK, P.Known;
    BlockIsCounted(cfgs, validators, nodes, a, x);
    m :| IsNode(cfgs, m) && IndexAt(cfgs[m], x.height) == i;
    KnownIsSent(cfgs, validators, nodes, a, m, x.counted[i]);
  }

  // The signatures of one validator for a height are all of one view.
  lemma SignsInOneView(cfgs: seq<Config>, validators: nat -> pos, nodes: Nodes, a: int, b: int, p: Payload, q: Payload)
    requires ClusterInv(cfgs, nodes) && Network(cfgs, validators) && IsNode(cfgs, a) && IsNode(cfgs, b)
    requires p in nodes[a].core.sent && q in nodes[b].core.sent && p.IsSignature() && q.IsSignature()
    requires p.height == q.height && IndexAt(cfgs[a], p.height) == IndexAt(cfgs[b], p.height) >= 0
    ensures p.view == q.view
  {
    hide P.Epoch, Coherent, GetPrimaryIndex, P.BuiltOK, P.OwnBlockOK, Authentic, P.CountedOK, P.SignaturesOK;
    hide P.CurrentBlockOK, P.ProcessedOnce, P.SentOK, P.OwnGenuine, P.AnswersOK, P.VoteOnce, P.CommitOnce, Faulty;
    assert NodeOK(cfgs, nodes, a);
  }

  /** All blocks and pre-blocks that correct nodes process at one height come from one view, whoever sent which Commit
      or PreCommit. */
  lemma OneViewPerHeight(cfgs: seq<Config>, validators: nat -> pos, nodes: Nodes, a: int, b: int,
                         x: Acceptance, y: Acceptance)
    requires ClusterInv(cfgs, nodes) && Network(cfgs, validators) && IsNode(cfgs, a) && IsNode(cfgs, b)
    requires x in P.Blocks(nodes[a].core) && y in P.Blocks(nodes[b].core) && x.height == y.height
    ensures x.view == y.view
  {
    hide NodeOK, P.Known, P.Blocks;
    BlockIsCounted(cfgs, validators, nodes, a, x);
    BlockIsCounted(cfgs, validators, nodes, b, y);
    var n, faulty := validators(x.height), Faulty(cfgs, validators, x.height);
    var i := QuorumIntersection(n, Voters(x.counted, n, InView(x.view)), Voters(y.counted, n, InView(y.view)), faulty);
    var m := CountedIsSent(cfgs, validators, nodes, a, x, i);
    var m' := CountedIsSent(cfgs, validators, nodes, b, y, i);
    SignsInOneView(cfgs, validators, nodes, m, m', x.counted[i], y.counted[i]);
  }
}
