/** What the correct nodes of a network agree on, in every run and with any F faulty validators. */
module Agreement {
  import opened Quorum
  import opened Payloads
  import opened NodeState
  import opened Cluster
  import opened Refinement
  import LoneValidator
  import Spec = NodeSpec
  import P = Protocol

  lemma ReachableOK(cfgs: seq<Config>, nodes: Nodes)
    requires Reachable(cfgs, nodes)
    ensures ClusterInv(cfgs, nodes)
  {
    hide ClusterInv, Init, Next;
    var run :| IsRun(cfgs, run) && run[|run| - 1] == nodes;
    RunOK(cfgs, run);
  }

  // The validators whose counted Commit or PreCommit signs the very header that was accepted.
  function Endorsers(x: Acceptance, n: nat): set<int> {
    set i | i in Voters(x.counted, n, InView(x.view)) && Verifies(x.header, i, x.counted[i].Signed())
  }

  predicate Endorsed(x: Acceptance, n: pos) {
    |Endorsers(x, n)| >= F(n) + 1
  }

  // Node a processed this block or pre-block.
  ghost predicate Processed(cfgs: seq<Config>, nodes: Nodes, a: int, x: Acceptance)
    requires |nodes| == |cfgs|
  {
    IsNode(cfgs, a) && x in P.Blocks(nodes[a].core)
  }

  // Node b signed a Commit or a PreCommit.
  ghost predicate Signs(cfgs: seq<Config>, nodes: Nodes, b: int, c: Payload)
    requires |nodes| == |cfgs|
  {
    IsNode(cfgs, b) && c in nodes[b].core.sent && c.IsSignature()
  }

  // ---- blocks ----

  // A counted Commit or PreCommit of a correct validator signs what every correct node signs in that view.
  lemma CorrectVoterSigns(cfgs: seq<Config>, validators: nat -> pos, nodes: Nodes, a: int, x: Acceptance,
                          b: int, c: Payload, i: int)
    requires ClusterInv(cfgs, nodes) && Network(cfgs, validators)
    requires Processed(cfgs, nodes, a, x) && Signs(cfgs, nodes, b, c) && c.height == x.height && c.view == x.view
    requires i in Voters(x.counted, validators(x.height), InView(x.view)) - Faulty(cfgs, validators, x.height)
    ensures x.counted[i].Signed() == Signature(i, c.Signed().header)
  {
    hide NodeOK, Network, P.Known, P.FromPrimary, P.Quorate, Faulty;
    var m := CountedIsSent(cfgs, validators, nodes, a, x, i);
    var req, voters := SignedIsCertified(cfgs, nodes, m, x.counted[i]);
    OneProposalPerView(cfgs, validators, nodes, m, b, x.counted[i], c);
  }

  // At least F+1 of the counted validators are correct.
  lemma CorrectVoters(cfgs: seq<Config>, validators: nat -> pos, nodes: Nodes, a: int, x: Acceptance)
    returns (n: pos, faulty: set<int>, correct: set<int>)
    requires ClusterInv(cfgs, nodes) && Network(cfgs, validators) && Processed(cfgs, nodes, a, x)
    ensures n == validators(x.height) && faulty == Faulty(cfgs, validators, x.height)
    ensures correct == Voters(x.counted, n, InView(x.view)) - faulty
    ensures |correct| >= n - 2 * F(n) >= F(n) + 1 && |faulty| <= F(n)
  {
    hide NodeOK, P.Known;
    BlockIsCounted(cfgs, validators, nodes, a, x);
    n, faulty := validators(x.height), Faulty(cfgs, validators, x.height);
    correct := Voters(x.counted, n, InView(x.view)) - faulty;
    CorrectMembers(n, Voters(x.counted, n, InView(x.view)), faulty);
  }

  /** A processed block or pre-block is the one that the correct nodes signed exactly when F+1 of the counted Commits or
      PreCommits sign it. One that came before the request is counted unverified, so M of them alone do not suffice. */
  lemma EndorsedIffSigned(cfgs: seq<Config>, validators: nat -> pos, nodes: Nodes, a: int, x: Acceptance,
                             b: int, c: Payload)
    requires Reachable(cfgs, nodes) && Network(cfgs, validators) && |nodes| == |cfgs|
    requires Processed(cfgs, nodes, a, x) && Signs(cfgs, nodes, b, c) && c.height == x.height && c.view == x.view
    ensures x.header == c.Signed().header <==> Endorsed(x, validators(x.height))
  {
    hide ClusterInv, P.Counted, Faulty, Reachable;
    ReachableOK(cfgs, nodes);
    BlockIsCounted(cfgs, validators, nodes, a, x);
    var n, faulty, correct := CorrectVoters(cfgs, validators, nodes, a, x);
    forall i | i in correct
      ensures x.counted[i].Signed() == Signature(i, c.Signed().header)
    {
      CorrectVoterSigns(cfgs, validators, nodes, a, x, b, c, i);
    }
    if x.header == c.Signed().header {
      SubsetSize(correct, Endorsers(x, n));
    }
    if Endorsed(x, n) {
      var i := PickOutside(Endorsers(x, n), faulty);
      assert i in correct;
    }
  }

  // Behind every processed block or pre-block there is a correct node that sent its Commit or PreCommit in its view.
  lemma SomeoneSigned(cfgs: seq<Config>, validators: nat -> pos, nodes: Nodes, a: int, x: Acceptance)
    returns (b: int, c: Payload)
    requires Reachable(cfgs, nodes) && Network(cfgs, validators) && |nodes| == |cfgs| && Processed(cfgs, nodes, a, x)
    ensures Signs(cfgs, nodes, b, c) && c.Type() == x.kind && c.height == x.height && c.view == x.view
  {
    hide ClusterInv, P.Counted, Faulty, Reachable;
    ReachableOK(cfgs, nodes);
    var n, faulty, correct := CorrectVoters(cfgs, validators, nodes, a, x);
    var i :| i in correct;
    b := CountedIsSent(cfgs, validators, nodes, a, x, i);
    c := x.counted[i];
  }

  /** Of two blocks or pre-blocks that were processed at one height, one of them endorsed, both have the same header
      exactly when the other one is endorsed too. */
  lemma AgreementIffEndorsed(cfgs: seq<Config>, validators: nat -> pos, nodes: Nodes, a: int, x: Acceptance,
                             b: int, y: Acceptance)
    requires Reachable(cfgs, nodes) && Network(cfgs, validators) && |nodes| == |cfgs|
    requires Processed(cfgs, nodes, a, x) && Processed(cfgs, nodes, b, y) && x.height == y.height
    requires Endorsed(y, validators(y.height))
    ensures x.view == y.view
    ensures x.header == y.header <==> Endorsed(x, validators(x.height))
  {
    hide ClusterInv, P.Counted, Faulty, Reachable, Endorsed;
    ReachableOK(cfgs, nodes);
    OneViewPerHeight(cfgs, validators, nodes, a, b, x, y);
    var m, c := SomeoneSigned(cfgs, validators, nodes, a, x);
    EndorsedIffSigned(cfgs, validators, nodes, a, x, m, c);
    EndorsedIffSigned(cfgs, validators, nodes, b, y, m, c);
  }

  lemma NothingLater(cfgs: seq<Config>, nodes: Nodes, m: int, c: Payload, q: Payload)
    requires ClusterInv(cfgs, nodes) && Signs(cfgs, nodes, m, c) && q in nodes[m].core.sent && q.height == c.height
    ensures q.view <= c.view
  {
    hide P.Epoch, Coherent, P.BuiltOK, Authentic, P.CountedOK, P.SignaturesOK, P.CurrentBlockOK, P.ProcessedOnce;
    hide P.SentOK, P.OwnGenuine, P.AnswersOK, P.VoteOnce, P.CommitOnce, P.OwnBlockOK;
    assert NodeOK(cfgs, nodes, m);
  }

  /** Once a correct node processed a block or a pre-block in some view, no correct node signs anything in a later view
      of that height: the validators behind it are bound, and too few are left for a quorum. */
  lemma ProcessedViewIsFinal(cfgs: seq<Config>, validators: nat -> pos, nodes: Nodes, a: int, x: Acceptance,
                             b: int, p: Payload)
    requires Reachable(cfgs, nodes) && Network(cfgs, validators) && |nodes| == |cfgs|
    requires Processed(cfgs, nodes, a, x) && IsNode(cfgs, b) && p in nodes[b].core.sent
    requires p.IsSignature() && p.height == x.height
    ensures p.view <= x.view
  {
    hide NodeOK, Reachable, P.Known, P.FromPrimary, P.HasBacking;
    ReachableOK(cfgs, nodes);
    if p.view > x.view {
      BlockIsCounted(cfgs, validators, nodes, a, x);
      var n, faulty := validators(x.height), Faulty(cfgs, validators, x.height);
      var req, voters := SignedIsCertified(cfgs, nodes, b, p);
      var i := QuorumIntersection(n, Voters(x.counted, n, InView(x.view)), voters, faulty);
      var m := CountedIsSent(cfgs, validators, nodes, a, x, i);
      var v := BackerSupports(cfgs, validators, nodes, b, m, req, i);
      NothingLater(cfgs, nodes, m, x.counted[i], v);
    }
  }

  lemma OwnNotEarlier(cfgs: seq<Config>, nodes: Nodes, a: int, x: Acceptance, p: Payload)
    requires ClusterInv(cfgs, nodes) && Processed(cfgs, nodes, a, x)
    requires Signs(cfgs, nodes, a, p) && p.height == x.height
    ensures p.view >= x.view && (p.view == x.view ==> p.Signed().header == x.header)
  {
    hide P.Epoch, Coherent, P.BuiltOK, Authentic, P.CountedOK, P.SignaturesOK, P.CurrentBlockOK, P.ProcessedOnce;
    hide P.SentOK, P.OwnGenuine, P.AnswersOK, P.VoteOnce, P.CommitOnce, P.CommitLast;
    assert NodeOK(cfgs, nodes, a);
  }

  // A node processes what it signed.
  lemma OwnSignatureMatches(cfgs: seq<Config>, validators: nat -> pos, nodes: Nodes, a: int, x: Acceptance, p: Payload)
    requires Reachable(cfgs, nodes) && Network(cfgs, validators) && |nodes| == |cfgs|
    requires Processed(cfgs, nodes, a, x) && Signs(cfgs, nodes, a, p) && p.height == x.height
    ensures p.view == x.view && p.Signed().header == x.header
  {
    hide Reachable, ClusterInv, P.Blocks;
    ReachableOK(cfgs, nodes);
    ProcessedViewIsFinal(cfgs, validators, nodes, a, x, a, p);
    OwnNotEarlier(cfgs, nodes, a, x, p);
  }

  /** No fork: nodes that signed at a height themselves and processed a block or pre-block of it processed the same,
      whatever the faulty validators, the primary among them, sent to whom. */
  lemma NoFork(cfgs: seq<Config>, validators: nat -> pos, nodes: Nodes, a: int, x: Acceptance, p: Payload,
               b: int, y: Acceptance, q: Payload)
    requires Reachable(cfgs, nodes) && Network(cfgs, validators) && |nodes| == |cfgs|
    requires Processed(cfgs, nodes, a, x) && Signs(cfgs, nodes, a, p) && p.height == x.height
    requires Processed(cfgs, nodes, b, y) && Signs(cfgs, nodes, b, q) && q.height == y.height == x.height
    ensures x.header == y.header && x.view == y.view
  {
    hide ClusterInv, Reachable, P.Blocks;
    ReachableOK(cfgs, nodes);
    OneViewPerHeight(cfgs, validators, nodes, a, b, x, y);
    OwnSignatureMatches(cfgs, validators, nodes, a, x, p);
    OwnSignatureMatches(cfgs, validators, nodes, b, y, q);
    OneProposalPerView(cfgs, validators, nodes, a, b, p, q);
  }

  /** What a node that signed at a height itself processes there is endorsed, so everybody who disagrees with it skipped
      its phase and counted Commits or PreCommits that sign another header. */
  lemma SignerIsEndorsed(cfgs: seq<Config>, validators: nat -> pos, nodes: Nodes, a: int, x: Acceptance, p: Payload)
    requires Reachable(cfgs, nodes) && Network(cfgs, validators) && |nodes| == |cfgs|
    requires Processed(cfgs, nodes, a, x) && Signs(cfgs, nodes, a, p) && p.height == x.height
    ensures Endorsed(x, validators(x.height))
  {
    hide ClusterInv, Reachable, Endorsed, P.Blocks;
    OwnSignatureMatches(cfgs, validators, nodes, a, x, p);
    EndorsedIffSigned(cfgs, validators, nodes, a, x, a, p);
  }

  /** No two correct nodes sign a Commit or a PreCommit for different proposals of one view. */
  lemma SignedOnce(cfgs: seq<Config>, validators: nat -> pos, nodes: Nodes, a: int, b: int, p: Payload, q: Payload)
    requires Reachable(cfgs, nodes) && Network(cfgs, validators) && |nodes| == |cfgs|
    requires IsNode(cfgs, a) && p in nodes[a].core.sent && p.IsSignature()
    requires IsNode(cfgs, b) && q in nodes[b].core.sent && q.IsSignature()
    requires p.height == q.height && p.view == q.view
    ensures p.Signed() == Signature(p.from, q.Signed().header) && q.Signed() == Signature(q.from, p.Signed().header)
  {
    hide ClusterInv, Reachable;
    ReachableOK(cfgs, nodes);
    OneProposalPerView(cfgs, validators, nodes, a, b, p, q);
    var _, _ := SignedIsCertified(cfgs, nodes, a, p);
    var _, _ := SignedIsCertified(cfgs, nodes, b, q);
  }

  // ---- views ----

  // Node m asked, from view v or a later one of that height, for the next view.
  ghost predicate AsksFrom(m: State, height: nat, v: nat, p: Payload) {
    p in m.core.sent && p.body.ChangeView? && p.height == height && p.view >= v
  }

  ghost predicate AskedFrom(cfgs: seq<Config>, nodes: Nodes, height: nat, v: nat, i: int)
    requires |nodes| == |cfgs|
  {
    exists m, p :: IsNode(cfgs, m) && IndexAt(cfgs[m], height) == i && AsksFrom(nodes[m], height, v, p)
  }

  // The correct validators that reached view v of a height and asked to leave it or a later one.
  ghost function Leavers(cfgs: seq<Config>, nodes: Nodes, height: nat, n: nat, v: nat): set<int>
    requires |nodes| == |cfgs|
  {
    set i | 0 <= i < n && AskedFrom(cfgs, nodes, height, v, i)
  }

  lemma ViewIsCertified(cfgs: seq<Config>, validators: nat -> pos, nodes: Nodes, a: int)
    requires ClusterInv(cfgs, nodes) && Network(cfgs, validators) && IsNode(cfgs, a) && nodes[a].core.view > 0
    ensures P.ViewsOK(nodes[a].core)
    ensures nodes[a].core.n == validators(nodes[a].core.height)
  {
    hide P.History, Coherent, Authentic, GetPrimaryIndex, Faulty;
    assert NodeOK(cfgs, nodes, a);
  }

  lemma AskedNext(cfgs: seq<Config>, nodes: Nodes, m: int, p: Payload)
    requires ClusterInv(cfgs, nodes) && IsNode(cfgs, m) && p in nodes[m].core.sent
    ensures p.body.ChangeView? ==> p.body.newView == Spec.NextView(p.view)
    ensures p.height < nodes[m].core.height || (p.height == nodes[m].core.height && p.view <= nodes[m].core.view)
  {
    hide P.Epoch, Coherent, P.BuiltOK, Authentic, P.CountedOK, P.SignaturesOK, P.CurrentBlockOK, P.ProcessedOnce;
    hide P.OwnGenuine, P.AnswersOK, P.VoteOnce, P.CommitOnce, P.OwnBlockOK, P.CommitLast, IndexAt;
    assert NodeOK(cfgs, nodes, m);
  }

  /** Entering view v means that at least N - 2F correct validators had reached view v - 1. */
  lemma ViewIsWanted(cfgs: seq<Config>, validators: nat -> pos, nodes: Nodes, a: int)
    requires Reachable(cfgs, nodes) && Network(cfgs, validators) && |nodes| == |cfgs|
    requires IsNode(cfgs, a) && nodes[a].core.view > 0
    ensures var c, n := nodes[a].core, validators(nodes[a].core.height);
      |Leavers(cfgs, nodes, c.height, n, c.view - 1)| >= n - 2 * F(n)
  {
    hide NodeOK, Reachable;
    ReachableOK(cfgs, nodes);
    var c, n, h := nodes[a].core, validators(nodes[a].core.height), nodes[a].core.height;
    ViewIsCertified(cfgs, validators, nodes, a);
    var voters, faulty := Voters(c.lastChangeViews, n, AsksFor(c.view)), Faulty(cfgs, validators, h);
    var correct, leavers := voters - faulty, Leavers(cfgs, nodes, h, n, c.view - 1);
    forall i | i in correct
      ensures i in leavers
    {
      var m :| IsNode(cfgs, m) && IndexAt(cfgs[m], h) == i;
      var p := c.lastChangeViews[i];
      KnownIsSent(cfgs, validators, nodes, a, m, p);
      AskedNext(cfgs, nodes, m, p);
      assert AsksFrom(nodes[m], h, c.view - 1, p);
    }
    CorrectMembers(n, voters, faulty);
    SubsetSize(correct, leavers);
  }

  // Before the call another correct node had asked to leave the view before, or a later one.
  ghost predicate OthersAsked(cfgs: seq<Config>, nodes: Nodes, a: int, height: nat, v: nat)
    requires |nodes| == |cfgs|
  {
    exists b, p :: IsNode(cfgs, b) && b != a && AsksFrom(nodes[b], height, v, p)
  }

  lemma LoneViewGrowsByOne(cfgs: seq<Config>, validators: nat -> pos, nodes: Nodes, nodes': Nodes, a: int, e: Event)
    requires ClusterInv(cfgs, nodes) && ClusterInv(cfgs, nodes') && Network(cfgs, validators)
    requires Moves(cfgs, nodes, nodes', a, e)
    requires validators(nodes'[a].core.height) == 1 && IndexAt(cfgs[a], nodes'[a].core.height) >= 0
    ensures nodes'[a].core.view > 0 ==>
      nodes'[a].core.height == nodes[a].core.height && nodes'[a].core.view <= nodes[a].core.view as nat + 1
  {
    hide Handle, Proper, Coherent, P.History, Input, IndexAt;
    hide P.PrepsOK, P.MatchOK, P.CommitsOK, P.ViewsOK, P.WatchOK, P.LockOK, P.Remembered;
    assert NodeOK(cfgs, nodes, a) && NodeOK(cfgs, nodes', a);
    LoneValidator.LoneViewGrowsByOne(cfgs[a], nodes[a], e);
  }

  // Of N-2F validators that asked one is not node a, unless a is the single validator.
  lemma SomeoneElse(cfg: Config, height: nat, n: pos, leavers: set<int>) returns (i: int)
    requires cfg.validators(height) == n && leavers <= Indices(n) && |leavers| >= n - 2 * F(n)
    requires n >= 2 || IndexAt(cfg, height) < 0
    ensures i in leavers && i != IndexAt(cfg, height)
  {
    hide IndexAt;
    var own := if IndexAt(cfg, height) < 0 then {} else {IndexAt(cfg, height)};
    assert |own| <= if n >= 2 then 1 else 0;
    assert n >= 2 ==> n - 2 * F(n) >= 2;
    i := PickOutside(leavers, own);
  }

  lemma KnownToAll(cfgs: seq<Config>, validators: nat -> pos, a: int, height: nat)
    requires Network(cfgs, validators) && IsNode(cfgs, a)
    ensures cfgs[a].validators(height) == validators(height)
  {
    hide Faulty;
  }

  /** No call moves a node more than one view past all others: a node of N >= 2 validators is in view v > 0 after it
      only if some other correct node had before, at that very height, broadcast a ChangeView from view v-1 or a later
      one. A single validator needs nobody else and moves up one view. */
  lemma ViewGrowsByOne(cfgs: seq<Config>, validators: nat -> pos, nodes: Nodes, nodes': Nodes, a: int, e: Event)
    requires Reachable(cfgs, nodes) && Network(cfgs, validators) && Moves(cfgs, nodes, nodes', a, e)
    ensures var c, c' := nodes[a].core, nodes'[a].core;
      c'.view > 0 ==>
        if validators(c'.height) == 1 && IndexAt(cfgs[a], c'.height) == 0
        then c'.height == c.height && c'.view <= c.view as nat + 1
        else OthersAsked(cfgs, nodes, a, c'.height, c'.view - 1)
  {
    hide ClusterInv, Reachable, Handle, Input, Proper, P.Evolves, Network, IndexAt, AsksFrom;
    ReachableOK(cfgs, nodes);
    MoveKeeps(cfgs, nodes, nodes', a, e);
    ReachableNext(cfgs, nodes, nodes');
    var c, h := nodes'[a].core, nodes'[a].core.height;
    var n := validators(h);
    if c.view > 0 {
      KnownToAll(cfgs, validators, a, h);
      if n >= 2 || IndexAt(cfgs[a], h) < 0 {
        ViewIsWanted(cfgs, validators, nodes', a);
        var i := SomeoneElse(cfgs[a], h, n, Leavers(cfgs, nodes', h, n, c.view - 1));
        var b, p :| IsNode(cfgs, b) && IndexAt(cfgs[b], h) == i && AsksFrom(nodes'[b], h, c.view - 1, p);
        assert b != a && nodes'[b] == nodes[b];
      } else {
        LoneViewGrowsByOne(cfgs, validators, nodes, nodes', a, e);
      }
    }
  }
}
