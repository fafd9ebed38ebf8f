/** A reachable fork. Commits that arrive before the request are counted unverified, so a node that never sent its own
    Commit can accept another block than the nodes that did: four validators, one of them faulty. */
module Fork {
  import opened Quorum
  import opened Payloads
  import opened NodeState
  import opened NodeSpec
  import opened Refinement
  import opened Cluster
  import A = Agreement

  // Validator i of 4, in an environment that approves of everything.
  function Cfg(i: nat): Config {
    Config(
      (h: nat) => 4 as pos, (h: nat) => i as int, false, -1, false, 1, (k: nat, p: Payload) => true,
      (k: nat, b: Header) => true, (k: nat, b: Header) => true, (k: nat, b: Header) => true, (k: nat) => true,
      (k: nat, h: Hash) => true, (k: nat) => [], (k: nat) => 0, (k: nat) => 0, (k: nat, j: nat, keys: set<nat>) => [])
  }

  lemma Approves(i: nat)
    ensures var c := Cfg(i);
      && !c.watchOnly && c.antiMEVHeight == -1 && !c.dynamicBlockTime
      && (forall k: nat :: c.sign(k))
      && (forall k: nat, p :: c.verifyPayload(k, p))
      && (forall k: nat, h :: c.verifyBlock(k, h))
      && (forall k: nat, h :: c.processBlock(k, h))
  {
  }

  // Validator 0 is faulty; at height 4 it is the primary of view 0.
  function Cfgs(): seq<Config> {
    [Cfg(1), Cfg(2), Cfg(3)]
  }

  function Four(h: nat): pos {
    4
  }

  // The two requests of the primary: x for validator 1, y for validators 2 and 3.
  function Request(nonce: nat): Payload {
    Payload(4, 0, 0, PrepareRequest(7, nonce, []))
  }

  function Response(i: nat, nonce: nat): Payload {
    Payload(4, 0, i, PrepareResponse(Request(nonce)))
  }

  function CommitOf(i: nat, nonce: nat): Payload {
    Payload(4, 0, i, Commit(Signature(i, HeaderOf(Request(nonce)))))
  }

  function Fresh(i: nat): Core {
    Core(4, 4, i, 0, 0, map[], map[], map[], map[], map[], false, false, [], {}, [], [])
  }

  ghost predicate Waiting(s: State) {
    && !s.rest.crashed && s.rest.txs == [] && s.rest.transactions == {} && !s.core.blockProcessed
    && s.core.height == 4 && s.core.n == 4 && s.core.view == 0 && s.core.primary == 0 && 1 <= s.core.me < 4
    && ProposalOK(s) && BlocksOK(s)
  }

  lemma PrimaryIsZero()
    ensures GetPrimaryIndex(4, 0, 4) == 0 && F(4) == 1 && M(4) == 3
  {
  }

  lemma Started(i: nat)
    requires 1 <= i < 4
    ensures var s := Start(Cfg(i), Blank(), 4, 0); s.core == Fresh(i) && Waiting(s)
  {
    PrimaryIsZero();
    var s := ResetHeight(Cfg(i), Blank(), 4, 0);
    assert CachedMail(Cfg(i), s) == [];
    assert Initialize(Cfg(i), s) == TakeMail(s);
  }

  lemma Voting(slots: Slots, keys: set<int>)
    requires forall i :: i in slots ==> 0 <= i < 4 && slots[i].view == 0
    requires slots.Keys == keys
    ensures Voters(slots, 4, InView(0)) == keys
  {
  }

  // A message of the current epoch goes to its handler.
  lemma Handed(s: State, p: Payload)
    requires Waiting(s) && p.height == 4 && p.view == 0 && p.from < 4
    ensures Waiting(Taken(s, p))
    ensures var cfg, t := Cfg(s.core.me), Taken(s, p);
      && (p.body.PrepareRequest? ==> OnReceive(cfg, s, p) == OnPrepareRequest(cfg, t, p))
      && (p.body.PrepareResponse? ==> OnReceive(cfg, s, p) == OnPrepareResponse(cfg, t, p))
      && (p.body.Commit? ==> OnReceive(cfg, s, p) == OnCommit(cfg, t, p))
  {
    hide OnPrepareRequest, OnPrepareResponse, OnCommit, OnPreCommit, OnChangeView, OnRecoveryRequest;
    hide OnRecoveryMessage, Cache, Cfg, GetPrimaryIndex;
  }

  // The first Commits reach a node that does not know the request: they are stored and not verified.
  lemma EarlyCommit(s: State, p: Payload)
    requires Waiting(s) && !RequestKnown(s.core) && p.body.Commit?
    requires p.height == 4 && p.view == 0 && p.from < 4 && p.from !in s.core.commits
    ensures var r := OnReceive(Cfg(s.core.me), s, p);
      Waiting(r) && r.core == s.core.(delivered := s.core.delivered + {p}, commits := s.core.commits[p.from := p])
  {
    hide OnReceive, Taken, CheckCommit, Cfg;
    Approves(s.core.me);
    Handed(s, p);
  }

  lemma Adopted(s: State, nonce: nat)
    requires Waiting(s) && s.core.preps == map[]
    ensures var r := AdoptRequest(Cfg(s.core.me), s, Request(nonce));
      Waiting(r) && r.core == s.core.(preps := map[0 := Request(nonce)])
  {
    hide Cfg, GetPrimaryIndex, VerifyPreCommits;
    assert Answering(s.core.preps, 4, Request(nonce)) == map[];
    Approves(s.core.me);
  }

  lemma Checked(s: State)
    requires Waiting(s) && RequestKnown(s.core)
    ensures BlockOK(Cfg(s.core.me), s)
    ensures var r := CreateAndCheckBlock(Cfg(s.core.me), s); Waiting(r) && r.core == s.core
  {
    hide SendChangeView, GetPrimaryIndex, Cfg;
    Approves(s.core.me);
  }

  lemma Answered(s: State, nonce: nat)
    requires Waiting(s) && s.core.preps == map[0 := Request(nonce)]
    ensures var r, p := Respond(Cfg(s.core.me), s), Response(s.core.me, nonce);
      Waiting(r) && r.core == s.core.(preps := map[0 := Request(nonce), s.core.me := p], sent := s.core.sent + [p])
  {
    hide CheckPreCommit, CheckCommit, SendPreCommit, SendCommit, Cfg;
    Approves(s.core.me);
    PrimaryIsZero();
    var r := SendPrepareResponse(s);
    Voting(r.core.preps, {0, s.core.me});
  }

  // A backup that holds no preparation answers the request.
  lemma FirstRequest(s: State, nonce: nat)
    requires Waiting(s) && s.core.preps == map[]
    ensures var r, q, p := OnReceive(Cfg(s.core.me), s, Request(nonce)), Request(nonce), Response(s.core.me, nonce);
      Waiting(r) && r.core == s.core.(delivered := s.core.delivered + {q}, preps := map[0 := q, s.core.me := p],
                                      sent := s.core.sent + [p])
  {
    hide OnReceive, Taken, AdoptRequest, CreateAndCheckBlock, BlockOK, Respond, SendChangeView, Cfg;
    Approves(s.core.me);
    PrimaryIsZero();
    var cfg, q := Cfg(s.core.me), Request(nonce);
    Handed(s, q);
    var s1 := Tick(Taken(s, q));
    Adopted(s1, nonce);
    var s2 := AdoptRequest(cfg, s1, q);
    Checked(s2);
    var s3 := CreateAndCheckBlock(cfg, s2);
    Answered(s3, nonce);
    assert OnPrepareRequest(cfg, Taken(s, q), q) == Respond(cfg, s3);
  }

  lemma CommitSent(s: State, nonce: nat)
    requires Waiting(s) && RequestKnown(s.core) && s.core.preps[0] == Request(nonce) && s.core.commits == map[]
    ensures var r, c := SendCommit(Cfg(s.core.me), s), CommitOf(s.core.me, nonce);
      Waiting(r) && r.core == s.core.(commits := map[s.core.me := c], sent := s.core.sent + [c])
  {
    hide GetPrimaryIndex, Cfg;
    Approves(s.core.me);
  }

  predicate CommitsHere(s: State) {
    forall j :: j in s.core.commits ==> 0 <= j < 4 && s.core.commits[j].view == 0
  }

  lemma TooFew(s: State)
    requires Waiting(s) && CommitsHere(s) && |s.core.commits.Keys| < 3
    ensures CheckCommit(Cfg(s.core.me), s) == s
  {
    hide Cfg, CreateBlock, ProposalOK, BlocksOK;
    assert F(4) == 1 && M(4) == 3;
    Voting(s.core.commits, s.core.commits.Keys);
  }

  lemma Signed(s: State, i: nat, nonce: nat)
    requires Waiting(s) && 1 <= i < 4 && i != s.core.me && s.core.commits == map[]
    requires s.core.preps == map[0 := Request(nonce), s.core.me := Response(s.core.me, nonce), i := Response(i, nonce)]
    ensures var r, c := CheckPrepare(Cfg(s.core.me), s), CommitOf(s.core.me, nonce);
      Waiting(r) && r.core == s.core.(commits := map[s.core.me := c], sent := s.core.sent + [c])
  {
    hide CheckPreCommit, SendPreCommit, SendCommit, CheckCommit, GetPrimaryIndex, Cfg;
    Approves(s.core.me);
    assert F(4) == 1 && M(4) == 3;
    var cfg, me := Cfg(s.core.me), s.core.me;
    Voting(s.core.preps, {0, me, i});
    assert s.core.preps[0].body.PrepareRequest?;
    CommitSent(s, nonce);
    TooFew(SendCommit(cfg, s));
  }

  lemma Counted(s: State, i: nat, nonce: nat)
    requires Waiting(s) && 1 <= i < 4 && i != s.core.me && s.core.commits == map[] && s.core.changeViews == map[]
    requires s.core.preps == map[0 := Request(nonce), s.core.me := Response(s.core.me, nonce)]
    ensures var p, t := Response(i, nonce), Tick(s);
      OnPrepareResponse(Cfg(s.core.me), s, p)
        == CheckPrepare(Cfg(s.core.me), t.(core := t.core.(preps := t.core.preps[i := p])))
  {
    hide CheckPrepare, MoreThanFNodesCommittedOrLost, Cfg, GetPrimaryIndex;
    Approves(s.core.me);
    PrimaryIsZero();
  }

  // A third preparation makes a quorum: the node signs the proposal.
  lemma ThirdPreparation(s: State, i: nat, nonce: nat)
    requires Waiting(s) && 1 <= i < 4 && i != s.core.me && s.core.commits == map[] && s.core.changeViews == map[]
    requires s.core.preps == map[0 := Request(nonce), s.core.me := Response(s.core.me, nonce)]
    ensures var p, c := Response(i, nonce), CommitOf(s.core.me, nonce);
      var r := OnReceive(Cfg(s.core.me), s, p);
      Waiting(r) && r.core == s.core.(delivered := s.core.delivered + {p}, preps := s.core.preps[i := p],
                                      commits := map[s.core.me := c], sent := s.core.sent + [c])
  {
    hide OnReceive, Taken, CheckPrepare, MoreThanFNodesCommittedOrLost, Cfg, GetPrimaryIndex, See;
    var p := Response(i, nonce);
    Handed(s, p);
    Counted(Taken(s, p), i, nonce);
    var s1 := Tick(Taken(s, p));
    var s2 := s1.(core := s1.core.(preps := s1.core.preps[i := p]));
    Signed(s2, i, nonce);
  }

  lemma Enough(s: State)
    requires Waiting(s) && CommitsHere(s) && |s.core.commits.Keys| >= 3 && RequestKnown(s.core)
    ensures CheckCommit(Cfg(s.core.me), s).core.processed
         == s.core.processed + [Acceptance(CommitType, 4, 0, Proposal(s), s.core.commits)]
  {
    hide Cfg, ProposalOK;
    Approves(s.core.me);
    assert F(4) == 1 && M(4) == 3;
    Voting(s.core.commits, s.core.commits.Keys);
  }

  lemma HeaderMade(s: State)
    requires Waiting(s) && RequestKnown(s.core)
    ensures var r := MakeHeader(Cfg(s.core.me), s);
      Waiting(r) && r.rest.header == Some(Proposal(s)) && Proposal(r) == Proposal(s)
  {
    hide GetPrimaryIndex, Cfg;
    Approves(s.core.me);
  }

  // A Commit that covers the header of the known request is counted.
  function Stored(s: State, p: Payload): (r: State)
    requires s.core.me >= 0
    ensures r.core == s.core.(delivered := s.core.delivered + {p}, commits := s.core.commits[p.from := p])
  {
    var t := Tick(Taken(s, p));
    MakeHeader(Cfg(s.core.me), t.(core := t.core.(commits := t.core.commits[p.from := p])))
  }

  lemma Proposes(s: State, nonce: nat)
    requires Waiting(s) && RequestKnown(s.core) && s.core.preps[s.core.primary] == Request(nonce)
    ensures s.core.primary == 0 && s.core.view == 0 && s.core.me >= 0 && Proposal(s) == HeaderOf(Request(nonce))
  {
  }

  lemma Counts(cfg: Config, s: State, p: Payload)
    requires p.body.Commit? && p.from !in s.core.commits && p.view == s.core.view && cfg.verifyPayload(s.rest.calls, p)
    ensures var u := Tick(s.(core := s.core.(commits := s.core.commits[p.from := p])));
      var h := MakeHeader(cfg, u).rest.header;
      h.Some? && Verifies(h.value, p.from, p.Signed()) ==> OnCommit(cfg, s, p) == CheckCommit(cfg, MakeHeader(cfg, u))
  {
    hide MakeHeader, CheckCommit;
  }

  lemma StaysCoherent(s: State, r: State)
    requires Waiting(s) && r.rest == s.rest.(calls := r.rest.calls)
    requires r.core == s.core.(commits := r.core.commits)
    ensures Waiting(r)
  {
  }

  lemma Verified(s: State, i: nat, nonce: nat)
    requires Waiting(s) && i < 4 && i !in s.core.commits
    requires RequestKnown(s.core) && s.core.preps[s.core.primary] == Request(nonce)
    ensures var p, t := CommitOf(i, nonce), Stored(s, CommitOf(i, nonce));
      && OnReceive(Cfg(s.core.me), s, p) == CheckCommit(Cfg(s.core.me), t)
      && Waiting(t) && Proposal(t) == HeaderOf(Request(nonce))
  {
    hide OnReceive, Taken, OnCommit, CheckCommit, Cfg, MakeHeader, Waiting;
    var p, t := CommitOf(i, nonce), Taken(s, CommitOf(i, nonce));
    var u := Tick(t.(core := t.core.(commits := t.core.commits[i := p])));
    Proposes(s, nonce);
    Approves(s.core.me);
    Handed(s, p);
    StaysCoherent(t, u);
    Proposes(u, nonce);
    HeaderMade(u);
    Counts(Cfg(s.core.me), t, p);
  }

  // A verified Commit; the third one makes the node process its block.
  lemma NextCommit(s: State, i: nat, nonce: nat)
    requires Waiting(s) && i < 4 && i !in s.core.commits && RequestKnown(s.core) && s.core.preps[0] == Request(nonce)
    requires CommitsHere(s)
    ensures var r, p, all := OnReceive(Cfg(s.core.me), s, CommitOf(i, nonce)), CommitOf(i, nonce),
        s.core.commits[i := CommitOf(i, nonce)];
      && (|s.core.commits.Keys| < 2 ==>
            Waiting(r) && r.core == s.core.(delivered := s.core.delivered + {p}, commits := all))
      && (|s.core.commits.Keys| >= 2 ==>
            r.core.processed == s.core.processed + [Acceptance(CommitType, 4, 0, HeaderOf(Request(nonce)), all)])
  {
    hide OnReceive, Stored, CheckCommit, Cfg, ProposalOK, BlocksOK;
    var t := Stored(s, CommitOf(i, nonce));
    Verified(s, i, nonce);
    assert t.core.commits.Keys == s.core.commits.Keys + {i};
    if |s.core.commits.Keys| < 2 {
      TooFew(t);
    } else {
      Enough(t);
    }
  }

  // ---- the run ----

  lemma Starts() returns (nodes: Nodes)
    ensures Reachable(Cfgs(), nodes) && |nodes| == 3
    ensures forall a :: 0 <= a < 3 ==> Waiting(nodes[a]) && nodes[a].core == Fresh(a + 1)
  {
    hide Start, Waiting, Cfg;
    nodes := seq(3, (a: nat) => Start(Cfg(a + 1), Blank(), 4, 0));
    forall a | 0 <= a < 3
      ensures Waiting(nodes[a]) && nodes[a].core == Fresh(a + 1) && Cfgs()[a] == Cfg(a + 1)
    {
      Started(a + 1);
    }
    forall a | IsNode(Cfgs(), a)
      ensures exists h, ts :: nodes[a] == Start(Cfgs()[a], Blank(), h, ts)
    {
      assert nodes[a] == Start(Cfgs()[a], Blank(), 4, 0);
    }
    InitReaches(Cfgs(), nodes);
  }

  // One message reaches one node; it comes from the faulty validator or was sent by its owner.
  lemma Delivered(nodes: Nodes, a: nat, p: Payload) returns (nodes': Nodes)
    requires Reachable(Cfgs(), nodes) && |nodes| == 3 && a < 3 && !p.body.Recovery? && p.height == 4 && p.from < 4
    requires p.from == 0 || p in nodes[p.from - 1].core.sent
    ensures Reachable(Cfgs(), nodes') && nodes' == nodes[a := OnReceive(Cfg(a + 1), nodes[a], p)]
  {
    hide OnReceive, Reachable;
    assert Input(Received(p)) == {p};
    assert Authentic(Cfgs(), nodes, p);
    nodes' := MoveReaches(Cfgs(), nodes, a, Received(p));
  }

  predicate Holds(s: State, me: nat, nonce: nat, commits: Slots) {
    && s.core.me == me && RequestKnown(s.core) && s.core.primary == 0 && s.core.preps[0] == Request(nonce)
    && s.core.commits == commits && CommitsHere(s)
  }

  // Validators 2 and 3 commit to the proposal y.
  lemma MajorityCommits(y: nat) returns (nodes: Nodes)
    ensures Reachable(Cfgs(), nodes) && |nodes| == 3
    ensures Waiting(nodes[0]) && nodes[0].core == Fresh(1)
    ensures Waiting(nodes[1]) && Holds(nodes[1], 2, y, map[2 := CommitOf(2, y)])
    ensures CommitOf(2, y) in nodes[1].core.sent && CommitOf(3, y) in nodes[2].core.sent
  {
    hide OnReceive, Waiting, Reachable, Cfg;
    nodes := Starts();
    FirstRequest(nodes[1], y);
    nodes := Delivered(nodes, 1, Request(y));
    FirstRequest(nodes[2], y);
    nodes := Delivered(nodes, 2, Request(y));
    ThirdPreparation(nodes[1], 3, y);
    nodes := Delivered(nodes, 1, Response(3, y));
    ThirdPreparation(nodes[2], 2, y);
    nodes := Delivered(nodes, 2, Response(2, y));
  }

  function Early(y: nat): Slots {
    map[2 := CommitOf(2, y), 3 := CommitOf(3, y)]
  }

  // Validator 1 holds both Commits before it sees a request: x.
  lemma MinorityAnswers(x: nat, y: nat) returns (nodes: Nodes)
    ensures Reachable(Cfgs(), nodes) && |nodes| == 3
    ensures Waiting(nodes[0]) && Holds(nodes[0], 1, x, Early(y))
    ensures Waiting(nodes[1]) && Holds(nodes[1], 2, y, map[2 := CommitOf(2, y)])
    ensures CommitOf(3, y) in nodes[2].core.sent
  {
    hide OnReceive, Waiting, Reachable, Cfg;
    nodes := MajorityCommits(y);
    EarlyCommit(nodes[0], CommitOf(2, y));
    nodes := Delivered(nodes, 0, CommitOf(2, y));
    EarlyCommit(nodes[0], CommitOf(3, y));
    nodes := Delivered(nodes, 0, CommitOf(3, y));
    FirstRequest(nodes[0], x);
    nodes := Delivered(nodes, 0, Request(x));
  }

  lemma MinorityProcesses(nodes: Nodes, x: nat, y: nat) returns (nodes': Nodes)
    requires Reachable(Cfgs(), nodes) && |nodes| == 3 && Waiting(nodes[0]) && Holds(nodes[0], 1, x, Early(y))
    ensures Reachable(Cfgs(), nodes') && |nodes'| == 3 && nodes' == nodes[0 := nodes'[0]]
    ensures Acceptance(CommitType, 4, 0, HeaderOf(Request(x)), Early(y)[0 := CommitOf(0, x)])
         in nodes'[0].core.processed
  {
    hide OnReceive, Reachable, Cfg, Waiting;
    assert nodes[0].core.commits.Keys == {2, 3};
    NextCommit(nodes[0], 0, x);
    nodes' := Delivered(nodes, 0, CommitOf(0, x));
  }

  lemma MajorityProcesses(nodes: Nodes, y: nat) returns (nodes': Nodes)
    requires Reachable(Cfgs(), nodes) && |nodes| == 3 && Waiting(nodes[1])
    requires Holds(nodes[1], 2, y, map[2 := CommitOf(2, y)]) && CommitOf(3, y) in nodes[2].core.sent
    ensures Reachable(Cfgs(), nodes') && |nodes'| == 3 && nodes' == nodes[1 := nodes'[1]]
    ensures Acceptance(CommitType, 4, 0, HeaderOf(Request(y)), Early(y)[0 := CommitOf(0, y)])
         in nodes'[1].core.processed
  {
    hide OnReceive, Reachable, Cfg, Waiting;
    assert nodes[1].core.commits.Keys == {2};
    NextCommit(nodes[1], 3, y);
    var mid := Delivered(nodes, 1, CommitOf(3, y));
    assert mid[1].core.commits == Early(y) && Early(y).Keys == {2, 3};
    NextCommit(mid[1], 0, y);
    nodes' := Delivered(mid, 1, CommitOf(0, y));
  }

  lemma OneFaulty()
    ensures Network(Cfgs(), Four)
  {
    forall h: nat
      ensures |Faulty(Cfgs(), Four, h)| <= F(Four(h))
    {
      assert IndexAt(Cfgs()[0], h) == 1 && IndexAt(Cfgs()[1], h) == 2 && IndexAt(Cfgs()[2], h) == 3;
      forall i | 1 <= i < 4
        ensures CorrectIndex(Cfgs(), h, i)
      {
        assert IsNode(Cfgs(), i - 1) && IndexAt(Cfgs()[i - 1], h) == i;
      }
      SubsetSize(Faulty(Cfgs(), Four, h), {0});
    }
  }

  lemma Endorsements(x: nat, y: nat, b: Acceptance, c: Acceptance)
    requires x != y
    requires b == Acceptance(CommitType, 4, 0, HeaderOf(Request(x)), Early(y)[0 := CommitOf(0, x)])
    requires c == Acceptance(CommitType, 4, 0, HeaderOf(Request(y)), Early(y)[0 := CommitOf(0, y)])
    ensures !A.Endorsed(b, 4) && A.Endorsed(c, 4)
  {
    assert F(4) == 1;
    assert A.Endorsers(b, 4) == {0};
    assert A.Endorsers(c, 4) == {0, 2, 3};
  }

  /** Validator 1 processes the block of x and validator 2 the block of y at the same height and in the same view. */
  lemma ForkIsReachable(x: nat, y: nat) returns (nodes: Nodes, b: Acceptance, c: Acceptance)
    requires x != y
    ensures Network(Cfgs(), Four) && Reachable(Cfgs(), nodes) && |nodes| == |Cfgs()|
    ensures A.Processed(Cfgs(), nodes, 0, b) && A.Processed(Cfgs(), nodes, 1, c)
    ensures b.height == c.height == 4 && b.view == c.view == 0 && b.header != c.header
    ensures !A.Endorsed(b, 4) && A.Endorsed(c, 4)
  {
    hide Reachable, Cfg, A.Endorsed, Network, Waiting, Early;
    OneFaulty();
    nodes := MinorityAnswers(x, y);
    nodes := MinorityProcesses(nodes, x, y);
    nodes := MajorityProcesses(nodes, y);
    b := Acceptance(CommitType, 4, 0, HeaderOf(Request(x)), Early(y)[0 := CommitOf(0, x)]);
    c := Acceptance(CommitType, 4, 0, HeaderOf(Request(y)), Early(y)[0 := CommitOf(0, y)]);
    Endorsements(x, y, b, c);
  }
}
