/** Two reachable states in which ProposedTransaction takes a transaction off a list that a nested view change replaced:
    once the place is beyond the new list and the process dies, once the place holds a transaction of the new request,
    which is then neither collected nor listed. Four validators, the last one faulty. */
module StaleIndex {
  import opened Quorum
  import opened Payloads
  import opened NodeState
  import opened Mailbox
  import opened NodeSpec
  import opened Refinement
  import opened Cluster
  import opened MissingTransactions
  import A = Agreement

  /** Validator i of 4. Validator 0 proposes `txs`; validator 2 refuses every request, the others an empty one, and
      validator 1 every block. The pool learns of transaction 1 after the request was received, and of no other. */
  function Cfg(i: nat, txs: seq<Hash>): Config {
    Config(
      (h: nat) => 4 as pos, (h: nat) => i as int, false, -1, false, 1, (k: nat, p: Payload) => i != 2 && txs != [],
      (k: nat, b: Header) => i != 1, (k: nat, b: Header) => true, (k: nat, b: Header) => true, (k: nat) => true,
      (k: nat, h: Hash) => h == 1 && k >= 4, (k: nat) => txs, (k: nat) => 0, (k: nat) => 0,
      (k: nat, j: nat, keys: set<nat>) => [])
  }

  lemma Answered(i: nat, txs: seq<Hash>)
    ensures var c := Cfg(i, txs);
      && !c.watchOnly && c.antiMEVHeight == -1 && !c.dynamicBlockTime && c.timestampIncrement == 1
      && (forall h: nat :: c.validators(h) == 4 && c.keyIndex(h) == i)
      && (forall k: nat, p :: c.verifyPayload(k, p) == (i != 2 && txs != []))
      && (forall k: nat, b :: c.verifyBlock(k, b) == (i != 1))
      && (forall k: nat, b :: c.processBlock(k, b))
      && (forall k: nat, h :: c.getTx(k, h) == (h == 1 && k >= 4))
      && (forall k: nat :: c.getVerified(k) == txs && c.random(k) == c.now(k) == 0)
  {
  }

  function Cfgs(txs: seq<Hash>): seq<Config> {
    [Cfg(0, txs), Cfg(1, txs), Cfg(2, txs)]
  }

  function Four(h: nat): pos {
    4
  }

  lemma OneFaulty(txs: seq<Hash>)
    ensures Network(Cfgs(txs), Four)
  {
    var cfgs := Cfgs(txs);
    forall h: nat
      ensures |Faulty(cfgs, Four, h)| <= F(Four(h))
    {
      forall i | 0 <= i < 3
        ensures CorrectIndex(cfgs, h, i)
      {
        assert IsNode(cfgs, i) && IndexAt(cfgs[i], h) == i;
      }
      SubsetSize(Faulty(cfgs, Four, h), {3});
    }
  }

  // What is sent: the request of view 0, two ChangeViews, the request of view 1.
  function Request(txs: seq<Hash>): Payload {
    Payload(4, 0, 0, PrepareRequest(1, 0, txs))
  }

  function Leave(i: nat, reason: Reason): Payload {
    Payload(4, 0, i, ChangeView(1, reason))
  }

  function Overtaking(): Payload {
    Payload(4, 1, 3, PrepareRequest(5, 5, [3]))
  }

  lemma Primaries()
    ensures GetPrimaryIndex(4, 0, 4) == 0 && GetPrimaryIndex(4, 1, 4) == 3 && F(4) == 1 && M(4) == 3
  {
  }

  // ---- the start ----

  lemma PublishSends(cfg: Config, s: State, p: Payload)
    requires s.core.me >= 0 && s.core.preps == map[] && s.core.n == 4
    ensures p in Publish(cfg, s, p).core.sent
  {
    hide SendCommit, SendPreCommit, CheckCommit, CheckPreCommit;
    Primaries();
    SubsetSize(Voters(map[s.core.me := p], 4, InView(s.core.view)), {s.core.me});
  }

  lemma ProposerStarts(txs: seq<Hash>)
    ensures Request(txs) in Start(Cfg(0, txs), Blank(), 4, 0).core.sent
  {
    hide Cfg, CheckPrepare;
    Answered(0, txs);
    Primaries();
    var cfg, s := Cfg(0, txs), ResetHeight(Cfg(0, txs), Blank(), 4, 0);
    assert CachedMail(cfg, s) == [] && Initialize(cfg, s) == TakeMail(s);
    var s1 := Fill(cfg, TakeMail(s));
    var p := Own(s1.core, PrepareRequest(s1.rest.timestamp, s1.rest.nonce, s1.rest.txs));
    assert p == Request(txs);
    PublishSends(cfg, s1, p);
  }

  // Validators 1 and 2 before anything happens.
  predicate Fresh(s: State, i: nat) {
    && s.core.height == 4 && s.core.n == 4 && s.core.me == i && s.core.primary == 0 && s.core.view == 0
    && s.core.preps == s.core.preCommits == s.core.commits == s.core.changeViews == map[]
    && !s.core.blockProcessed && !s.core.preBlockProcessed && s.core.sent == []
    && s.rest.lastSeen == map[i := HeightView(4, 0)] && s.rest.mail == map[] && s.rest.calls == 1 && !s.rest.crashed
    && s.rest.txs == [] && s.rest.transactions == {} && s.rest.missing == []
    && s.rest.header == s.rest.block == None
  }

  lemma BackupStarts(i: nat, txs: seq<Hash>)
    requires 1 <= i < 3
    ensures Fresh(Start(Cfg(i, txs), Blank(), 4, 0), i)
  {
    hide Cfg, SendPrepareRequest;
    Answered(i, txs);
    Primaries();
    var cfg, s := Cfg(i, txs), ResetHeight(Cfg(i, txs), Blank(), 4, 0);
    assert CachedMail(cfg, s) == [] && Initialize(cfg, s) == TakeMail(s);
  }

  // ---- validator 2 refuses the request ----

  lemma VotersOf(slots: Slots, k: Criterion)
    requires forall i :: i in slots ==> 0 <= i < 4
    ensures Voters(slots, 4, k) <= slots.Keys
  {
  }

  // A validator that refuses the request asks for view 1.
  lemma Refusing(s: State, i: nat, txs: seq<Hash>)
    requires Fresh(s, i) && 1 <= i < 3 && (i == 2 || txs == [])
    ensures var r, p := OnReceive(Cfg(i, txs), s, Request(txs)), Leave(i, CVBlockRejectedByPolicy);
      && r.core == s.core.(delivered := r.core.delivered, sent := [p], changeViews := map[i := p])
      && !r.rest.crashed
  {
    hide Cfg, AdoptRequest, CreateAndCheckBlock, Respond, GetPrimaryIndex, See, Voters, Initialize, ResetView;
    hide MoreThanFNodesCommittedOrLost;
    Answered(i, txs);
    Primaries();
    var cfg, p := Cfg(i, txs), Request(txs);
    assert OnReceive(cfg, s, p) == OnPrepareRequest(cfg, Taken(s, p), p);
    var t := MakeChangeView(Tick(Taken(s, p)), CVBlockRejectedByPolicy);
    SubsetSize(Voters(t.core.changeViews, 4, AsksFor(1)), {i}) by {
      VotersOf(t.core.changeViews, AsksFor(1));
    }
    assert SendChangeView(cfg, Tick(Taken(s, p)), CVBlockRejectedByPolicy) == t;
  }

  // ---- validator 1 ----

  // The request is known; `have` is collected, `list` is missing, the voters have asked for view 1.
  predicate Waits(s: State, txs: seq<Hash>, have: set<Hash>, list: seq<Hash>, votes: Slots) {
    && s.core.height == 4 && s.core.n == 4 && s.core.me == 1 && s.core.primary == 0 && s.core.view == 0
    && s.core.preps == map[0 := Request(txs)] && s.core.preCommits == s.core.commits == map[]
    && s.core.changeViews == votes && !s.core.blockProcessed && !s.core.preBlockProcessed
    && !s.rest.crashed && s.rest.txs == txs && s.rest.transactions == have && s.rest.missing == list
    && s.rest.header == s.rest.block == None && s.rest.lastSeen.Keys <= {0, 1, 2, 3} && s.rest.mail == map[]
  }

  function Missed(s: State, h: Hash): State {
    Tick(s).(rest := Tick(s).rest.(missing := s.rest.missing + [h]))
  }

  // What the pool answers for one transaction.
  lemma Looked(cfg: Config, s: State, h: Hash, more: seq<Hash>)
    requires h !in s.rest.transactions
    ensures ProcessMissingTx(cfg, s, [h] + more)
         == if cfg.getTx(s.rest.calls, h)
            then ProcessMissingTx(cfg, Tick(Collected(s, h)), more) else ProcessMissingTx(cfg, Missed(s, h), more)
  {
    assert ([h] + more)[1..] == more;
  }

  // When the request comes, the pool knows none of its transactions.
  lemma NothingFound(s: State, txs: seq<Hash>)
    requires (txs == [1, 2] || txs == [2]) && s.rest.calls == 2 && s.rest.transactions == {} && s.rest.missing == []
    ensures ProcessMissingTx(Cfg(1, txs), s, txs) == s.(rest := s.rest.(missing := txs, calls := 2 + |txs|))
  {
    hide Cfg;
    Answered(1, txs);
    var cfg := Cfg(1, txs);
    if txs == [1, 2] {
      assert txs == [1] + [2] && [2] == [2] + [];
      Looked(cfg, s, 1, [2]);
      Looked(cfg, Missed(s, 1), 2, []);
    } else {
      assert txs == [2] + [];
      Looked(cfg, s, 2, []);
    }
  }

  lemma RequestComes(s: State, txs: seq<Hash>)
    requires Fresh(s, 1) && (txs == [1, 2] || txs == [2])
    ensures var r := OnReceive(Cfg(1, txs), s, Request(txs));
      Waits(r, txs, {}, txs, map[]) && r.rest.calls == 2 + |txs| && r.rest.lastSeen.Keys == {0, 1}
  {
    hide Cfg, GetPrimaryIndex, VerifyPreCommits, CreateAndCheckBlock, SendChangeView, Respond, BlockOK;
    hide ProcessMissingTx;
    hide MakeHeader, Genuine;
    Answered(1, txs);
    Primaries();
    var cfg, p := Cfg(1, txs), Request(txs);
    assert OnReceive(cfg, s, p) == OnPrepareRequest(cfg, Taken(s, p), p);
    var t := Tick(Taken(s, p));
    NothingFound(t.(rest := t.rest.(timestamp := 1, nonce := 0, txs := txs)), txs);
    assert !AnyInView(t.core.commits, 4, 0);
    assert Answering(map[], 4, p) == map[];
  }

  lemma SomeFound(s: State)
    requires s.rest.calls >= 4 && s.rest.transactions == {} && s.rest.missing == [1, 2]
    ensures var r := ProcessMissingTx(Cfg(1, [1, 2]), s, [1, 2]);
      r == s.(rest := s.rest.(transactions := {1}, missing := [1, 2, 2], calls := r.rest.calls))
  {
    hide Cfg;
    Answered(1, [1, 2]);
    var cfg, t := Cfg(1, [1, 2]), Tick(Collected(s, 1));
    assert [1, 2] == [1] + [2] && [2] == [2] + [] && [1, 2] + [2] == [1, 2, 2];
    Looked(cfg, s, 1, [2]);
    Looked(cfg, t, 2, []);
  }

  // On the timeout too many validators are lost: the node asks the pool again, which knows transaction 1 by now. That
  // one stays on the list all the same, and 2 is on it twice.
  lemma LooksAgain(s: State)
    requires Waits(s, [1, 2], {}, [1, 2], map[]) && s.rest.calls >= 4 && s.rest.lastSeen.Keys == {0, 1}
    ensures Waits(OnTimeout(Cfg(1, [1, 2]), s, 4, 0, false), [1, 2], {1}, [1, 2, 2], map[])
  {
    hide Cfg, ProcessMissingTx, CheckChangeView, MakeChangeView, GetPrimaryIndex;
    Answered(1, [1, 2]);
    Primaries();
    var cfg := Cfg(1, [1, 2]);
    assert HasFailed(s, 2) && HasFailed(s, 3);
    SubsetSize({2, 3}, Failed(s));
    assert SendChangeView(cfg, s, CVTimeout) == SendRecoveryRequest(cfg, s);
    SomeFound(s);
  }

  lemma VoteComes(s: State, txs: seq<Hash>, have: set<Hash>, list: seq<Hash>, votes: Slots, p: Payload)
    requires Waits(s, txs, have, list, votes) && votes.Keys <= {2} && (p.from == 2 || p.from == 3)
    requires (exists reason :: p == Leave(p.from, reason)) && forall i :: i in votes ==> votes[i].NewView() <= 1
    ensures Waits(OnReceive(Cfg(1, txs), s, p), txs, have, list, votes[p.from := p])
  {
    hide Cfg, GetPrimaryIndex, Initialize, ResetView, MakeChangeView, Voters, OnRecoveryRequest;
    Answered(1, txs);
    Primaries();
    var cfg := Cfg(1, txs);
    assert OnReceive(cfg, s, p) == OnChangeView(cfg, Taken(s, p), p);
    var slots := votes[p.from := p];
    VotersOf(slots, AsksFor(1));
    SubsetSize(Voters(slots, 4, AsksFor(1)), {2, 3});
    assert |Voters(slots, 4, AsksFor(1))| < M(4);
    var t := Taken(s, p);
    assert OnChangeView(cfg, t, p) == t.(core := t.core.(changeViews := slots));
  }

  // The last state before the call: M - 1 votes, and the cached request of view 1.
  predicate Overtaken(s: State, txs: seq<Hash>, have: set<Hash>, list: seq<Hash>) {
    && Waits(s.(rest := s.rest.(mail := map[])), txs, have, list, s.core.changeViews)
    && s.core.changeViews.Keys == {2, 3} && s.core.changeViews[2].NewView() == s.core.changeViews[3].NewView() == 1
    && s.rest.mail == map[4 := EMPTY_INBOX.(prepare := map[3 := Overtaking()])]
  }

  lemma RequestIsCached(s: State, txs: seq<Hash>, have: set<Hash>, list: seq<Hash>, votes: Slots)
    requires Waits(s, txs, have, list, votes) && votes.Keys == {2, 3} && votes[2].NewView() == votes[3].NewView() == 1
    ensures Overtaken(OnReceive(Cfg(1, txs), s, Overtaking()), txs, have, list)
  {
    hide Dispatch, See, Cfg, GetPrimaryIndex;
    var r := OnReceive(Cfg(1, txs), s, Overtaking());
    assert r == Cache(Deliver(s, Overtaking()), Overtaking());
  }

  lemma Asked(slots: Slots, k: Criterion)
    requires Votes(slots, 2, k) && Votes(slots, 3, k)
    ensures {2, 3} <= Voters(slots, 4, k)
  {
  }

  // Transaction 2 completes the block, which is refused: the view is left and the other request adopted.
  lemma TakesOver(s: State, txs: seq<Hash>, have: set<Hash>, list: seq<Hash>)
    requires Overtaken(s, txs, have, list) && 2 in list && |txs| == |have + {2}|
    ensures var cfg, q := Cfg(1, txs), Overtaking();
      Adopts(cfg, s, 2, q) && NewList(cfg, s, q) == [3] && NewTransactions(cfg, s, q) == {}
  {
    hide Cfg, Voters, Turn, MoreThanFNodesCommittedOrLost;
    Answered(1, txs);
    Primaries();
    var k := AsksFor(1);
    assert {1, 2, 3} <= Voters(s.core.changeViews, 4, k) + {1} by {
      assert Votes(s.core.changeViews, 2, k) && Votes(s.core.changeViews, 3, k);
      Asked(s.core.changeViews, k);
    }
    SubsetSize({1, 2, 3}, Voters(s.core.changeViews, 4, k) + {1});
    var u := Turn(Cfg(1, txs), s, Overtaking()) + 1;
    assert [3][1..] == [];
    assert Unfound(Cfg(1, txs), u, [3], {}) == [3] && Found(Cfg(1, txs), u, [3], {}) == {};
  }

  // ---- the runs ----

  lemma Starts(txs: seq<Hash>) returns (nodes: Nodes)
    ensures Reachable(Cfgs(txs), nodes) && |nodes| == 3
    ensures Request(txs) in nodes[0].core.sent && Fresh(nodes[1], 1) && Fresh(nodes[2], 2)
  {
    hide Start, Cfg, Fresh;
    nodes := seq(3, (a: nat) => Start(Cfg(a, txs), Blank(), 4, 0));
    ProposerStarts(txs);
    BackupStarts(1, txs);
    BackupStarts(2, txs);
    forall a | IsNode(Cfgs(txs), a)
      ensures exists h, ts :: nodes[a] == Start(Cfgs(txs)[a], Blank(), h, ts)
    {
      assert nodes[a] == Start(Cfgs(txs)[a], Blank(), 4, 0);
    }
    InitReaches(Cfgs(txs), nodes);
  }

  // One message reaches one node; it comes from validator 3 or was sent by its owner.
  lemma Delivered(txs: seq<Hash>, nodes: Nodes, a: nat, p: Payload) returns (nodes': Nodes)
    requires Reachable(Cfgs(txs), nodes) && |nodes| == 3 && a < 3 && !p.body.Recovery? && p.from < 4
    requires p.from == 3 || p in nodes[p.from].core.sent
    ensures Reachable(Cfgs(txs), nodes') && nodes' == nodes[a := OnReceive(Cfg(a, txs), nodes[a], p)]
  {
    hide OnReceive, Reachable;
    assert Input(Received(p)) == {p};
    assert Authentic(Cfgs(txs), nodes, p);
    nodes' := MoveReaches(Cfgs(txs), nodes, a, Received(p));
  }

  // Validator 2 has refused the request, validator 1 waits for its transactions.
  lemma RequestIsOut(txs: seq<Hash>) returns (nodes: Nodes)
    requires txs == [1, 2] || txs == [2]
    ensures Reachable(Cfgs(txs), nodes) && |nodes| == 3
    ensures Leave(2, CVBlockRejectedByPolicy) in nodes[2].core.sent
    ensures Waits(nodes[1], txs, {}, txs, map[]) && nodes[1].rest.calls == 2 + |txs|
    ensures nodes[1].rest.lastSeen.Keys == {0, 1}
  {
    hide OnReceive, Reachable, Cfg, Fresh, Waits;
    nodes := Starts(txs);
    Refusing(nodes[2], 2, txs);
    nodes := Delivered(txs, nodes, 2, Request(txs));
    RequestComes(nodes[1], txs);
    nodes := Delivered(txs, nodes, 1, Request(txs));
  }

  lemma VotesAndCache(txs: seq<Hash>, have: set<Hash>, list: seq<Hash>, before: Nodes) returns (nodes: Nodes)
    requires Reachable(Cfgs(txs), before) && |before| == 3 && Waits(before[1], txs, have, list, map[])
    requires Leave(2, CVBlockRejectedByPolicy) in before[2].core.sent
    ensures Reachable(Cfgs(txs), nodes) && |nodes| == 3 && Overtaken(nodes[1], txs, have, list)
  {
    hide OnReceive, Reachable, Cfg, Waits, Overtaken;
    var p, q := Leave(2, CVBlockRejectedByPolicy), Leave(3, CVTimeout);
    VoteComes(before[1], txs, have, list, map[], p);
    nodes := Delivered(txs, before, 1, p);
    VoteComes(nodes[1], txs, have, list, map[2 := p], q);
    nodes := Delivered(txs, nodes, 1, q);
    RequestIsCached(nodes[1], txs, have, list, map[2 := p, 3 := q]);
    nodes := Delivered(txs, nodes, 1, Overtaking());
  }

  lemma LastCall(txs: seq<Hash>, nodes: Nodes, e: Event) returns (nodes': Nodes)
    requires Reachable(Cfgs(txs), nodes) && |nodes| == 3 && e.ProposedTransaction?
    ensures Reachable(Cfgs(txs), nodes') && nodes' == nodes[1 := OnTransaction(Cfg(1, txs), nodes[1], e.tx)]
    ensures Ready(Cfg(1, txs), {}, nodes[1])
  {
    hide Reachable, OnTransaction, P.Inv, Coherent;
    A.ReachableOK(Cfgs(txs), nodes);
    assert NodeOK(Cfgs(txs), nodes, 1);
    nodes' := MoveReaches(Cfgs(txs), nodes, 1, e);
  }

  lemma NobodyRefuses(txs: seq<Hash>)
    ensures forall a, k: nat, b :: 0 <= a < 3 ==> Cfgs(txs)[a].processBlock(k, b)
  {
  }

  lemma AskedTwice() returns (nodes: Nodes)
    ensures Reachable(Cfgs([1, 2]), nodes) && |nodes| == 3 && Overtaken(nodes[1], [1, 2], {1}, [1, 2, 2])
  {
    hide OnReceive, OnTimeout, Reachable, Cfg, Waits, Overtaken;
    var txs := [1, 2];
    nodes := RequestIsOut(txs);
    LooksAgain(nodes[1]);
    assert Input(Timeout(4, 0)) == {};
    nodes := MoveReaches(Cfgs(txs), nodes, 1, Timeout(4, 0));
    nodes := VotesAndCache(txs, {1}, [1, 2, 2], nodes);
  }

  lemma StandsSecond(s: State)
    requires Overtaken(s, [1, 2], {1}, [1, 2, 2])
    ensures IndexOf(s.rest.missing, 2) == 1 && !s.rest.crashed && s.core.view == 0
  {
  }

  // The list after a call that takes up a request and panics is the new one.
  lemma Replaced(cfg: Config, s: State, tx: Hash, q: Payload)
    requires Ready(cfg, {}, s) && !s.rest.crashed && Adopts(cfg, s, tx, q)
    requires |NewList(cfg, s, q)| <= IndexOf(s.rest.missing, tx)
    ensures var r := OnTransaction(cfg, s, tx); r.rest.missing == NewList(cfg, s, q) && r.core.view == s.core.view + 1
  {
    hide P.Inv, P.Unforged, Coherent, AddTransaction, Initialize, Left, Refused, IndexOf, Turn, Unfound, Found;
    hide HasAllTransactions, BlockOK, Voters, P.Reaches;
    AfterAdding(cfg, s, tx);
    LeavesExactly(cfg, s, tx);
  }

  /** A reachable state in which the process of a correct node is dead, though no block was ever refused by a ledger:
      the transaction that came last stood second on the old list, and the new list has one entry. */
  lemma PanicIsReachable() returns (nodes: Nodes)
    ensures Network(Cfgs([1, 2]), Four) && Reachable(Cfgs([1, 2]), nodes) && |nodes| == 3
    ensures nodes[1].rest.crashed && nodes[1].core.view == 1 && nodes[1].rest.missing == [3]
    ensures forall a, k: nat, b :: 0 <= a < 3 ==> Cfgs([1, 2])[a].processBlock(k, b)
  {
    hide OnReceive, OnTimeout, OnTransaction, Reachable, Cfg, Waits, Overtaken, Network, Adopts, Ready, NewList;
    var txs := [1, 2];
    OneFaulty(txs);
    NobodyRefuses(txs);
    nodes := AskedTwice();
    var s := nodes[1];
    TakesOver(s, txs, {1}, [1, 2, 2]);
    nodes := LastCall(txs, nodes, ProposedTransaction(2));
    StandsSecond(s);
    PanicsExactly(Cfg(1, txs), s, 2);
    Replaced(Cfg(1, txs), s, 2, Overtaking());
  }

  lemma StandsFirst(s: State)
    requires Overtaken(s, [2], {}, [2])
    ensures IndexOf(s.rest.missing, 2) == 0 && !s.rest.crashed && s.core.view == 0
  {
  }

  lemma NeverRefused(s: State, r: State)
    ensures !Refused(Cfg(1, [2]), s, r)
  {
  }

  lemma TookOff(s: State)
    requires var cfg, q := Cfg(1, [2]), Overtaking();
      && Ready(cfg, {}, s) && !s.rest.crashed && s.core.view == 0 && Adopts(cfg, s, 2, q)
      && NewList(cfg, s, q) == [3] && NewTransactions(cfg, s, q) == {} && IndexOf(s.rest.missing, 2) == 0
    ensures var r := OnTransaction(Cfg(1, [2]), s, 2);
      && !r.rest.crashed && r.core.view == 1 && !ListOK(r)
      && r.rest.txs == [3] && r.rest.transactions == {} && r.rest.missing == []
  {
    hide P.Inv, P.Unforged, Coherent, AddTransaction, Initialize, Left, Turn, Unfound, Found, Cfg, IndexOf;
    hide HasAllTransactions, BlockOK, Voters, P.Reaches, Refuses;
    Answered(1, [2]);
    AfterAdding(Cfg(1, [2]), s, 2);
    LeavesExactly(Cfg(1, [2]), s, 2);
    NeverRefused(s, AddTransaction(Cfg(1, [2]), s, 2));
    assert [3][..0] + [3][1..] == [];
    assert 3 in OnTransaction(Cfg(1, [2]), s, 2).rest.txs;
  }

  /** A reachable state in which a correct node has adopted a request whose only transaction it neither has nor misses;
      when the transaction comes, it is ignored. */
  lemma LossIsReachable() returns (nodes: Nodes)
    ensures Network(Cfgs([2]), Four) && Reachable(Cfgs([2]), nodes) && |nodes| == 3
    ensures !nodes[1].rest.crashed && nodes[1].core.view == 1 && !ListOK(nodes[1])
    ensures nodes[1].rest.txs == [3] && nodes[1].rest.transactions == {} && nodes[1].rest.missing == []
    ensures OnTransaction(Cfg(1, [2]), nodes[1], 3) == nodes[1]
  {
    hide OnReceive, OnTransaction, Reachable, Cfg, Waits, Overtaken, Network, Adopts, Ready, NewList, NewTransactions;
    var txs := [2];
    OneFaulty(txs);
    nodes := RequestIsOut(txs);
    nodes := VotesAndCache(txs, {}, [2], nodes);
    var s := nodes[1];
    TakesOver(s, txs, {}, [2]);
    nodes := LastCall(txs, nodes, ProposedTransaction(2));
    StandsFirst(s);
    TookOff(s);
    NotAwaiting(Cfg(1, txs), nodes[1], 3);
  }
}
