/** A reachable state in which a correct node holds ChangeViews of M validators that ask to leave its view, and stays in
    it: a recovery message brought them in an order in which the last one asks for more than the others. */
module MixedVotes {
  import opened Quorum
  import opened Payloads
  import opened NodeState
  import opened NodeSpec
  import opened Refinement
  import opened Cluster
  import opened CatchUp
  import opened StaleIndex
  import P = Protocol

  // Validator 3 is in view 1 already, and asks for view 2.
  function Ahead(): Payload {
    Payload(4, 1, 3, ChangeView(2, CVTimeout))
  }

  function Vote(i: nat): Payload {
    Leave(i, CVBlockRejectedByPolicy)
  }

  function Mixed(): Payload {
    Payload(4, 1, 3, Recovery([Vote(1), Vote(2), Ahead()]))
  }

  lemma TooFewVotes(b: Poll, p: Payload, few: set<int>)
    requires b.n == 4 && |few| < 3 && p.body.ChangeView?
    requires forall i :: Votes(Noted(b, p).votes, i, AsksFor(p.body.newView)) ==> i in few
    ensures !Decides(b, p)
  {
    hide Counts;
    Primaries();
    SubsetSize(Voters(Noted(b, p).votes, 4, AsksFor(p.body.newView)), few);
  }

  // Votes for view 1 of fewer than three validators do not decide, and the vote for view 2 stands alone.
  lemma NoneDecides(b: Poll)
    requires b == Poll(4, 4, 0, map[1 := Vote(1)])
    ensures var msgs := [Vote(1), Vote(2), Ahead()];
      !SomeDecides(b, msgs) && NotedAll(b, msgs).votes == map[1 := Vote(1), 2 := Vote(2), 3 := Ahead()]
  {
    hide SomeDecides, Voters, Decides;
    Primaries();
    var c := b.(votes := map[1 := Vote(1), 2 := Vote(2)]);
    var d := b.(votes := map[1 := Vote(1), 2 := Vote(2), 3 := Ahead()]);
    var msgs := [Vote(1), Vote(2), Ahead()];
    assert msgs[1..] == [Vote(2), Ahead()] && msgs[1..][1..] == [Ahead()] && msgs[1..][1..][1..] == [];
    assert Noted(b, Vote(1)) == b && Noted(b, Vote(2)) == c && Noted(c, Ahead()) == d;
    RestDecides(b, msgs);
    RestDecides(b, msgs[1..]);
    RestDecides(c, msgs[1..][1..]);
    Undecided(d);
    TooFewVotes(b, Vote(1), {1});
    TooFewVotes(b, Vote(2), {1, 2});
    TooFewVotes(c, Ahead(), {3});
  }

  // Validators 1 and 2 refuse the empty request.
  lemma BothRefuse() returns (nodes: Nodes)
    ensures Reachable(Cfgs([]), nodes) && |nodes| == 3
    ensures Vote(1) in nodes[1].core.sent && Vote(2) in nodes[2].core.sent
    ensures Free(Cfg(1, []), nodes[1]) && PollOf(nodes[1].core) == Poll(4, 4, 0, map[1 := Vote(1)])
  {
    hide OnReceive, Reachable, Cfg;
    nodes := Starts([]);
    Refusing(nodes[2], 2, []);
    nodes := Delivered([], nodes, 2, Request([]));
    Refusing(nodes[1], 1, []);
    nodes := Delivered([], nodes, 1, Request([]));
  }

  lemma MixedIsAuthentic(nodes: Nodes)
    requires |nodes| == 3 && Vote(1) in nodes[1].core.sent && Vote(2) in nodes[2].core.sent
    ensures forall p :: p in Input(Received(Mixed())) ==> Authentic(Cfgs([]), nodes, p)
  {
    hide Cfg;
    Answered(0, []);
    Answered(1, []);
    Answered(2, []);
  }

  lemma ThreeVote(votes: Slots)
    requires votes == map[1 := Vote(1), 2 := Vote(2), 3 := Ahead()]
    ensures {1, 2, 3} <= Voters(votes, 4, AsksFor(1))
  {
  }

  /** Validator 1 of four has refused the request and asked for view 1. A recovery message brings the ChangeView of
      validator 2 for view 1 and then that of validator 3 for view 2. Three validators ask to leave view 0 now, and the
      node stays in it. */
  lemma QuorumIsIgnored() returns (nodes: Nodes)
    ensures Network(Cfgs([]), Four) && Reachable(Cfgs([]), nodes) && |nodes| == 3
    ensures Free(Cfg(1, []), nodes[1]) && nodes[1].core.view == 0
    ensures |Voters(nodes[1].core.changeViews, nodes[1].core.n, AsksFor(1))| >= M(nodes[1].core.n)
  {
    hide OnReceive, Reachable, Cfg, Network, SomeDecides, NotedAll, Voters, Free;
    OneFaulty([]);
    Primaries();
    nodes := BothRefuse();
    var s, items := nodes[1], [Vote(1), Vote(2), Ahead()];
    MixedIsAuthentic(nodes);
    assert items[1..] == [Vote(2), Ahead()] && items[1..][1..] == [Ahead()];
    assert Unpack(items, ChangeViewType) == items;
    NoneDecides(PollOf(s.core));
    NotedEpoch(PollOf(s.core), items);
    RecoveryDecides(Cfg(1, []), s, Mixed());
    nodes := MoveReaches(Cfgs([]), nodes, 1, Received(Mixed()));
    ThreeVote(nodes[1].core.changeViews);
    SubsetSize({1, 2, 3}, Voters(nodes[1].core.changeViews, 4, AsksFor(1)));
  }
}
