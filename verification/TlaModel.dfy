/** The two TLA+ specifications that code implements: formal-models/dbft/dbft.tla and, with one more phase,
    formal-models/dbft_antiMEV/dbft.tla, for every number of nodes and every view. */
module TlaModel {
  import opened Quorum

  datatype Kind = Initialized | PrepareSent | CommitSent | CV | CommitAckSent | BlockAccepted | Bad | Dead

  datatype Node = Node(kind: Kind, view: nat)

  datatype Tag = PrepareRequest | PrepareResponse | Commit | CommitAck | ChangeView

  datatype Message = Message(tag: Tag, rm: int, view: nat)

  datatype State = State(rm: map<int, Node>, msgs: set<Message>)

  // The constants; `antiMEV` selects the specification with the CommitAck phase. The nodes are any naturals, so a
  // view may have no primary among them; then the choice of one is some value, always the same.
  datatype Model = Model(rm: set<int>, someone: int, fault: set<int>, dead: set<int>, antiMEV: bool) {
    function N(): (n: pos)
      ensures rm != {} ==> n == |rm|
    {
      if rm == {} then 1 else |rm|
    }

    function GetPrimary(view: nat): int {
      if view % N() in rm then view % N() else someone
    }
  }

  predicate Assumptions(m: Model) {
    && 0 in m.rm && (forall r :: r in m.rm ==> r >= 0) && |m.rm| >= 4
    && m.fault <= m.rm && m.dead <= m.rm
    && |m.fault| <= F(m.N()) && |m.dead| <= F(m.N()) && |m.fault + m.dead| <= F(m.N())
  }

  // ---- operators ----

  predicate IsPrimary(m: Model, s: State, r: int)
    requires r in s.rm
  {
    s.rm[r].view % m.N() == r
  }

  function With(s: State, tag: Tag, view: nat): set<Message> {
    set x | x in s.msgs && x.tag == tag && x.view == view
  }

  function Prepared(s: State, view: nat): set<Message> {
    set x | x in s.msgs && x.tag in {PrepareResponse, PrepareRequest} && x.view == view
  }

  function OfKind(s: State, k: Kind): set<int> {
    set r | r in s.rm && s.rm[r].kind == k
  }

  predicate HasCommitted(s: State, r: int) {
    exists x :: x in s.msgs && x.rm == r && x.tag == Commit
  }

  predicate MoreThanFNodesCommitted(m: Model, s: State) {
    |set r | r in m.rm && HasCommitted(s, r)| > F(m.N())
  }

  predicate RequestKnown(m: Model, s: State, view: nat) {
    Message(PrepareRequest, m.GetPrimary(view), view) in s.msgs
  }

  // r asked to leave the given view or a later one.
  predicate Leaves(s: State, r: int, view: nat) {
    exists x :: x in s.msgs && x.tag == ChangeView && x.rm == r && x.view + 1 >= view + 1
  }

  // ---- steps ----

  function Becomes(s: State, r: int, k: Kind): State
    requires r in s.rm
  {
    s.(rm := s.rm[r := s.rm[r].(kind := k)])
  }

  function Sends(s: State, r: int, tag: Tag): State
    requires r in s.rm
  {
    s.(msgs := s.msgs + {Message(tag, r, s.rm[r].view)})
  }

  function BecomesAndSends(s: State, r: int, k: Kind, tag: Tag): State
    requires r in s.rm
  {
    Sends(Becomes(s, r, k), r, tag)
  }

  ghost predicate Init(m: Model, s: State) {
    s == State(map r | r in m.rm :: Node(Initialized, 0), {})
  }

  ghost predicate SendPrepareRequest(m: Model, s: State, s': State, r: int)
    requires r in s.rm
  {
    && s.rm[r].kind == Initialized && IsPrimary(m, s, r)
    && s' == BecomesAndSends(s, r, PrepareSent, PrepareRequest)
  }

  ghost predicate SendPrepareResponse(m: Model, s: State, s': State, r: int)
    requires r in s.rm
  {
    && (s.rm[r].kind == Initialized || (s.rm[r].kind == CV && MoreThanFNodesCommitted(m, s)))
    && !IsPrimary(m, s, r) && RequestKnown(m, s, s.rm[r].view)
    && s' == BecomesAndSends(s, r, PrepareSent, PrepareResponse)
  }

  ghost predicate SendCommit(m: Model, s: State, s': State, r: int)
    requires r in s.rm
  {
    && (s.rm[r].kind == PrepareSent || (s.rm[r].kind == CV && MoreThanFNodesCommitted(m, s)))
    && |Prepared(s, s.rm[r].view)| >= M(m.N()) && RequestKnown(m, s, s.rm[r].view)
    && s' == BecomesAndSends(s, r, CommitSent, Commit)
  }

  ghost predicate SendCommitAck(m: Model, s: State, s': State, r: int)
    requires r in s.rm
  {
    && m.antiMEV && s.rm[r].kind !in {Bad, Dead, CommitAckSent, BlockAccepted}
    && RequestKnown(m, s, s.rm[r].view) && |With(s, Commit, s.rm[r].view)| >= M(m.N())
    && s' == BecomesAndSends(s, r, CommitAckSent, CommitAck)
  }

  ghost predicate AcceptBlock(m: Model, s: State, s': State, r: int)
    requires r in s.rm
  {
    && (if m.antiMEV then
          s.rm[r].kind == CommitAckSent && |With(s, CommitAck, s.rm[r].view)| >= M(m.N())
        else
          && s.rm[r].kind !in {Bad, Dead} && RequestKnown(m, s, s.rm[r].view)
          && |With(s, Commit, s.rm[r].view)| >= M(m.N()))
    && s' == Becomes(s, r, BlockAccepted)
  }

  ghost predicate SendChangeView(m: Model, s: State, s': State, r: int)
    requires r in s.rm
  {
    && ((s.rm[r].kind == Initialized && !IsPrimary(m, s, r)) || s.rm[r].kind == PrepareSent)
    && Message(ChangeView, r, s.rm[r].view) !in s.msgs
    && s' == BecomesAndSends(s, r, CV, ChangeView)
  }

  ghost predicate ReceiveChangeView(m: Model, s: State, s': State, r: int)
    requires r in s.rm
  {
    && s.rm[r].kind !in {Bad, Dead, BlockAccepted, CommitSent, CommitAckSent}
    && |set q | q in m.rm && Leaves(s, q, s.rm[r].view)| >= M(m.N())
    && s' == s.(rm := s.rm[r := Node(Initialized, s.rm[r].view + 1)])
  }

  ghost predicate TurnBad(m: Model, s: State, s': State, r: int)
    requires r in s.rm
  {
    r in m.fault && |OfKind(s, Bad)| < F(m.N()) && s' == Becomes(s, r, Bad)
  }

  ghost predicate Die(m: Model, s: State, s': State, r: int)
    requires r in s.rm
  {
    r in m.dead && |OfKind(s, Dead)| < F(m.N()) && s' == Becomes(s, r, Dead)
  }

  ghost predicate FaultySend(m: Model, s: State, s': State, r: int, tag: Tag)
    requires r in s.rm
  {
    && (tag == PrepareRequest ==> IsPrimary(m, s, r)) && (tag == PrepareResponse ==> !IsPrimary(m, s, r))
    && (tag == CommitAck ==> m.antiMEV)
    && Message(tag, r, s.rm[r].view) !in s.msgs && s' == Sends(s, r, tag)
  }

  // A bad node sends what it likes under its own name, or moves to the next view.
  ghost predicate Misbehave(m: Model, s: State, s': State, r: int)
    requires r in s.rm
  {
    && s.rm[r].kind == Bad
    && ((exists tag :: FaultySend(m, s, s', r, tag)) || s' == s.(rm := s.rm[r := Node(Bad, s.rm[r].view + 1)]))
  }

  ghost predicate Step(m: Model, s: State, s': State, r: int) {
    && r in m.rm && r in s.rm
    && (|| SendPrepareRequest(m, s, s', r) || SendPrepareResponse(m, s, s', r) || SendCommit(m, s, s', r)
        || SendCommitAck(m, s, s', r) || AcceptBlock(m, s, s', r) || SendChangeView(m, s, s', r)
        || ReceiveChangeView(m, s, s', r) || Die(m, s, s', r) || TurnBad(m, s, s', r) || Misbehave(m, s, s', r))
  }

  // Every behaviour may stutter.
  ghost predicate Next(m: Model, s: State, s': State) {
    s' == s || exists r :: Step(m, s, s', r)
  }

  ghost predicate Behaviour(m: Model, run: seq<State>) {
    run != [] && Init(m, run[0]) && forall i :: 0 <= i < |run| - 1 ==> Next(m, run[i], run[i + 1])
  }

  // ---- the invariants that the specifications claim ----

  ghost predicate TypeOK(m: Model, s: State) {
    && s.rm.Keys == m.rm
    && (forall x :: x in s.msgs ==> x.rm in m.rm && (x.tag == CommitAck ==> m.antiMEV))
    && (forall r :: r in s.rm && s.rm[r].kind == CommitAckSent ==> m.antiMEV)
  }

  ghost predicate InvTwoBlocksAccepted(m: Model, s: State) {
    forall a, b :: a in s.rm && b in s.rm && s.rm[a].kind == BlockAccepted && s.rm[b].kind == BlockAccepted ==>
      s.rm[a].view == s.rm[b].view
  }

  ghost predicate InvFaultNodesCount(m: Model, s: State) {
    |OfKind(s, Bad) + OfKind(s, Dead)| <= F(m.N())
  }

  // ---- what makes them inductive ----

  // A node that never misbehaves commits in one view only, and stays there.
  ghost predicate CommitsStick(m: Model, s: State) {
    forall x :: x in s.msgs && x.tag == Commit && x.rm in s.rm && x.rm !in m.fault ==>
      s.rm[x.rm].kind in {CommitSent, CommitAckSent, BlockAccepted, Dead} && s.rm[x.rm].view == x.view
  }

  // Who confirmed or accepted saw M Commits of its view.
  ghost predicate Backed(m: Model, s: State) {
    forall r :: r in s.rm && s.rm[r].kind in {CommitAckSent, BlockAccepted} ==>
      |With(s, Commit, s.rm[r].view)| >= M(m.N())
  }

  ghost predicate BadIsFaulty(m: Model, s: State) {
    OfKind(s, Bad) <= m.fault && OfKind(s, Dead) <= m.dead
  }

  ghost predicate Inv(m: Model, s: State) {
    TypeOK(m, s) && CommitsStick(m, s) && Backed(m, s) && BadIsFaulty(m, s)
  }

  lemma StepKeepsTypes(m: Model, s: State, s': State, r: int)
    requires Inv(m, s) && Step(m, s, s', r)
    ensures TypeOK(m, s') && s.msgs <= s'.msgs
  {
    hide Backed, CommitsStick, BadIsFaulty, With, MoreThanFNodesCommitted, RequestKnown, IsPrimary, Leaves, Prepared;
    hide OfKind;
  }

  lemma StepKeepsFaults(m: Model, s: State, s': State, r: int)
    requires Inv(m, s) && Step(m, s, s', r)
    ensures BadIsFaulty(m, s')
  {
    hide Backed, CommitsStick, TypeOK, With, MoreThanFNodesCommitted, RequestKnown, IsPrimary, Leaves, Prepared;
  }

  lemma StepKeepsCommits(m: Model, s: State, s': State, r: int)
    requires Inv(m, s) && Step(m, s, s', r)
    ensures CommitsStick(m, s')
  {
    hide Backed, With, MoreThanFNodesCommitted, RequestKnown, IsPrimary, Leaves, Prepared;
  }

  lemma CommitsGrow(s: State, s': State, view: nat)
    requires s.msgs <= s'.msgs
    ensures |With(s', Commit, view)| >= |With(s, Commit, view)|
  {
    SubsetSize(With(s, Commit, view), With(s', Commit, view));
  }

  lemma StepKeepsBacked(m: Model, s: State, s': State, r: int)
    requires Inv(m, s) && Step(m, s, s', r)
    ensures Backed(m, s')
  {
    hide CommitsStick, With, MoreThanFNodesCommitted, RequestKnown, IsPrimary, Leaves, Prepared, BadIsFaulty;
    StepKeepsTypes(m, s, s', r);
    forall q | q in s'.rm && s'.rm[q].kind in {CommitAckSent, BlockAccepted}
      ensures |With(s', Commit, s'.rm[q].view)| >= M(m.N())
    {
      assert |With(s, Commit, s'.rm[q].view)| >= M(m.N());
      CommitsGrow(s, s', s'.rm[q].view);
    }
  }

  lemma InitOK(m: Model, s: State)
    requires Init(m, s)
    ensures Inv(m, s)
  {
  }

  lemma NextKeepsInv(m: Model, s: State, s': State)
    requires Inv(m, s) && Next(m, s, s')
    ensures Inv(m, s') && s.msgs <= s'.msgs
  {
    hide TypeOK, CommitsStick, Backed, BadIsFaulty, Step;
    if s' != s {
      var r :| Step(m, s, s', r);
      StepKeepsTypes(m, s, s', r);
      StepKeepsFaults(m, s, s', r);
      StepKeepsCommits(m, s, s', r);
      StepKeepsBacked(m, s, s', r);
    }
  }

  lemma {:induction false} BehaviourOK(m: Model, run: seq<State>, i: nat)
    requires Behaviour(m, run) && i < |run|
    ensures Inv(m, run[i])
  {
    hide Inv, Next, Init;
    if i == 0 {
      InitOK(m, run[0]);
    } else {
      BehaviourOK(m, run, i - 1);
      NextKeepsInv(m, run[i - 1], run[i]);
    }
  }

  lemma {:induction false} MessagesGrow(m: Model, run: seq<State>, i: nat, j: nat)
    requires Behaviour(m, run) && i <= j < |run|
    ensures run[i].msgs <= run[j].msgs
    decreases j - i
  {
    hide Inv, Next, Init;
    if i < j {
      MessagesGrow(m, run, i, j - 1);
      BehaviourOK(m, run, j - 1);
      NextKeepsInv(m, run[j - 1], run[j]);
    }
  }

  // ---- agreement ----

  function Senders(msgs: set<Message>): set<int> {
    set x | x in msgs :: x.rm
  }

  lemma {:induction false} SendersSize(msgs: set<Message>)
    requires forall x, y :: x in msgs && y in msgs && x.rm == y.rm ==> x == y
    ensures |Senders(msgs)| == |msgs|
    decreases |msgs|
  {
    if msgs == {} {
      assert Senders(msgs) == {};
    } else {
      var x :| x in msgs;
      SendersSize(msgs - {x});
      assert Senders(msgs) == Senders(msgs - {x}) + {x.rm};
    }
  }

  /** Two views that both have M Commits are the same view. */
  lemma OneCommittedView(m: Model, s: State, v: nat, w: nat)
    requires Assumptions(m) && Inv(m, s)
    requires |With(s, Commit, v)| >= M(m.N()) && |With(s, Commit, w)| >= M(m.N())
    ensures v == w
  {
    var a, b := With(s, Commit, v), With(s, Commit, w);
    SendersSize(a);
    SendersSize(b);
    var i := IntersectionWithin(m.rm, m.N(), Senders(a), Senders(b), m.fault);
    assert Message(Commit, i, v) in s.msgs && Message(Commit, i, w) in s.msgs;
  }

  /** The theorem of both specifications, for every N >= 4, every fault and death set within F and every view. */
  lemma Theorem(m: Model, run: seq<State>, i: nat)
    requires Assumptions(m) && Behaviour(m, run) && i < |run|
    ensures TypeOK(m, run[i]) && InvTwoBlocksAccepted(m, run[i]) && InvFaultNodesCount(m, run[i])
  {
    hide Behaviour, With, CommitsStick;
    var s := run[i];
    BehaviourOK(m, run, i);
    forall a, b | a in s.rm && b in s.rm && s.rm[a].kind == BlockAccepted && s.rm[b].kind == BlockAccepted
      ensures s.rm[a].view == s.rm[b].view
    {
      OneCommittedView(m, s, s.rm[a].view, s.rm[b].view);
    }
    SubsetSize(OfKind(s, Bad) + OfKind(s, Dead), m.fault + m.dead);
  }

  /** All CommitAcks of nodes that were not bad when they sent them are for one view, and M Commits back it. */
  lemma AcksInOneView(m: Model, run: seq<State>, i: nat, r: int, j: nat, q: int)
    requires Assumptions(m) && Behaviour(m, run) && i <= j < |run| - 1
    requires r in run[i].rm && SendCommitAck(m, run[i], run[i + 1], r)
    requires q in run[j].rm && SendCommitAck(m, run[j], run[j + 1], q)
    ensures run[i].rm[r].view == run[j].rm[q].view
    ensures |With(run[j], Commit, run[j].rm[q].view)| >= M(m.N())
  {
    hide Behaviour, With, Inv, RequestKnown;
    BehaviourOK(m, run, j);
    MessagesGrow(m, run, i, j);
    CommitsGrow(run[i], run[j], run[i].rm[r].view);
    OneCommittedView(m, run[j], run[i].rm[r].view, run[j].rm[q].view);
  }

  // r accepts its block in this step.
  ghost predicate Accepts(m: Model, s: State, s': State, r: int) {
    r in s.rm && AcceptBlock(m, s, s', r)
  }

  /** No two nodes ever accept in different views, also when one of them turned bad or died in between. */
  lemma AcceptsInOneView(m: Model, run: seq<State>, i: nat, r: int, j: nat, q: int)
    requires Assumptions(m) && Behaviour(m, run) && i <= j < |run| - 1
    requires Accepts(m, run[i], run[i + 1], r) && Accepts(m, run[j], run[j + 1], q)
    ensures run[i].rm[r].view == run[j].rm[q].view
  {
    hide Behaviour, With, TypeOK, CommitsStick, BadIsFaulty, RequestKnown;
    BehaviourOK(m, run, i);
    BehaviourOK(m, run, j);
    MessagesGrow(m, run, i, j);
    CommitsGrow(run[i], run[j], run[i].rm[r].view);
    OneCommittedView(m, run[j], run[i].rm[r].view, run[j].rm[q].view);
  }
}
