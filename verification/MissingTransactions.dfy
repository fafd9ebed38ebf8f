/** The list of missing transactions. A transaction is taken off it at the place where it stood before the call; when
    the call left its view in between, that is a place of another list. Here is exactly when this panics, and exactly
    when a proposed transaction is neither collected nor listed afterwards. */
module MissingTransactions {
  import opened Quorum
  import opened Payloads
  import opened NodeState
  import opened Mailbox
  import opened NodeSpec
  import opened Refinement
  import P = Protocol

  // ---- what the pool answers, from callback number k on ----

  function Unfound(cfg: Config, k: nat, txs: seq<Hash>, have: set<Hash>): seq<Hash>
    decreases |txs|
  {
    if txs == [] then []
    else if txs[0] in have then Unfound(cfg, k, txs[1..], have)
    else if cfg.getTx(k, txs[0]) then Unfound(cfg, k + 1, txs[1..], have + {txs[0]})
    else [txs[0]] + Unfound(cfg, k + 1, txs[1..], have)
  }

  function Found(cfg: Config, k: nat, txs: seq<Hash>, have: set<Hash>): set<Hash>
    decreases |txs|
  {
    if txs == [] then have
    else if txs[0] in have then Found(cfg, k, txs[1..], have)
    else if cfg.getTx(k, txs[0]) then Found(cfg, k + 1, txs[1..], have + {txs[0]})
    else Found(cfg, k + 1, txs[1..], have)
  }

  lemma {:induction false} PoolAnswers(cfg: Config, s: State, txs: seq<Hash>)
    ensures var r, k := ProcessMissingTx(cfg, s, txs).rest, s.rest.calls;
      && r.transactions == Found(cfg, k, txs, s.rest.transactions)
      && r.missing == s.rest.missing + Unfound(cfg, k, txs, s.rest.transactions)
    decreases |txs|
  {
    if txs != [] {
      var h := txs[0];
      var s1 :=
        if h in s.rest.transactions then s
        else if cfg.getTx(s.rest.calls, h) then
          Tick(s).(rest := Tick(s).rest.(transactions := s.rest.transactions + {h}))
        else
          Tick(s).(rest := Tick(s).rest.(missing := s.rest.missing + [h]));
      PoolAnswers(cfg, s1, txs[1..]);
    }
  }

  // ---- what is known before the call ----

  function Collected(s: State, tx: Hash): State {
    s.(rest := s.rest.(transactions := s.rest.transactions + {tx}))
  }

  /** The transaction completes a block that is refused, and M validators, this one included, have asked for the next
      view by now. */
  predicate Leaves(cfg: Config, s: State, tx: Hash) {
    && AwaitsTransactions(cfg, s) && tx in s.rest.missing && !cfg.watchOnly
    && HasAllTransactions(Collected(s, tx)) && !BlockOK(cfg, Collected(s, tx))
    && s.core.view < 255
    && |Voters(s.core.changeViews, s.core.n, AsksFor(s.core.view + 1)) + {s.core.me}| >= M(s.core.n)
  }

  // The cached message of a validator is the request of the next view.
  predicate NextRequest(s: State, q: Payload) {
    var box, p := BoxAt(s.rest.mail, s.core.height), GetPrimaryIndex(s.core.height, s.core.view + 1, s.core.n);
    p in box.prepare && box.prepare[p] == q && q.body.PrepareRequest? && q.view == s.core.view + 1
  }

  function Before(msgs: seq<Payload>, q: Payload): (r: seq<Payload>)
    ensures q in msgs ==> exists j :: 0 <= j < |msgs| && msgs[j] == q && r == msgs[..j]
    ensures q !in r
    decreases |msgs|
  {
    if msgs == [] || msgs[0] == q then []
    else
      var r := [msgs[0]] + Before(msgs[1..], q);
      assert q in msgs ==> q in msgs[1..];
      assert forall j :: 0 <= j < |msgs[1..]| ==> [msgs[0]] + msgs[1..][..j] == msgs[..j + 1];
      assert forall j :: 0 <= j < |msgs[1..]| ==> msgs[1..][j] == msgs[j + 1];
      r
  }

  // A response of the view is verified, which takes one callback.
  function Responses(msgs: seq<Payload>, view: nat, n: nat): nat {
    if msgs == [] then 0
    else
      (if msgs[0].body.PrepareResponse? && msgs[0].view == view && msgs[0].from < n then 1 else 0)
      + Responses(msgs[1..], view, n)
  }

  // The number of the callback that verifies the request: after the check of the block, the order of the replay and
  // the responses that are replayed before the request.
  function Turn(cfg: Config, s: State, q: Payload): nat {
    var replayed := Part(BoxAt(s.rest.mail, s.core.height).prepare, OrderOf(MapOrder(cfg, s.rest.calls + 1), 0));
    s.rest.calls + 2 + Responses(Before(replayed, q), s.core.view + 1, s.core.n)
  }

  // The call leaves the view and takes up the cached request of the next one.
  predicate Adopts(cfg: Config, s: State, tx: Hash, q: Payload) {
    Leaves(cfg, s, tx) && NextRequest(s, q) && cfg.verifyPayload(Turn(cfg, s, q), q)
  }

  function NewList(cfg: Config, s: State, q: Payload): seq<Hash>
    requires q.body.PrepareRequest?
  {
    Unfound(cfg, Turn(cfg, s, q) + 1, q.body.txs, {})
  }

  function NewTransactions(cfg: Config, s: State, q: Payload): set<Hash>
    requires q.body.PrepareRequest?
  {
    Found(cfg, Turn(cfg, s, q) + 1, q.body.txs, {})
  }

  // The old place is beyond the end of the new list.
  ghost predicate Panics(cfg: Config, s: State, tx: Hash) {
    exists q :: Adopts(cfg, s, tx, q) && 0 < |NewList(cfg, s, q)| <= IndexOf(s.rest.missing, tx)
  }

  // The old place holds a transaction of the new list that is nowhere else.
  predicate Drops(list: seq<Hash>, collected: set<Hash>, i: int) {
    0 <= i < |list| && list[i] !in collected && list[i] !in list[..i] + list[i + 1..]
  }

  ghost predicate Loses(cfg: Config, s: State, tx: Hash) {
    exists q :: Adopts(cfg, s, tx, q)
                && Drops(NewList(cfg, s, q), NewTransactions(cfg, s, q), IndexOf(s.rest.missing, tx))
  }

  // ---- leaving the view ----

  function Left(cfg: Config, s: State, tx: Hash): State
    requires s.core.me >= 0 && s.core.view < 255
  {
    var t := MakeChangeView(Tick(BuildBlock(cfg, Collected(s, tx))), CVTxInvalid);
    ResetView(t, s.core.view + 1, t.rest.lastTimestamp)
  }

  lemma OwnVote(s: State, reason: Reason)
    requires 0 <= s.core.me < s.core.n && s.core.view < 255
    ensures var k := AsksFor(s.core.view + 1);
      Voters(MakeChangeView(s, reason).core.changeViews, s.core.n, k)
        == Voters(s.core.changeViews, s.core.n, k) + {s.core.me}
  {
  }

  lemma Asking(cfg: Config, s: State, reason: Reason)
    requires 0 <= s.core.me < s.core.n && !cfg.watchOnly && reason != CVTimeout
    ensures var r, t, c := SendChangeView(cfg, s, reason), MakeChangeView(s, reason), s.core;
      if c.view < 255 && |Voters(c.changeViews, c.n, AsksFor(c.view + 1)) + {c.me}| >= M(c.n)
      then r == Initialize(cfg, ResetView(t, c.view + 1, t.rest.lastTimestamp))
      else r == t
  {
    hide Initialize, ResetView, Voters;
    if s.core.view < 255 {
      OwnVote(s, reason);
    }
  }

  // The transaction that completes a refused block makes the node ask for the next view.
  lemma LeavesOrStays(cfg: Config, s: State, tx: Hash)
    requires AwaitsTransactions(cfg, s) && tx in s.rest.missing && s.core.me < s.core.n
    ensures Leaves(cfg, s, tx) ==> AddTransaction(cfg, s, tx) == Initialize(cfg, Left(cfg, s, tx))
    ensures !Leaves(cfg, s, tx) ==> AddTransaction(cfg, s, tx).core.view == s.core.view
  {
    hide Initialize, ResetView, Voters, SendChangeView, MakeChangeView, BlockOK, Respond, VerifyPreCommits;
    hide HasAllTransactions, CreateBlock, CreatePreBlock, MoreThanFNodesCommittedOrLost;
    var t := Tick(BuildBlock(cfg, Collected(s, tx)));
    if HasAllTransactions(Collected(s, tx)) && !cfg.watchOnly {
      Asking(cfg, t, CVTxInvalid);
    }
  }

  // ---- the replay in the next view; t is the state after the reset ----

  function Book(s: State): (seq<Hash>, set<Hash>, seq<Hash>) {
    (s.rest.txs, s.rest.transactions, s.rest.missing)
  }

  predicate SameView(t: State, u: State) {
    && u.core.height == t.core.height && u.core.n == t.core.n && u.core.me == t.core.me
    && u.core.view == t.core.view && u.core.primary == t.core.primary
    && forall i :: i in u.core.changeViews ==> i == t.core.me
  }

  // No request is known yet.
  predicate Idle(t: State, u: State) {
    && SameView(t, u) && !RequestKnown(u.core) && Book(u) == ([], {}, [])
    && u.rest.preHeader == u.rest.preBlock == u.rest.header == u.rest.block == None
    && !u.core.blockProcessed && !u.rest.crashed
  }

  predicate Settled(t: State, u: State, b: (seq<Hash>, set<Hash>, seq<Hash>)) {
    SameView(t, u) && RequestKnown(u.core) && Book(u) == b
  }

  // What is cached for the current height when the view is left.
  predicate Ahead(t: State, m: Payload) {
    && m.height == t.core.height && m.view >= t.core.view
    && (m.IsPreparation() || m.body.PreCommit? || m.body.Commit?)
  }

  predicate OfPrimary(t: State, m: Payload) {
    m.body.PrepareRequest? && m.view == t.core.view && m.from == t.core.primary
  }

  // In a view of its own a node of several validators makes no quorum alone.
  lemma AsksAlone(cfg: Config, t: State, u: State, reason: Reason)
    requires SameView(t, u) && M(u.core.n) >= 2 && reason != CVTimeout
    ensures var r := SendChangeView(cfg, u, reason); r == u || (u.core.me >= 0 && r == MakeChangeView(u, reason))
  {
    hide Initialize, ResetView;
    if u.core.me >= 0 {
      var c := MakeChangeView(u, reason).core;
      var voters := Voters(c.changeViews, c.n, AsksFor(NextView(c.view)));
      SubsetSize(voters, {t.core.me});
    }
  }

  // Ahead of anything else: too large an index, the future, a processed block; then the handlers.
  lemma Received(cfg: Config, t: State, u: State, m: Payload)
    requires SameView(t, u) && Ahead(t, m)
    ensures var r, v := OnReceive(cfg, u, m), Taken(u, m);
      if m.from >= u.core.n || u.rest.crashed then r == Deliver(u, m)
      else if m.view > u.core.view then r == Cache(Deliver(u, m), m)
      else if u.core.blockProcessed then r == Seen(u, m)
      else r == if m.body.PrepareRequest? then OnPrepareRequest(cfg, v, m)
                else if m.body.PrepareResponse? then OnPrepareResponse(cfg, v, m)
                else if m.body.Commit? then OnCommit(cfg, v, m)
                else if AntiMEV(cfg, v.core.height) then OnPreCommit(cfg, v, m) else v
  {
    hide OnPrepareRequest, OnPrepareResponse, OnPreCommit, OnCommit, OnChangeView, OnRecoveryMessage, See, Cache;
  }

  lemma SettledSlots(cfg: Config, t: State, v: State, m: Payload, b: (seq<Hash>, set<Hash>, seq<Hash>))
    requires Settled(t, v, b) && t.core.primary == GetPrimaryIndex(t.core.height, t.core.view, t.core.n)
    ensures m.body.PrepareRequest? ==> OnPrepareRequest(cfg, v, m) == v
    ensures m.body.PrepareResponse? ==> Settled(t, OnPrepareResponse(cfg, v, m), b)
  {
    hide CheckPrepare, GetPrimaryIndex, MoreThanFNodesCommittedOrLost;
  }

  lemma SettledCommits(cfg: Config, t: State, v: State, m: Payload, b: (seq<Hash>, set<Hash>, seq<Hash>))
    requires Settled(t, v, b)
    ensures m.body.PreCommit? ==> Settled(t, OnPreCommit(cfg, v, m), b)
    ensures m.body.Commit? ==> Settled(t, OnCommit(cfg, v, m), b)
  {
    hide CheckCommit, CheckPreCommit, CreatePreBlock, MakeHeader, Verifies;
  }

  lemma SettledStays(cfg: Config, t: State, u: State, m: Payload, b: (seq<Hash>, set<Hash>, seq<Hash>))
    requires Settled(t, u, b) && Ahead(t, m) && t.core.primary == GetPrimaryIndex(t.core.height, t.core.view, t.core.n)
    ensures Settled(t, OnReceive(cfg, u, m), b)
  {
    hide OnReceive, OnPrepareRequest, OnPrepareResponse, OnPreCommit, OnCommit, See, AddMessage, GetPrimaryIndex;
    Received(cfg, t, u, m);
    SettledSlots(cfg, t, Taken(u, m), m, b);
    SettledCommits(cfg, t, Taken(u, m), m, b);
  }

  lemma IdleSlots(cfg: Config, t: State, v: State, m: Payload)
    requires Idle(t, v) && M(t.core.n) >= 2 && m.view == t.core.view
    requires t.core.primary == GetPrimaryIndex(t.core.height, t.core.view, t.core.n)
    requires OfPrimary(t, m) ==> !cfg.verifyPayload(v.rest.calls, m)
    ensures m.body.PrepareRequest? ==> Idle(t, OnPrepareRequest(cfg, v, m))
    ensures m.body.PrepareResponse? ==> Idle(t, OnPrepareResponse(cfg, v, m))
  {
    hide CheckPrepare, GetPrimaryIndex, MoreThanFNodesCommittedOrLost, SendChangeView, AdoptRequest;
    AsksAlone(cfg, t, Tick(v), CVBlockRejectedByPolicy);
  }

  lemma NothingToBuild(cfg: Config, s: State)
    requires !RequestKnown(s.core) && s.rest.preHeader == s.rest.preBlock == s.rest.header == None
    ensures MakeHeader(cfg, s) == s && CreatePreBlock(s) == s
  {
  }

  lemma IdleCommits(cfg: Config, t: State, v: State, m: Payload)
    requires Idle(t, v)
    ensures m.body.PreCommit? ==> Idle(t, OnPreCommit(cfg, v, m))
    ensures m.body.Commit? ==> Idle(t, OnCommit(cfg, v, m))
  {
    hide CheckCommit, CheckPreCommit, Verifies, AntiMEV, MakeHeader, CreatePreBlock;
    NothingToBuild(cfg, Tick(v.(core := v.core.(preCommits := v.core.preCommits[m.from := m]))));
    NothingToBuild(cfg, Tick(v.(core := v.core.(commits := v.core.commits[m.from := m]))));
  }

  lemma IdleStays(cfg: Config, t: State, u: State, m: Payload)
    requires Idle(t, u) && Ahead(t, m) && M(t.core.n) >= 2
    requires t.core.primary == GetPrimaryIndex(t.core.height, t.core.view, t.core.n)
    requires OfPrimary(t, m) ==> !cfg.verifyPayload(u.rest.calls, m)
    ensures Idle(t, OnReceive(cfg, u, m))
  {
    hide OnReceive, OnPrepareRequest, OnPrepareResponse, OnPreCommit, OnCommit, See, AddMessage, GetPrimaryIndex;
    Received(cfg, t, u, m);
    if m.view == t.core.view {
      IdleSlots(cfg, t, Taken(u, m), m);
      IdleCommits(cfg, t, Taken(u, m), m);
    }
  }

  // Before the request every response of a new sender is verified and stored; nothing else takes a callback.
  lemma IdleCounts(cfg: Config, t: State, u: State, m: Payload)
    requires Idle(t, u) && Ahead(t, m) && m.IsPreparation() && !OfPrimary(t, m) && u.core.changeViews == map[]
    requires m.body.PrepareResponse? ==> m.from != t.core.primary
    requires t.core.primary == GetPrimaryIndex(t.core.height, t.core.view, t.core.n) && m.from !in u.core.preps
    ensures var r := OnReceive(cfg, u, m);
      && r.rest.calls == u.rest.calls + Responses([m], t.core.view, t.core.n)
      && r.core.changeViews == map[] && forall i :: i in r.core.preps ==> i in u.core.preps || i == m.from
  {
    hide OnReceive, CheckPrepare, GetPrimaryIndex, MoreThanFNodesCommittedOrLost, SendChangeView, AdoptRequest, See;
    hide AddMessage, CreateAndCheckBlock, BlockOK, Taken, Seen, Book;
    Received(cfg, t, u, m);
    assert Responses([m][1..], t.core.view, t.core.n) == 0;
  }

  lemma UpdatesKeepChangeViews(cfg: Config, s: State, q: Payload)
    ensures UpdateExistingPayloads(cfg, s, q).core.changeViews == s.core.changeViews
  {
    hide Answering, VerifyPreCommits, VerifyCommits;
  }

  lemma AdoptedBook(cfg: Config, t: State, v: State, q: Payload)
    requires Idle(t, v) && OfPrimary(t, q)
    ensures var k, txs := v.rest.calls, q.body.txs;
      Settled(t, AdoptRequest(cfg, v, q), (txs, Found(cfg, k, txs, {}), Unfound(cfg, k, txs, {})))
  {
    hide ProcessMissingTx, UpdateExistingPayloads;
    var s1 := v.(rest := v.rest.(timestamp := q.body.timestamp, nonce := q.body.nonce, txs := q.body.txs));
    MissingTxOnly(cfg, s1, q.body.txs);
    PoolAnswers(cfg, s1, q.body.txs);
    assert [] + Unfound(cfg, v.rest.calls, q.body.txs, {}) == Unfound(cfg, v.rest.calls, q.body.txs, {});
    UpdatesKeepChangeViews(cfg, ProcessMissingTx(cfg, s1, q.body.txs), q);
  }

  lemma CheckedBook(cfg: Config, t: State, s: State, b: (seq<Hash>, set<Hash>, seq<Hash>))
    requires Settled(t, s, b) && M(t.core.n) >= 2
    ensures Settled(t, CreateAndCheckBlock(cfg, s), b)
  {
    hide CreateBlock, CreatePreBlock, BlockOK, SendChangeView;
    AsksAlone(cfg, t, Tick(BuildBlock(cfg, s)), CVTxInvalid);
  }

  lemma RespondedBook(cfg: Config, t: State, s: State, b: (seq<Hash>, set<Hash>, seq<Hash>))
    requires Settled(t, s, b) && s.core.me >= 0
    ensures Settled(t, Respond(cfg, s), b)
  {
    hide CheckPrepare;
  }

  // The request of the new view is adopted; what the pool does not know is the new list.
  lemma Adopting(cfg: Config, t: State, u: State, q: Payload)
    requires Idle(t, u) && Ahead(t, q) && OfPrimary(t, q) && t.core.primary < t.core.n && M(t.core.n) >= 2
    requires t.core.primary == GetPrimaryIndex(t.core.height, t.core.view, t.core.n)
    requires cfg.verifyPayload(u.rest.calls, q)
    ensures var k, txs := u.rest.calls + 1, q.body.txs;
      Settled(t, OnReceive(cfg, u, q), (txs, Found(cfg, k, txs, {}), Unfound(cfg, k, txs, {})))
  {
    hide OnReceive, AdoptRequest, CreateAndCheckBlock, BlockOK, Respond, HasAllTransactions, GetPrimaryIndex, See;
    hide SendChangeView;
    Received(cfg, t, u, q);
    var v := Taken(u, q);
    var s2 := AdoptRequest(cfg, Tick(v), q);
    AdoptedBook(cfg, t, Tick(v), q);
    CheckedBook(cfg, t, s2, Book(s2));
    var s3 := CreateAndCheckBlock(cfg, s2);
    if s3.core.me >= 0 {
      RespondedBook(cfg, t, s3, Book(s2));
    }
  }

  // ---- the whole replay ----

  lemma {:induction false} SettledReplay(cfg: Config, t: State, u: State, msgs: seq<Payload>,
                                         b: (seq<Hash>, set<Hash>, seq<Hash>))
    requires Settled(t, u, b) && forall m :: m in msgs ==> Ahead(t, m)
    requires t.core.primary == GetPrimaryIndex(t.core.height, t.core.view, t.core.n)
    ensures Settled(t, ReceiveAll(cfg, u, msgs), b)
    decreases |msgs|
  {
    hide OnReceive, Settled, GetPrimaryIndex, Ahead;
    if msgs != [] {
      SettledStays(cfg, t, u, msgs[0], b);
      assert forall m :: m in msgs[1..] ==> m in msgs;
      SettledReplay(cfg, t, OnReceive(cfg, u, msgs[0]), msgs[1..], b);
    }
  }

  lemma {:induction false} IdleReplay(cfg: Config, t: State, u: State, msgs: seq<Payload>)
    requires Idle(t, u) && M(t.core.n) >= 2 && forall m :: m in msgs ==> Ahead(t, m) && !OfPrimary(t, m)
    requires t.core.primary == GetPrimaryIndex(t.core.height, t.core.view, t.core.n)
    ensures Idle(t, ReceiveAll(cfg, u, msgs))
    decreases |msgs|
  {
    hide OnReceive, Idle, GetPrimaryIndex, Ahead, OfPrimary;
    if msgs != [] {
      IdleStays(cfg, t, u, msgs[0]);
      assert forall m :: m in msgs[1..] ==> m in msgs;
      IdleReplay(cfg, t, OnReceive(cfg, u, msgs[0]), msgs[1..]);
    }
  }

  predicate NewSenders(msgs: seq<Payload>, preps: Slots) {
    && (forall m :: m in msgs ==> m.from !in preps)
    && (forall i, j :: 0 <= i < j < |msgs| ==> msgs[i].from != msgs[j].from)
  }

  lemma {:induction false} CountedReplay(cfg: Config, t: State, u: State, msgs: seq<Payload>)
    requires Idle(t, u) && u.core.changeViews == map[] && M(t.core.n) >= 2 && NewSenders(msgs, u.core.preps)
    requires forall m :: m in msgs ==> Ahead(t, m) && m.IsPreparation() && m.from != t.core.primary
    requires t.core.primary == GetPrimaryIndex(t.core.height, t.core.view, t.core.n)
    ensures var r := ReceiveAll(cfg, u, msgs);
      Idle(t, r) && r.rest.calls == u.rest.calls + Responses(msgs, t.core.view, t.core.n)
    decreases |msgs|
  {
    hide OnReceive, Idle, GetPrimaryIndex, Ahead;
    if msgs != [] {
      var m, rest, v := msgs[0], msgs[1..], OnReceive(cfg, u, msgs[0]);
      IdleStays(cfg, t, u, m);
      IdleCounts(cfg, t, u, m);
      assert [m][1..] == [];
      forall p | p in rest
        ensures p in msgs && p.from !in v.core.preps
      {
        var j :| 0 <= j < |rest| && rest[j] == p;
        assert msgs[j + 1] == p;
      }
      CountedReplay(cfg, t, v, rest);
    }
  }

  lemma {:induction false} ReplaySplits(cfg: Config, s: State, a: seq<Payload>, b: seq<Payload>)
    ensures ReceiveAll(cfg, s, a + b) == ReceiveAll(cfg, ReceiveAll(cfg, s, a), b)
    decreases |a|
  {
    hide OnReceive;
    if a == [] {
      assert a + b == b;
    } else {
      assert (a + b)[1..] == a[1..] + b;
      ReplaySplits(cfg, OnReceive(cfg, s, a[0]), a[1..], b);
    }
  }

  lemma LeftIsIdle(cfg: Config, s: State, tx: Hash)
    requires AwaitsTransactions(cfg, s) && !s.rest.crashed && s.core.view < 255
    ensures var t := Left(cfg, s, tx);
      && Idle(t, TakeMail(t)) && TakeMail(t).core.preps == TakeMail(t).core.changeViews == map[]
      && t.core.view == s.core.view + 1 && t.core.height == s.core.height && t.core.n == s.core.n
      && t.core.primary == GetPrimaryIndex(t.core.height, t.core.view, t.core.n)
      && t.rest.mail == s.rest.mail && t.rest.calls == s.rest.calls + 1
      && TakeMail(t).rest.calls == s.rest.calls + 2
  {
    hide CreateBlock, CreatePreBlock, GetPrimaryIndex, MoreThanFNodesCommittedOrLost;
  }

  // ---- what is replayed ----

  lemma MailIsAhead(cfg: Config, s: State, tx: Hash, m: Payload)
    requires AwaitsTransactions(cfg, s) && !s.rest.crashed && s.core.view < 255 && Coherent(s)
    requires m in CachedMail(cfg, Left(cfg, s, tx))
    ensures Ahead(Left(cfg, s, tx), m)
    ensures OfPrimary(Left(cfg, s, tx), m) ==> NextRequest(s, m)
  {
    hide Left, Replay, ProposalOK, BlocksOK, TransactionsOK, CompleteOK, AwaitsTransactions, GetPrimaryIndex;
    LeftIsIdle(cfg, s, tx);
    var h := s.core.height;
    assert h in s.rest.mail && InBox(s.rest.mail[h], m);
    assert MailItemOK(s, h, m) && BoxFiled(h, s.rest.mail[h]);
  }

  // Up to the request, the request, and the rest.
  lemma SplitsAt(part: seq<Payload>, others: seq<Payload>, q: Payload) returns (late: seq<Payload>)
    requires q in part && forall m :: m in part ==> m.IsPreparation()
    requires forall m :: m in others ==> !m.body.PrepareRequest?
    requires forall i, j :: 0 <= i < j < |part| ==> part[i].from != part[j].from
    ensures part + others == Before(part, q) + ([q] + late) && NewSenders(Before(part, q), map[])
    ensures forall m :: m in Before(part, q) ==> m.IsPreparation() && m.from != q.from
    ensures forall m :: m in late && m.body.PrepareRequest? ==> m.from != q.from
  {
    hide Before;
    var early := Before(part, q);
    var j :| 0 <= j < |part| && part[j] == q && early == part[..j];
    late := part[j + 1..] + others;
    assert forall i :: 0 <= i < j ==> early[i] == part[i];
    forall m | m in early
      ensures m.IsPreparation() && m.from != q.from
    {
      var i :| 0 <= i < j && early[i] == m;
      assert part[i] in part && part[i].from != part[j].from;
    }
    forall m | m in late && m.body.PrepareRequest?
      ensures m.from != q.from
    {
      assert m in part[j + 1..];
      var i :| 0 <= i < |part[j + 1..]| && part[j + 1..][i] == m;
      assert part[j + 1 + i] == m && part[j].from != part[j + 1 + i].from;
    }
  }

  lemma ReplayParts(box: Inbox, order: (nat, set<nat>) -> seq<nat>)
    ensures Replay(box, order) == Part(box.prepare, OrderOf(order, 0))
      + (Part(box.chViews, OrderOf(order, 1)) + Part(box.preCommit, OrderOf(order, 2))
         + Part(box.commit, OrderOf(order, 3)))
  {
    hide Part;
  }

  lemma RequestSplitsMail(cfg: Config, s: State, q: Payload, mail: seq<Payload>)
    returns (early: seq<Payload>, late: seq<Payload>)
    requires NextRequest(s, q) && Filed(s.rest.mail)
    requires mail == Replay(BoxAt(s.rest.mail, s.core.height), MapOrder(cfg, s.rest.calls + 1))
    ensures mail == early + ([q] + late)
    ensures Turn(cfg, s, q) == s.rest.calls + 2 + Responses(early, s.core.view + 1, s.core.n)
    ensures forall m :: m in early ==> m.IsPreparation() && m.from != q.from
    ensures forall m :: m in late && m.body.PrepareRequest? ==> m.from != q.from
    ensures NewSenders(early, map[])
  {
    hide GetPrimaryIndex, Replay, Part, Before, Responses, NewSenders;
    var box, order := BoxAt(s.rest.mail, s.core.height), MapOrder(cfg, s.rest.calls + 1);
    var part := Part(box.prepare, OrderOf(order, 0));
    var others := Part(box.chViews, OrderOf(order, 1)) + Part(box.preCommit, OrderOf(order, 2))
                  + Part(box.commit, OrderOf(order, 3));
    assert BoxFiled(s.core.height, box);
    PartSenders(box.prepare, OrderOf(order, 0));
    ReplayParts(box, order);
    early := Before(part, q);
    late := SplitsAt(part, others, q);
  }

  lemma OneThenRest(cfg: Config, s: State, m: Payload, rest: seq<Payload>)
    ensures ReceiveAll(cfg, s, [m] + rest) == ReceiveAll(cfg, OnReceive(cfg, s, m), rest)
  {
    hide OnReceive;
    assert ([m] + rest)[1..] == rest;
  }

  lemma RequestReplayed(cfg: Config, s: State, t: State, q: Payload)
    requires NextRequest(s, q) && Coherent(s) && M(t.core.n) >= 2
    requires t.core.view == s.core.view + 1 && t.core.height == s.core.height && t.core.n == s.core.n
    requires t.core.primary == GetPrimaryIndex(t.core.height, t.core.view, t.core.n)
    requires t.rest.mail == s.rest.mail && t.rest.calls == s.rest.calls + 1
    requires var u := TakeMail(t); Idle(t, u) && u.core.preps == u.core.changeViews == map[]
    requires forall m :: m in CachedMail(cfg, t) ==> Ahead(t, m)
    ensures var r, k := Initialize(cfg, t), Turn(cfg, s, q);
      if cfg.verifyPayload(k, q)
      then Settled(t, r, (q.body.txs, Found(cfg, k + 1, q.body.txs, {}), Unfound(cfg, k + 1, q.body.txs, {})))
      else Idle(t, r)
  {
    hide Replay, ProposalOK, BlocksOK, TransactionsOK, CompleteOK, MailOK, GetPrimaryIndex, Idle, Settled, Ahead;
    hide OnReceive, ReceiveAll, Turn, Responses, Unfound, Found, NewSenders;
    var u, mail := TakeMail(t), CachedMail(cfg, t);
    var early, late := RequestSplitsMail(cfg, s, q, mail);
    assert q in [q] + late && forall m :: m in late ==> m in [q] + late;
    assert Ahead(t, q) && OfPrimary(t, q) && forall m :: m in late ==> Ahead(t, m) && !OfPrimary(t, m);
    ReplaySplits(cfg, u, early, [q] + late);
    CountedReplay(cfg, t, u, early);
    var v := ReceiveAll(cfg, u, early);
    OneThenRest(cfg, v, q, late);
    if cfg.verifyPayload(v.rest.calls, q) {
      Adopting(cfg, t, v, q);
      var k := v.rest.calls + 1;
      SettledReplay(cfg, t, OnReceive(cfg, v, q), late,
                    (q.body.txs, Found(cfg, k, q.body.txs, {}), Unfound(cfg, k, q.body.txs, {})));
    } else {
      IdleStays(cfg, t, v, q);
      IdleReplay(cfg, t, OnReceive(cfg, v, q), late);
    }
  }

  // What becomes of the proposal when the view is left.
  lemma Outcome(cfg: Config, s: State, tx: Hash)
    requires Leaves(cfg, s, tx) && Coherent(s) && !s.rest.crashed && M(s.core.n) >= 2
    ensures var t := Left(cfg, s, tx); var r := Initialize(cfg, t);
      && (forall q :: Adopts(cfg, s, tx, q) ==>
            Settled(t, r, (q.body.txs, NewTransactions(cfg, s, q), NewList(cfg, s, q))))
      && ((forall q :: !Adopts(cfg, s, tx, q)) ==> Idle(t, r))
  {
    hide Left, Replay, Coherent, GetPrimaryIndex, TakeMail, Idle, Settled, Ahead, OnReceive, ReceiveAll, Voters, Turn;
    hide BlockOK, HasAllTransactions, MoreThanFNodesCommittedOrLost, Unfound, Found, OfPrimary;
    var t := Left(cfg, s, tx);
    LeftIsIdle(cfg, s, tx);
    forall m | m in CachedMail(cfg, t)
      ensures Ahead(t, m) && (OfPrimary(t, m) ==> NextRequest(s, m))
    {
      MailIsAhead(cfg, s, tx, m);
    }
    if q :| NextRequest(s, q) {
      RequestReplayed(cfg, s, t, q);
    } else {
      IdleReplay(cfg, t, TakeMail(t), CachedMail(cfg, t));
    }
  }

  // ---- the theorems ----

  // A backup is one of several validators.
  lemma BackupsAreSeveral(cfg: Config, s: State)
    requires P.Indexed(cfg, s.core) && IsBackup(s.core)
    ensures s.core.me < s.core.n && M(s.core.n) >= 2
  {
  }

  lemma AwaitingIsBackup(cfg: Config, s: State)
    requires Ready(cfg, {}, s) && AwaitsTransactions(cfg, s)
    ensures IsBackup(s.core) && 0 <= s.core.me < s.core.n && M(s.core.n) >= 2
  {
    hide P.History, Coherent, P.Unforged;
    BackupsAreSeveral(cfg, s);
  }

  /** ProposedTransaction leaves the view exactly when the transaction completes a refused block and M validators have
      asked for the next view; it never goes further than that. */
  lemma LeavesExactly(cfg: Config, s: State, tx: Hash)
    requires Ready(cfg, {}, s) && !s.rest.crashed
    ensures var v := OnTransaction(cfg, s, tx).core.view;
      v == if Leaves(cfg, s, tx) then s.core.view + 1 else s.core.view
  {
    hide P.Inv, P.Unforged, Coherent, AddTransaction, AwaitsTransactions, Initialize, Left, Voters, BlockOK;
    hide HasAllTransactions, Adopts;
    if AwaitsTransactions(cfg, s) && tx in s.rest.missing {
      AwaitingIsBackup(cfg, s);
      LeavesOrStays(cfg, s, tx);
      if Leaves(cfg, s, tx) {
        LeftIsIdle(cfg, s, tx);
        Outcome(cfg, s, tx);
      }
    }
  }

  lemma NotAwaiting(cfg: Config, s: State, tx: Hash)
    requires !(AwaitsTransactions(cfg, s) && tx in s.rest.missing)
    ensures !Leaves(cfg, s, tx) && OnTransaction(cfg, s, tx) == s
  {
    hide AwaitsTransactions, Voters, AddTransaction;
  }

  lemma MissingAreProposed(s: State)
    requires Coherent(s)
    ensures forall h :: h in s.rest.missing ==> h in s.rest.txs && RequestKnown(s.core)
  {
    hide BlocksOK, MailOK, CompleteOK;
  }

  // The state before the transaction is taken off the list.
  lemma AfterAdding(cfg: Config, s: State, tx: Hash)
    requires Ready(cfg, {}, s) && !s.rest.crashed && AwaitsTransactions(cfg, s) && tx in s.rest.missing
    ensures var r := AddTransaction(cfg, s, tx);
      && (r.rest.crashed <==> Refused(cfg, s, r)) && (ListOK(s) ==> ListOK(r))
      && (forall q :: Adopts(cfg, s, tx, q) ==>
            && RequestKnown(r.core) && r.rest.txs == q.body.txs
            && r.rest.transactions == NewTransactions(cfg, s, q) && r.rest.missing == NewList(cfg, s, q))
      && (Leaves(cfg, s, tx) && (forall q :: !Adopts(cfg, s, tx, q)) ==>
            r.rest.missing == [] && !RequestKnown(r.core))
      && (!Leaves(cfg, s, tx) ==> r.rest.missing == s.rest.missing && tx in r.rest.transactions)
      && (forall h :: h in r.rest.missing ==> h in r.rest.txs && RequestKnown(r.core))
  {
    hide P.Inv, P.Unforged, Coherent, AddTransaction, AwaitsTransactions, Initialize, Left, Leaves, Refused;
    hide P.Reaches, Unfound, Found, Turn, NextRequest, Accounted;
    AwaitingIsBackup(cfg, s);
    AddTransactionDoes(cfg, {}, s, tx);
    LeavesOrStays(cfg, s, tx);
    AddTransactionKeepsMissing(cfg, s, tx);
    MissingAreProposed(AddTransaction(cfg, s, tx));
    if Leaves(cfg, s, tx) {
      Outcome(cfg, s, tx);
    }
  }

  /** The call kills the process exactly when it takes up a cached request of the next view with some missing
      transactions, but no more than stand before `tx` on the old list, or when the ledger refuses its block. */
  lemma PanicsExactly(cfg: Config, s: State, tx: Hash)
    requires Ready(cfg, {}, s) && !s.rest.crashed
    ensures var r := OnTransaction(cfg, s, tx); r.rest.crashed <==> Panics(cfg, s, tx) || Refused(cfg, s, r)
  {
    hide P.Inv, P.Unforged, Coherent, AddTransaction, AwaitsTransactions, Initialize, Left, Leaves, Refuses, IndexOf;
    hide P.Reaches, Unfound, Found, Turn;
    if AwaitsTransactions(cfg, s) && tx in s.rest.missing {
      AfterAdding(cfg, s, tx);
    } else {
      NotAwaiting(cfg, s, tx);
    }
  }

  // Taking one entry off the list loses it exactly when it is nowhere else.
  lemma TakenOff(txs: seq<Hash>, collected: set<Hash>, list: seq<Hash>, i: nat)
    requires Accounted(txs, collected, list) && i < |list| && list[i] in txs
    ensures Accounted(txs, collected, list[..i] + list[i + 1..]) <==> !Drops(list, collected, i)
  {
    var less := list[..i] + list[i + 1..];
    if !Drops(list, collected, i) {
      forall h | h in txs
        ensures h in collected || h in less
      {
        if h in list && h != list[i] {
          var j :| 0 <= j < |list| && list[j] == h;
          assert less[if j < i then j else j - 1] == h;
        }
      }
    } else {
      var h := list[i];
      assert h in txs && !(h in collected || h in less);
    }
  }

  /** After ProposedTransaction some proposed transaction is neither collected nor listed, though all were before,
      exactly when the call takes up a cached request of the next view, at the old place of `tx` its new list holds a
      transaction that is nowhere else, and the ledger refuses no block meanwhile. */
  lemma LosesExactly(cfg: Config, s: State, tx: Hash)
    requires Ready(cfg, {}, s) && !s.rest.crashed && ListOK(s)
    ensures var r := OnTransaction(cfg, s, tx); !ListOK(r) <==> Loses(cfg, s, tx) && !Refused(cfg, s, r)
  {
    hide P.Inv, P.Unforged, Coherent, AddTransaction, AwaitsTransactions, Initialize, Left, Leaves, Refuses, IndexOf;
    hide P.Reaches, Unfound, Found, Turn, Accounted;
    if AwaitsTransactions(cfg, s) && tx in s.rest.missing {
      AfterAdding(cfg, s, tx);
      AwaitingIsBackup(cfg, s);
      var r, i := AddTransaction(cfg, s, tx), IndexOf(s.rest.missing, tx);
      if i < |r.rest.missing| {
        var h := r.rest.missing[i];
        assert h in r.rest.missing;
        assert h in r.rest.txs && RequestKnown(r.core);
        assert !Leaves(cfg, s, tx) ==> h == tx && !Drops(r.rest.missing, r.rest.transactions, i);
        TakenOff(r.rest.txs, r.rest.transactions, r.rest.missing, i);
      }
    } else {
      NotAwaiting(cfg, s, tx);
    }
  }

  /** Of all calls only ProposedTransaction dies of anything but a refusing ledger, and exactly when it Panics. */
  lemma CallsPanicExactly(cfg: Config, s: State, e: Event)
    requires Ready(cfg, Input(e), s) && Proper(s, e) && !s.rest.crashed
    ensures var r := Handle(cfg, s, e);
      r.rest.crashed <==> (e.ProposedTransaction? && Panics(cfg, s, e.tx)) || Refused(cfg, s, r)
  {
    hide P.Inv, P.Unforged, P.Reaches, Coherent, Panics, Refused, OnReceive, OnTimeout, OnTransaction, Reset;
    hide P.Evolves, Accounted;
    HandleRefines(cfg, s, e);
    if e.ProposedTransaction? {
      PanicsExactly(cfg, s, e.tx);
    }
  }

  /** Of all calls only ProposedTransaction can lose a proposed transaction, and exactly when it Loses. */
  lemma CallsLoseExactly(cfg: Config, s: State, e: Event)
    requires Ready(cfg, Input(e), s) && Proper(s, e) && !s.rest.crashed && ListOK(s)
    ensures var r := Handle(cfg, s, e);
      !ListOK(r) <==> e.ProposedTransaction? && Loses(cfg, s, e.tx) && !Refused(cfg, s, r)
  {
    hide P.Inv, P.Unforged, P.Reaches, Coherent, Loses, Refused, OnReceive, OnTimeout, OnTransaction, Reset;
    hide P.Evolves, ListOK;
    HandleRefines(cfg, s, e);
    if e.ProposedTransaction? {
      LosesExactly(cfg, s, e.tx);
    }
  }
}
