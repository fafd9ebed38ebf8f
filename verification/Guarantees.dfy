/** What one node guarantees, over every call and in every reachable state. */
module Guarantees {
  import opened Quorum
  import opened Payloads
  import opened NodeState
  import opened NodeSpec
  import opened Refinement
  import C = Cluster
  import A = Agreement
  import P = Protocol
  import T = MissingTransactions

  // ---- locks and votes ----

  /** The commit lock: after a node stored its own PreCommit or Commit, no call moves its view, its request or that
      payload before the next height. */
  lemma CommitLock(cfg: Config, s: State, e: Event)
    requires Ready(cfg, Input(e), s) && Proper(s, e)
    requires s.core.me in s.core.preCommits || s.core.me in s.core.commits
    ensures var c, c' := s.core, Handle(cfg, s, e).core;
      c'.height == c.height ==>
        && c'.view == c.view && c'.primary == c.primary && P.Proposed(c) && P.Proposed(c')
        && c'.preps[c.primary] == c.preps[c.primary]
        && (c.me in c.preCommits ==> c.me in c'.preCommits && c'.preCommits[c.me] == c.preCommits[c.me])
        && (c.me in c.commits ==> c.me in c'.commits && c'.commits[c.me] == c.commits[c.me])
  {
    hide P.History, P.Unforged, P.Reaches, Coherent, Handle, P.ViewsOK, P.MatchOK, P.CommitsOK, P.WatchOK, P.PrepsOK;
    HandleRefines(cfg, s, e);
  }

  // After a block was processed the scratch state takes no part in what is received.
  lemma RestIsSettled(cfg: Config, s: State, msg: Payload)
    requires s.core.blockProcessed
    ensures var r, q := OnReceive(cfg, s, msg).rest, s.rest;
      r == q.(lastSeen := r.lastSeen, mail := r.mail, handled := r.handled)
  {
    hide RecoveryItems, Answers, OnPrepareRequest, OnPrepareResponse, OnPreCommit, OnCommit;
    hide OnChangeView, OnRecoveryMessage;
  }

  /** After a block was processed no call before the next height changes a slot, a flag or the view, the proposal, its
      transactions, the cached headers and blocks, or asks the ledger anything. Messages are still noted and cached, and
      recovery requests answered. */
  lemma ProcessedIsSettled(cfg: Config, s: State, e: Event)
    requires Ready(cfg, Input(e), s) && Proper(s, e) && s.core.blockProcessed
    ensures var r := Handle(cfg, s, e);
      r.core.height == s.core.height ==>
        && r.core == s.core.(sent := r.core.sent, delivered := r.core.delivered)
        && r.rest == s.rest.(lastSeen := r.rest.lastSeen, mail := r.rest.mail, handled := r.rest.handled)
  {
    hide P.Inv, P.Unforged, P.Reaches, Coherent, OnReceive, AddTransaction, IndexOf, Initialize;
    HandleRefines(cfg, s, e);
    if e.Received? {
      RestIsSettled(cfg, s, e.msg);
    }
  }

  /** In every run a node prepares at most once per view, and broadcasts at most one distinct PreCommit and one
      distinct Commit per height; after either nothing of a later view of that height follows. */
  lemma VotesOnce(cfgs: seq<Config>, nodes: C.Nodes, a: int, p: Payload, q: Payload)
    requires C.Reachable(cfgs, nodes) && |nodes| == |cfgs| && C.IsNode(cfgs, a)
    requires p in nodes[a].core.sent && q in nodes[a].core.sent && p.height == q.height
    ensures p.view == q.view && p.IsPreparation() && q.IsPreparation() ==> p == q
    ensures p.body.PreCommit? && q.body.PreCommit? ==> p == q
    ensures p.body.Commit? && q.body.Commit? ==> p == q
    ensures p.IsSignature() ==> q.view <= p.view
  {
    hide P.Epoch, Coherent, C.Authentic, P.SignaturesOK, P.CountedOK, P.BuiltOK, P.OwnBlockOK, P.OwnGenuine, P.SentOK;
    hide C.Reachable, P.AnswersOK, P.CurrentBlockOK;
    A.ReachableOK(cfgs, nodes);
    assert C.NodeOK(cfgs, nodes, a);
  }

  /** A view above 0 is certified: M validators asked for it or for a later one; no call removes that evidence
      before the next view or height. */
  lemma ViewCertificate(cfg: Config, s: State, e: Event)
    requires Ready(cfg, Input(e), s) && Proper(s, e)
    ensures var r := Handle(cfg, s, e).core;
      && (r.view > 0 ==> |Voters(r.lastChangeViews, r.n, AsksFor(r.view))| >= M(r.n))
      && (r.height == s.core.height ==> r.view >= s.core.view)
      && (r.height == s.core.height && r.view == s.core.view ==> r.lastChangeViews == s.core.lastChangeViews)
  {
    hide P.History, P.Unforged, P.Reaches, Coherent, Handle, P.MatchOK, P.CommitsOK, P.WatchOK, P.PrepsOK, P.LockOK;
    HandleRefines(cfg, s, e);
  }

  // ---- processed blocks ----

  lemma {:induction false} SeqSetSize(txs: seq<Hash>)
    ensures |set h | h in txs| <= |txs|
    ensures |set h | h in txs| == |txs| <==> forall i, j :: 0 <= i < j < |txs| ==> txs[i] != txs[j]
  {
    if txs != [] {
      var last, init := txs[|txs| - 1], txs[..|txs| - 1];
      SeqSetSize(init);
      assert txs == init + [last];
      assert (set h | h in txs) == (set h | h in init) + {last};
      assert last in init <==> exists i :: 0 <= i < |init| && txs[i] == last;
    }
  }

  /** The node compares two counts. That tells it exactly that every proposed transaction is there and that none is
      proposed twice: a proposal that repeats a hash is never complete. */
  lemma CompleteIffAllPresent(s: State)
    requires TransactionsOK(s)
    ensures HasAllTransactions(s) <==>
      && (forall h :: h in s.rest.txs ==> h in s.rest.transactions)
      && (forall i, j :: 0 <= i < j < |s.rest.txs| ==> s.rest.txs[i] != s.rest.txs[j])
  {
    var proposed := set h | h in s.rest.txs;
    SeqSetSize(s.rest.txs);
    forall h | h in s.rest.transactions
      ensures h in proposed
    {
    }
    SubsetSize(s.rest.transactions, proposed);
    if HasAllTransactions(s) {
      assert |proposed - s.rest.transactions| == 0;
      assert forall h :: h in proposed ==> h in s.rest.transactions || h in proposed - s.rest.transactions;
    } else if forall h :: h in s.rest.txs ==> h in s.rest.transactions {
      assert s.rest.transactions == proposed;
    }
  }

  /** Single acceptance: per height a node processes at most one block and one pre-block. Each was built from the
      request of its view, and M validators' Commits or PreCommits of that view were counted. Of a block all
      transactions were there, each of them once. */
  lemma ProcessedBlockIsGood(cfgs: seq<Config>, nodes: C.Nodes, a: int, x: Acceptance)
    requires C.Reachable(cfgs, nodes) && |nodes| == |cfgs| && A.Processed(cfgs, nodes, a, x)
    ensures var c, cfg := nodes[a].core, cfgs[a];
      && P.Counted(cfg, c, x) && (exists req :: P.BuiltFrom(cfg, c, x, req))
      && (forall y :: y in P.Blocks(c) && y.kind == x.kind && y.height == x.height ==> y == x)
    ensures var s := nodes[a];
      x in s.core.processed && x.height == s.core.height ==>
        && P.Proposed(s.core) && x.header == P.ProposedHeader(s.core)
        && (forall h :: h in x.header.txs ==> h in s.rest.transactions)
        && (forall i, j :: 0 <= i < j < |x.header.txs| ==> x.header.txs[i] != x.header.txs[j])
  {
    hide P.Epoch, C.Authentic, P.SignaturesOK, P.OwnBlockOK, P.OwnGenuine, P.SentOK, P.AnswersOK, P.VoteOnce;
    hide C.Reachable, P.CommitOnce, P.CommitLast, P.Counted, P.BuiltFrom, MailOK, BlocksOK, TransactionsOK;
    hide HasAllTransactions;
    A.ReachableOK(cfgs, nodes);
    assert C.NodeOK(cfgs, nodes, a);
    CompleteIffAllPresent(nodes[a]);
  }

  /** Exactly two things kill the process: a ProposedTransaction whose place on the list is beyond the list of a next
      view, and the ledger, when it is asked in this call to process a block at a height without the anti-MEV extension
      and refuses it. No call dies of a missing block, and what the ledger is asked about is what the primary of a view
      of the current height proposed. */
  lemma OnlyTransactionsCrash(cfg: Config, s: State, e: Event)
    requires Ready(cfg, Input(e), s) && Proper(s, e) && !s.rest.crashed
    ensures var r := Handle(cfg, s, e);
      && s.rest.offered <= r.rest.offered
      && (r.rest.crashed <==>
            || (e.ProposedTransaction? && T.Panics(cfg, s, e.tx))
            || exists i :: |s.rest.offered| <= i < |r.rest.offered| && Refuses(cfg, r.rest.offered[i]))
      && forall i :: |s.rest.offered| <= i < |r.rest.offered| ==>
           r.rest.offered[i].header.height == r.core.height && IsProposal(cfg, r.core, r.rest.offered[i].header)
  {
    hide P.Inv, P.Unforged, P.Reaches, Coherent, Handle, T.Panics, Refuses, IsProposal, ListOK, P.Evolves;
    T.CallsPanicExactly(cfg, s, e);
    HandleRefines(cfg, s, e);
  }

  // ---- timeouts ----

  // The validators that were heard of in this view and are not bound by a Commit or a PreCommit.
  function Active(s: State): set<int> {
    set i | 0 <= i < s.core.n && !HasCommitted(s.core, i) && !HasFailed(s, i)
  }

  /** Counting the committed and the lost ones tells whether M validators are left to change the view. */
  lemma ActiveQuorum(s: State)
    ensures MoreThanFNodesCommittedOrLost(s) <==> |Active(s)| < M(s.core.n)
  {
    var n := s.core.n;
    IndicesSize(n);
    assert Indices(n) == Committed(s.core) + Failed(s) + Active(s);
    assert Committed(s.core) !! Failed(s) && Committed(s.core) + Failed(s) !! Active(s);
  }

  // With a maximal block time a backup in view 0 first waits for transactions, once, when it knows of none.
  predicate WaitsForTransactions(cfg: Config, s: State) {
    && s.core.view == 0 && cfg.dynamicBlockTime && IsBackup(s.core) && !s.rest.txSubscription
    && cfg.getVerified(s.rest.calls) == []
  }

  // The first payload that is broadcast asks for the next view or for recovery.
  predicate Asks(s: State, r: State) {
    var c, sent := s.core, r.core.sent;
    && |sent| > |c.sent| && sent[..|c.sent|] == c.sent
    && var p := sent[|c.sent|];
       && p.height == c.height && p.view == c.view && p.from == c.me
       && (|Active(s)| >= M(c.n) ==> p.body.ChangeView? && p.NewView() == NextView(c.view))
       && (|Active(s)| < M(c.n) ==> p.body.RecoveryRequest?)
  }

  lemma TickIsReady(cfg: Config, s: State)
    requires Ready(cfg, {}, s)
    ensures Ready(cfg, {}, Tick(s))
  {
    hide P.Inv, P.Unforged;
  }

  lemma TickAsks(s: State, r: State)
    requires Asks(Tick(s), r)
    ensures Asks(s, r)
  {
    assert Active(Tick(s)) == Active(s);
  }

  lemma AskedFirst(cfg: Config, s: State, reason: Reason)
    requires Ready(cfg, {}, s) && !s.core.blockProcessed && !WatchOnly(cfg, s.core) && !Locked(cfg, s.core)
    ensures var t := MakeChangeView(s, reason);
      t.core.sent <= CheckChangeView(cfg, t, NextView(s.core.view)).core.sent
  {
    hide P.Inv, P.Unforged, P.Reaches, Coherent, CheckChangeView;
    var t := MakeChangeView(s, reason);
    AskViewDoes(cfg, {}, s, reason);
    CheckChangeViewDoes(cfg, {}, t, NextView(s.core.view));
    P.ReachesKeeps(cfg, {}, t.core, CheckChangeView(cfg, t, NextView(s.core.view)).core);
  }

  lemma AsksForRecovery(cfg: Config, s: State)
    requires !WatchOnly(cfg, s.core)
    ensures var r := SendRecoveryRequest(cfg, s); r.core.sent == s.core.sent + [Own(s.core, RecoveryRequest)]
  {
    hide ProcessMissingTx, HasAllTransactions;
    MissingTxKeepsCore(cfg, s, s.rest.txs);
  }

  lemma AsksOnTimeout(cfg: Config, s: State)
    requires Ready(cfg, {}, s) && !WatchOnly(cfg, s.core) && !s.core.blockProcessed && !Locked(cfg, s.core)
    ensures Asks(s, SendChangeView(cfg, s, CVTimeout))
  {
    hide Active, MoreThanFNodesCommittedOrLost, CheckChangeView, SendRecoveryRequest, HasAllTransactions, Ready;
    ActiveQuorum(s);
    AsksForRecovery(cfg, s);
    if |Active(s)| >= M(s.core.n) {
      AskedFirst(cfg, s, if HasAllTransactions(s) then CVTimeout else CVTxNotFound);
    }
  }

  /** On a timeout an unbound validator that does not wait for transactions asks for the next view exactly when M
      validators are active in its own view; otherwise it asks for recovery. A transaction that ends the waiting of a
      backup in view 0 only ends its subscription. */
  lemma TimeoutAsksForView(cfg: Config, s: State, force: bool)
    requires Ready(cfg, {}, s) && !s.rest.crashed
    requires !WatchOnly(cfg, s.core) && !s.core.blockProcessed && !Locked(cfg, s.core)
    requires RequestKnown(s.core) || !IsPrimary(s.core)
    ensures var c := s.core; var r := OnTimeout(cfg, s, c.height, c.view, force);
      if force && c.view == 0 && cfg.dynamicBlockTime && IsBackup(c)
      then r == s.(rest := s.rest.(txSubscription := false))
      else if !force && WaitsForTransactions(cfg, s) then r.core == c && r.rest.txSubscription
      else Asks(s, r)
  {
    hide Active, MoreThanFNodesCommittedOrLost, SendChangeView, Ready, Asks, SendPrepareRequest;
    AsksOnTimeout(cfg, s);
    TickIsReady(cfg, s);
    AsksOnTimeout(cfg, Tick(s));
    TickAsks(s, SendChangeView(cfg, Tick(s), CVTimeout));
  }
}
