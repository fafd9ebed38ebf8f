/** A network of one validator: its own ChangeView is a quorum, and still no call raises its view by more than one. */
module LoneValidator {
  import opened Quorum
  import opened Payloads
  import opened NodeState
  import opened Mailbox
  import opened NodeSpec
  import opened Refinement
  import P = Protocol

  predicate Lone(s: State) {
    s.core.n == 1 && s.core.me == 0
  }

  // Every ChangeView of the node that can reach it in this call asks for view b at most.
  ghost predicate Bounded(known: set<Payload>, height: nat, b: nat) {
    forall m :: m in known && m.from == 0 && m.height == height && m.body.ChangeView? ==> m.NewView() <= b
  }

  ghost predicate Within(cfg: Config, input: set<Payload>, known: set<Payload>, s: State, b: nat) {
    && Ready(cfg, input, s) && Lone(s) && s.core.view <= b && s.core.delivered <= known && input <= known
    && Bounded(known, s.core.height, b)
  }

  // What comes from the node itself was sent by it, in its view or an earlier one.
  lemma OwnWasSent(cfg: Config, input: set<Payload>, s: State, m: Payload)
    requires P.Inv(cfg, s.core) && P.Unforged(cfg, s.core, input) && (m in s.core.delivered || m in input)
    requires m.from == IndexAt(cfg, m.height)
    ensures m in s.core.sent && m.height <= s.core.height && (m.height == s.core.height ==> m.view <= s.core.view)
    ensures m.body.ChangeView? ==> m.body.newView == NextView(m.view)
  {
    hide P.Epoch, P.SignaturesOK, P.AnswersOK, P.CountedOK, P.BuiltOK, P.OwnBlockOK, P.CurrentBlockOK, P.ProcessedOnce;
    hide P.VoteOnce, P.CommitOnce, P.CommitLast, IndexAt;
  }

  lemma LoneIndex(cfg: Config, s: State)
    requires P.Inv(cfg, s.core) && Lone(s)
    ensures IndexAt(cfg, s.core.height) == 0 && s.core.primary == 0
  {
    hide P.History, P.PrepsOK, P.MatchOK, P.CommitsOK, P.ViewsOK, P.WatchOK, P.LockOK, P.Remembered;
  }

  lemma {:induction false} ForeignIsDropped(cfg: Config, s: State, msgs: seq<Payload>)
    requires s.core.n == 1 && forall m :: m in msgs ==> m.from >= 1
    ensures ReceiveAll(cfg, s, msgs).core.view == s.core.view
    decreases |msgs|
  {
    hide Dispatch, Cache, See;
    if msgs != [] {
      assert forall m :: m in msgs[1..] ==> m in msgs;
      ForeignIsDropped(cfg, OnReceive(cfg, s, msgs[0]), msgs[1..]);
    }
  }

  lemma ForeignMail(cfg: Config, input: set<Payload>, s: State, m: Payload)
    requires Ready(cfg, input, s) && Lone(s) && InBox(BoxAt(s.rest.mail, s.core.height), m)
    ensures m.from >= 1
  {
    hide P.Inv, P.Unforged, ProposalOK, BlocksOK, TransactionsOK, CompleteOK, IndexAt;
    LoneIndex(cfg, s);
    assert MailItemOK(s, s.core.height, m);
    if m.from == 0 {
      OwnWasSent(cfg, input, s, m);
    }
  }

  // The cache of a node does not change when it asks for a view or enters it.
  lemma ReplayIsForeign(cfg: Config, input: set<Payload>, s: State, s1: State, view: byte)
    requires Ready(cfg, input, s) && Lone(s) && view > s.core.view
    requires s1 == s || exists reason :: s1 == MakeChangeView(s, reason)
    ensures Initialize(cfg, ResetView(s1, view, s1.rest.lastTimestamp)).core.view == view
  {
    hide P.Inv, P.Unforged, ReceiveAll, Replay, Coherent;
    var t := ResetView(s1, view, s1.rest.lastTimestamp);
    assert CachedMail(cfg, t) == Replay(BoxAt(s.rest.mail, s.core.height), MapOrder(cfg, s1.rest.calls));
    forall m | m in CachedMail(cfg, t)
      ensures m.from >= 1
    {
      ForeignMail(cfg, input, s, m);
    }
    ForeignIsDropped(cfg, TakeMail(t), CachedMail(cfg, t));
  }

  // A view change enters the view that was asked for, and nothing more.
  lemma EntersOne(cfg: Config, input: set<Payload>, s: State, view: byte)
    requires Ready(cfg, input, s) && Lone(s) && !s.core.blockProcessed && !Locked(cfg, s.core)
    ensures var v := CheckChangeView(cfg, s, view).core.view; v == s.core.view || v == view
  {
    hide P.Inv, P.Unforged, P.Reaches, Coherent, ResetView, CachedMail, ReceiveAll, Voters, TakeMail;
    var c := s.core;
    if c.view < view && |Voters(c.changeViews, c.n, AsksFor(view))| >= M(c.n) {
      var s1 :=
        if !WatchOnly(cfg, c) && c.me in c.changeViews && c.changeViews[c.me].NewView() < view
        then MakeChangeView(s, CVChangeAgreement) else s;
      ReplayIsForeign(cfg, input, s, s1, view);
    }
  }

  // ---- what it receives ----

  lemma StaysWithin(cfg: Config, input: set<Payload>, known: set<Payload>, s: State, r: State, b: nat)
    requires Within(cfg, input, known, s, b) && Does(cfg, input, s, r) && Later(s, r) && r.core.view <= b
    ensures Within(cfg, input, known, r, b)
  {
    hide P.Inv, P.Unforged, P.Reaches, Coherent, Survives, ListOK;
    P.ReachesKeeps(cfg, input, s.core, r.core);
  }

  // The request of the single validator comes from the node itself, which has it already.
  lemma OwnRequestIsKnown(cfg: Config, input: set<Payload>, s: State, msg: Payload)
    requires Ready(cfg, input, s) && Lone(s) && msg.body.PrepareRequest? && msg in s.core.delivered
    requires msg.from == 0 && msg.height == s.core.height
    ensures OnPrepareRequest(cfg, s, msg) == s
  {
    hide P.Unforged, Coherent, P.PrepsOK, P.MatchOK, P.CommitsOK, P.ViewsOK, P.WatchOK, P.LockOK, P.SignaturesOK;
    hide P.AnswersOK, P.CountedOK, P.BuiltOK, P.OwnBlockOK, P.CurrentBlockOK, P.ProcessedOnce, P.VoteOnce, P.CommitOnce;
    hide P.CommitLast, CreateAndCheckBlock, SendChangeView, AdoptRequest, BlockOK, Respond, IndexAt;
    LoneIndex(cfg, s);
    if msg.view == s.core.view {
      assert msg in s.core.sent;
    }
  }

  lemma DispatchWithin(cfg: Config, input: set<Payload>, known: set<Payload>, s: State, msg: Payload, b: nat)
    requires Within(cfg, input, known, s, b) && msg.from == 0 && !msg.body.Recovery?
    requires Arrived(s, msg) || msg.body.RecoveryRequest?
    ensures Dispatch(cfg, s, msg).core.view <= b
  {
    hide P.Inv, P.Unforged, Coherent, CheckChangeView, OnPrepareRequest, OnPrepareResponse, OnPreCommit, OnCommit;
    if msg.body.PrepareRequest? {
      OwnRequestIsKnown(cfg, input, s, msg);
    } else if msg.body.ChangeView? {
      var c := s.core;
      if msg.NewView() > c.view && !Locked(cfg, c)
         && !(msg.from in c.changeViews && msg.NewView() < c.changeViews[msg.from].NewView()) {
        var t := s.(core := c.(changeViews := c.changeViews[msg.from := msg]));
        assert Ready(cfg, input, t) by {
          CoherenceCarries(s, t);
          Step(cfg, input, s, P.StoreChangeView(msg), t);
        }
        EntersOne(cfg, input, t, msg.body.newView);
      }
    }
  }

  lemma PlainWithin(cfg: Config, input: set<Payload>, known: set<Payload>, s: State, msg: Payload, b: nat)
    requires Within(cfg, input, known, s, b) && (msg in input || msg in s.core.delivered) && !msg.body.Recovery?
    ensures Within(cfg, input, known, OnReceive(cfg, s, msg), b)
  {
    hide P.Inv, P.Unforged, P.Reaches, Coherent, Cache, Dispatch, See, Survives, ListOK;
    OnReceiveDoes(cfg, input, s, msg);
    if msg.from < s.core.n && msg.height == s.core.height && !FromFuture(s.core, msg)
       && (!s.core.blockProcessed || msg.body.RecoveryRequest?) {
      TakenDoes(cfg, input, s, msg);
      StaysWithin(cfg, input, known, s, Taken(s, msg), b);
      DispatchWithin(cfg, input, known, Taken(s, msg), msg, b);
    }
    StaysWithin(cfg, input, known, s, OnReceive(cfg, s, msg), b);
  }

  lemma {:induction false} AllWithin(cfg: Config, input: set<Payload>, known: set<Payload>, s: State,
                                     msgs: seq<Payload>, b: nat)
    requires Within(cfg, input, known, s, b) && forall m :: m in msgs ==> m in input && !m.body.Recovery?
    ensures Within(cfg, input, known, ReceiveAll(cfg, s, msgs), b)
    decreases |msgs|
  {
    hide Within, OnReceive;
    if msgs != [] {
      PlainWithin(cfg, input, known, s, msgs[0], b);
      AllWithin(cfg, input, known, OnReceive(cfg, s, msgs[0]), msgs[1..], b);
    }
  }

  lemma ViewsWithin(cfg: Config, input: set<Payload>, known: set<Payload>, b: nat)
    ensures forall t | Within(cfg, input, known, t, b) :: t.core.view <= b
  {
  }

  lemma PreparationsWithin(cfg: Config, input: set<Payload>, known: set<Payload>, s: State, msg: Payload, b: nat)
    requires Within(cfg, input, known, s, b) && msg.body.Recovery? && forall m :: m in msg.body.items ==> m in input
    ensures Within(cfg, input, known, RecoverPreparations(cfg, s, msg), b)
  {
    hide Within, ReceiveAll, OnReceive, Unpack, Locked, MoreThanFNodesCommittedOrLost, ViewChanging, CommitSent;
    if RecoverPreparations(cfg, s, msg) != s {
      var requests, s1 := Unpack(msg.body.items, PrepareRequestType), s;
      if !RequestKnown(s.core) && requests != [] {
        assert requests[0] in requests;
        s1 := OnReceive(cfg, s, requests[0]);
        PlainWithin(cfg, input, known, s, requests[0], b);
      }
      AllWithin(cfg, input, known, s1, Unpack(msg.body.items, PrepareResponseType), b);
    }
  }

  lemma RecoveryWithin(cfg: Config, input: set<Payload>, known: set<Payload>, s: State, msg: Payload, b: nat)
    requires Within(cfg, input, known, s, b) && msg.body.Recovery? && forall m :: m in msg.body.items ==> m in input
    ensures OnRecoveryMessage(cfg, s, msg).core.view <= b
  {
    hide Within, ReceiveAll, RecoverPreparations, Unpack, Locked;
    var items, s1 := msg.body.items, s;
    if msg.view > s.core.view && !Locked(cfg, s.core) {
      s1 := ReceiveAll(cfg, s, Unpack(items, ChangeViewType));
      AllWithin(cfg, input, known, s, Unpack(items, ChangeViewType), b);
    }
    var s2 := RecoverPreparations(cfg, s1, msg);
    PreparationsWithin(cfg, input, known, s1, msg, b);
    var s3 := ReceiveAll(cfg, s2, Unpack(items, PreCommitType));
    AllWithin(cfg, input, known, s2, Unpack(items, PreCommitType), b);
    AllWithin(cfg, input, known, s3, Unpack(items, CommitType), b);
    assert forall t | Within(cfg, input, known, t, b) :: t.core.view <= b by {
      ViewsWithin(cfg, input, known, b);
    }
  }

  lemma ReceiveWithin(cfg: Config, input: set<Payload>, known: set<Payload>, s: State, msg: Payload, b: nat)
    requires Within(cfg, input, known, s, b) && msg in input
    requires msg.body.Recovery? ==> forall m :: m in msg.body.items ==> m in input
    ensures OnReceive(cfg, s, msg).core.view <= b
  {
    hide P.Inv, P.Unforged, P.Reaches, Coherent, Cache, See, Survives, ListOK, OnRecoveryMessage;
    if msg.body.Recovery? && msg.height == s.core.height {
      TakenDoes(cfg, input, s, msg);
      StaysWithin(cfg, input, known, s, Taken(s, msg), b);
      RecoveryWithin(cfg, input, known, Taken(s, msg), msg, b);
    } else if !msg.body.Recovery? {
      PlainWithin(cfg, input, known, s, msg, b);
    }
  }

  // ---- any call ----

  // What comes from the node itself was sent before the call, so it asks for the next view at most.
  lemma OwnAsksForNext(cfg: Config, input: set<Payload>, s: State)
    requires Ready(cfg, input, s) && Lone(s)
    ensures Within(cfg, input, s.core.delivered + input, s, s.core.view as nat + 1)
  {
    hide P.Inv, P.Unforged, Coherent, IndexAt;
    LoneIndex(cfg, s);
    forall m | m in s.core.delivered + input && m.from == 0 && m.height == s.core.height && m.body.ChangeView?
      ensures m.NewView() <= s.core.view as nat + 1
    {
      OwnWasSent(cfg, input, s, m);
    }
  }

  lemma AsksForNext(cfg: Config, input: set<Payload>, s: State, reason: Reason)
    requires Ready(cfg, input, s) && Lone(s) && !s.core.blockProcessed && !Locked(cfg, s.core)
    ensures SendChangeView(cfg, s, reason).core.view <= s.core.view as nat + 1
  {
    hide P.Inv, P.Unforged, P.Reaches, Coherent, CheckChangeView, MoreThanFNodesCommittedOrLost, Survives, ListOK;
    hide ProcessMissingTx, HasAllTransactions, RequestKnown, ResetView, Keeps, Voters, Accounted, P.Evolves;
    if !WatchOnly(cfg, s.core) {
      RecoveryRequestIsLater(cfg, s);
      MissingTxKeepsCore(cfg, s, s.rest.txs);
      var reason' := if !HasAllTransactions(s) && reason == CVTimeout then CVTxNotFound else reason;
      AskViewDoes(cfg, input, s, reason');
      EntersOne(cfg, input, MakeChangeView(s, reason'), NextView(s.core.view));
    }
  }

  lemma TimeoutIsLater(cfg: Config, s: State, height: nat, view: byte, force: bool)
    ensures Later(s, OnTimeout(cfg, s, height, view, force))
  {
    hide SendPrepareRequest, SendChangeView, RecoveryItems, Locked, RequestKnown;
  }

  lemma TimeoutWithin(cfg: Config, input: set<Payload>, s: State, height: nat, view: byte, force: bool)
    requires Ready(cfg, input, s) && Lone(s)
    ensures OnTimeout(cfg, s, height, view, force).core.view <= s.core.view as nat + 1
  {
    hide P.Inv, P.Unforged, P.Reaches, Coherent, SendPrepareRequest, SendChangeView;
    LoneIndex(cfg, s);
    if !s.core.blockProcessed && !Locked(cfg, s.core) {
      AsksForNext(cfg, input, s, CVTimeout);
    }
  }

  // A node that turns to a height of which it is the single validator has nothing of its own to replay.
  lemma FreshHeight(cfg: Config, input: set<Payload>, s: State, height: nat, ts: nat)
    requires Ready(cfg, input, s) && height > s.core.height && !s.rest.crashed
    requires Lone(Reset(cfg, s, height, ts))
    ensures Reset(cfg, s, height, ts).core.view == 0
  {
    hide P.Inv, P.Unforged, ReceiveAll, Replay, IndexAt, ProposalOK, BlocksOK, TransactionsOK, CompleteOK;
    var t := ResetHeight(cfg, s, height, ts);
    forall m | m in CachedMail(cfg, t)
      ensures m.from >= 1
    {
      assert InBox(BoxAt(s.rest.mail, height), m);
      assert MailItemOK(s, height, m);
      if m.from == 0 {
        OwnWasSent(cfg, input, s, m);
      }
    }
    ForeignIsDropped(cfg, TakeMail(t), CachedMail(cfg, t));
  }

  /** A single validator is a quorum by itself, and still no call raises its view by more than one: nothing of its
      own that a call brings was sent in a later view, and what others say in its cache is dropped. */
  lemma LoneViewGrowsByOne(cfg: Config, s: State, e: Event)
    requires Ready(cfg, Input(e), s) && Proper(s, e) && Lone(Handle(cfg, s, e))
    ensures var c := Handle(cfg, s, e).core;
      c.view <= if c.height == s.core.height then s.core.view as nat + 1 else 0
  {
    hide P.Inv, P.Unforged, P.Reaches, Coherent, OnReceive, OnTimeout, Initialize, AddTransaction;
    match e {
      case Received(msg) =>
        OwnAsksForNext(cfg, Input(e), s);
        ReceiveWithin(cfg, Input(e), s.core.delivered + Input(e), s, msg, s.core.view as nat + 1);
      case Timeout(h, v) =>
        TimeoutIsLater(cfg, s, h, v, false);
        TimeoutWithin(cfg, Input(e), s, h, v, false);
      case NewTransaction(h, v) =>
        TimeoutIsLater(cfg, s, h, v, true);
        TimeoutWithin(cfg, Input(e), s, h, v, true);
      case ProposedTransaction(tx) => LoneIndex(cfg, s);
      case NextHeight(h, ts) =>
        if !s.rest.crashed {
          FreshHeight(cfg, {}, s, h, ts);
        }
    }
  }
}
