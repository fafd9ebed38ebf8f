/** What a recovery message carries, and what becomes of it at a node that lags. */
module Redelivery {
  import opened Quorum
  import opened Payloads
  import opened NodeState
  import opened Mailbox
  import opened NodeSpec
  import opened Refinement
  import D = Duties
  import P = Protocol

  // ---- what is packed ----

  predicate InSlots(slots: Slots, n: nat, p: Payload) {
    exists i :: 0 <= i < n && i in slots && slots[i] == p
  }

  /** A recovery message packs exactly the stored preparations and the ChangeViews of the last view change, and beside
      them the stored PreCommits of a node that sent its own PreCommit and the stored Commits of one that sent its own
      Commit. */
  lemma PackedExactly(cfg: Config, c: Core, p: Payload)
    requires P.Inv(cfg, c)
    ensures var packed := p in RecoveryItems(cfg, c);
      && (packed && p.IsPreparation() <==> InSlots(c.preps, c.n, p))
      && (packed && p.body.ChangeView? <==> InSlots(c.lastChangeViews, c.n, p))
      && (packed && p.body.PreCommit? <==> PreCommitSent(cfg, c) && InSlots(c.preCommits, c.n, p))
      && (packed && p.body.Commit? <==> CommitSent(cfg, c) && InSlots(c.commits, c.n, p))
      && (packed ==> p.IsPreparation() || p.body.ChangeView? || p.IsSignature())
  {
    hide P.History, P.MatchOK, P.WatchOK, P.LockOK, P.Remembered, P.ViewCertified, CommitSent, PreCommitSent;
  }

  // ---- what is handed on ----

  // A message of this height that a handler may take.
  predicate Timely(c: Core, m: Payload) {
    && m.height == c.height && m.from < c.n && !m.body.Recovery? && !m.body.Malformed?
    && (m.view <= c.view || m.body.ChangeView?)
  }

  // m reached its handler between two states, or nothing is handled any more.
  ghost predicate HandledBy(s: State, r: State, m: Payload) {
    || (s.rest.handled <= r.rest.handled && m in r.rest.handled[|s.rest.handled|..])
    || r.rest.crashed || r.core.blockProcessed
  }

  // What the handlers keep, of all that is needed here.
  ghost predicate Goes(s: State, r: State) {
    && s.rest.handled <= r.rest.handled && Later(s, r)
    && (s.rest.crashed ==> r.rest.crashed) && (s.core.blockProcessed ==> r.core.blockProcessed)
  }

  lemma DoesGo(cfg: Config, input: set<Payload>, s: State, r: State)
    requires Ready(cfg, input, s) && Does(cfg, input, s, r) && Later(s, r)
    ensures Goes(s, r) && Ready(cfg, input, r)
  {
    hide P.Inv, P.Unforged, P.Reaches, Coherent, OffersProposals, Refused, Vouches, ListOK, Heard, P.LockKept;
    P.ReachesKeeps(cfg, input, s.core, r.core);
  }

  lemma ReceivedIsHandled(cfg: Config, input: set<Payload>, s: State, m: Payload)
    requires Ready(cfg, input, s) && (m in input || m in s.core.delivered) && Timely(s.core, m)
    ensures HandledBy(s, OnReceive(cfg, s, m), m)
  {
    hide P.Inv, P.Unforged, P.Reaches, Coherent, Dispatch, See, Survives, Keeps, ListOK, Cache;
    var t, r := Taken(s, m), OnReceive(cfg, s, m);
    if s.rest.crashed || (s.core.blockProcessed && !m.body.RecoveryRequest?) {
      OnReceiveDoes(cfg, input, s, m);
      DoesGo(cfg, input, s, r);
    } else {
      TakenDoes(cfg, input, s, m);
      DoesGo(cfg, input, s, t);
      DispatchDoes(cfg, input, t, m);
      DoesGo(cfg, input, t, Dispatch(cfg, t, m));
      assert m == t.rest.handled[|s.rest.handled|] == r.rest.handled[|s.rest.handled|];
    }
  }

  lemma HandledLater(s: State, t: State, r: State, m: Payload)
    requires Goes(s, t) && Goes(t, r) && (HandledBy(s, t, m) || HandledBy(t, r, m))
    ensures HandledBy(s, r, m)
  {
    if m in t.rest.handled[|s.rest.handled|..] {
      var i :| |s.rest.handled| <= i < |t.rest.handled| && t.rest.handled[i] == m;
      assert r.rest.handled[i] == m;
    } else if m in r.rest.handled[|t.rest.handled|..] {
      var i :| |t.rest.handled| <= i < |r.rest.handled| && r.rest.handled[i] == m;
      assert r.rest.handled[i] == m;
    }
  }

  lemma {:induction false} AllAreHandled(cfg: Config, input: set<Payload>, s: State, msgs: seq<Payload>, m: Payload)
    requires Ready(cfg, input, s) && Deliverable(input, s, msgs) && m in msgs && Timely(s.core, m)
    ensures HandledBy(s, ReceiveAll(cfg, s, msgs), m)
    decreases |msgs|
  {
    hide Ready, P.Inv, P.Unforged, P.Reaches, OnReceive, HandledBy, Goes, Survives, Keeps, ListOK;
    var t, r, rest := OnReceive(cfg, s, msgs[0]), ReceiveAll(cfg, s, msgs), msgs[1..];
    OnReceiveDoes(cfg, input, s, msgs[0]);
    DoesGo(cfg, input, s, t);
    DeliveredStays(cfg, input, s, t, rest);
    ReceiveAllDoes(cfg, input, t, rest);
    DoesGo(cfg, input, t, r);
    if m == msgs[0] {
      ReceivedIsHandled(cfg, input, s, m);
    } else {
      assert m in rest;
      AllAreHandled(cfg, input, t, rest, m);
    }
    HandledLater(s, t, r, m);
  }

  predicate TakesPreparations(cfg: Config, s: State, msg: Payload) {
    && msg.view == s.core.view && !CommitSent(cfg, s.core)
    && (!AntiMEV(cfg, s.core.height) || !PreCommitSent(cfg, s.core))
    && (!ViewChanging(cfg, s.core) || MoreThanFNodesCommittedOrLost(s))
  }

  // Which packed payloads the node needs: ChangeViews if the sender is ahead, preparations of the own view if it is not
  // bound or leaving, and the signatures of every view it has reached.
  ghost predicate Due(cfg: Config, s: State, msg: Payload, m: Payload)
    requires msg.body.Recovery?
  {
    var c, requests := s.core, Unpack(msg.body.items, PrepareRequestType);
    match m.body
    case ChangeView(_, _) => msg.view > c.view && !Locked(cfg, c)
    case PrepareRequest(_, _, _) => TakesPreparations(cfg, s, msg) && !RequestKnown(c) && [m] <= requests
    case PrepareResponse(_) => TakesPreparations(cfg, s, msg)
    case PreCommit(_) => msg.view <= c.view
    case Commit(_) => msg.view <= c.view
    case _ => false
  }

  lemma StaysItself(s: State)
    ensures Goes(s, s)
  {
  }

  lemma PreparationsAreHandled(cfg: Config, input: set<Payload>, s: State, msg: Payload, m: Payload)
    requires Ready(cfg, input, s) && msg.body.Recovery? && (forall p :: p in msg.body.items ==> p in input)
    requires TakesPreparations(cfg, s, msg) && m in msg.body.items && Timely(s.core, m)
    requires m.body.PrepareResponse?
             || (m.body.PrepareRequest? && !RequestKnown(s.core)
                 && m == Unpack(msg.body.items, PrepareRequestType)[0])
    ensures HandledBy(s, RecoverPreparations(cfg, s, msg), m)
  {
    hide Ready, P.Reaches, OnReceive, ReceiveAll, HandledBy, Goes, Survives, Keeps, ListOK;
    hide MoreThanFNodesCommittedOrLost;
    hide ViewChanging, CommitSent, PreCommitSent;
    var requests, responses := Unpack(msg.body.items, PrepareRequestType), Unpack(msg.body.items, PrepareResponseType);
    var t := s;
    if !RequestKnown(s.core) && requests != [] {
      assert requests[0] in requests;
      t := OnReceive(cfg, s, requests[0]);
      OnReceiveDoes(cfg, input, s, requests[0]);
      DoesGo(cfg, input, s, t);
    } else {
      StaysItself(s);
    }
    var r := ReceiveAll(cfg, t, responses);
    ReceiveAllDoes(cfg, input, t, responses);
    DoesGo(cfg, input, t, r);
    if m.body.PrepareRequest? {
      ReceivedIsHandled(cfg, input, s, m);
    } else {
      assert m in responses;
      AllAreHandled(cfg, input, t, responses, m);
    }
    HandledLater(s, t, r, m);
  }

  // The three parts of the handler, and the states between them.
  lemma Parts(cfg: Config, input: set<Payload>, s: State, msg: Payload)
    returns (s1: State, s2: State, s3: State)
    requires Ready(cfg, input, s) && msg.body.Recovery? && (forall p :: p in msg.body.items ==> p in input)
    requires msg.view > s.core.view ==> !Locked(cfg, s.core)
    ensures var items, r := msg.body.items, OnRecoveryMessage(cfg, s, msg);
      && s1 == (if msg.view > s.core.view then ReceiveAll(cfg, s, Unpack(items, ChangeViewType)) else s)
      && s2 == RecoverPreparations(cfg, s1, msg)
      && (msg.view <= s2.core.view ==>
            && s3 == ReceiveAll(cfg, s2, Unpack(items, PreCommitType))
            && r == ReceiveAll(cfg, s3, Unpack(items, CommitType)))
      && (msg.view > s2.core.view ==> s3 == s2 == r)
      && Ready(cfg, input, s1) && Ready(cfg, input, s2) && Ready(cfg, input, s3)
      && Goes(s, s1) && Goes(s1, s2) && Goes(s2, s3) && Goes(s3, r)
  {
    hide Ready, P.Reaches, ReceiveAll, RecoverPreparations, HandledBy, Goes, Survives, Keeps, ListOK, Locked;
    var items, r := msg.body.items, OnRecoveryMessage(cfg, s, msg);
    s1 := s;
    StaysItself(s);
    if msg.view > s.core.view {
      s1 := ReceiveAll(cfg, s, Unpack(items, ChangeViewType));
      ReceiveAllDoes(cfg, input, s, Unpack(items, ChangeViewType));
      DoesGo(cfg, input, s, s1);
    }
    s2 := RecoverPreparations(cfg, s1, msg);
    RecoverPreparationsDoes(cfg, input, s1, msg);
    DoesGo(cfg, input, s1, s2);
    s3 := s2;
    StaysItself(s2);
    if msg.view <= s2.core.view {
      s3 := ReceiveAll(cfg, s2, Unpack(items, PreCommitType));
      ReceiveAllDoes(cfg, input, s2, Unpack(items, PreCommitType));
      DoesGo(cfg, input, s2, s3);
      ReceiveAllDoes(cfg, input, s3, Unpack(items, CommitType));
      DoesGo(cfg, input, s3, r);
    }
  }

  lemma GoesBoth(s: State, t: State, r: State)
    requires Goes(s, t) && Goes(t, r)
    ensures Goes(s, r)
  {
  }

  lemma PartsAreHandled(cfg: Config, input: set<Payload>, s: State, msg: Payload, m: Payload)
    requires Ready(cfg, input, s) && msg.body.Recovery? && (forall p :: p in msg.body.items ==> p in input)
    requires m in msg.body.items && Timely(s.core, m) && Due(cfg, s, msg, m)
    ensures HandledBy(s, OnRecoveryMessage(cfg, s, msg), m)
  {
    hide Ready, P.Reaches, ReceiveAll, RecoverPreparations, HandledBy, Survives, Keeps, ListOK, Locked;
    hide OnRecoveryMessage;
    hide MoreThanFNodesCommittedOrLost, ViewChanging;
    var items, r := msg.body.items, OnRecoveryMessage(cfg, s, msg);
    var s1, s2, s3 := Parts(cfg, input, s, msg);
    GoesBoth(s1, s2, s3);
    GoesBoth(s1, s3, r);
    GoesBoth(s, s1, s2);
    GoesBoth(s, s2, s3);
    GoesBoth(s2, s3, r);
    match m.body {
      case ChangeView(_, _) =>
        AllAreHandled(cfg, input, s, Unpack(items, ChangeViewType), m);
        HandledLater(s, s1, r, m);
      case PrepareRequest(_, _, _) =>
        PreparationsAreHandled(cfg, input, s, msg, m);
        HandledLater(s, s2, r, m);
      case PrepareResponse(_) =>
        PreparationsAreHandled(cfg, input, s, msg, m);
        HandledLater(s, s2, r, m);
      case PreCommit(_) =>
        AllAreHandled(cfg, input, s2, Unpack(items, PreCommitType), m);
        HandledLater(s, s2, s3, m);
        HandledLater(s, s3, r, m);
      case Commit(_) =>
        AllAreHandled(cfg, input, s3, Unpack(items, CommitType), m);
        HandledLater(s, s3, r, m);
      case _ =>
    }
  }

  lemma IsHandedOn(cfg: Config, s: State, msg: Payload)
    requires !s.rest.crashed && !s.core.blockProcessed
    requires msg.body.Recovery? && msg.height == s.core.height && msg.from < s.core.n
    ensures OnReceive(cfg, s, msg) == OnRecoveryMessage(cfg, Taken(s, msg), msg)
  {
    hide OnPrepareRequest, OnPrepareResponse, OnPreCommit, OnCommit, OnChangeView, OnRecoveryRequest, Cache;
    hide OnRecoveryMessage, See;
  }

  /** Every packed payload that a node needs reaches its handler, in whatever order the message brings them, unless the
      process dies or the block is processed meanwhile. */
  lemma RecoveryIsUnpacked(cfg: Config, s: State, msg: Payload, m: Payload)
    requires Ready(cfg, Input(Received(msg)), s) && !s.rest.crashed && !s.core.blockProcessed
    requires msg.body.Recovery? && msg.height == s.core.height && msg.from < s.core.n
    requires m in msg.body.items && Timely(s.core, m) && Due(cfg, Taken(s, msg), msg, m)
    ensures HandledBy(s, OnReceive(cfg, s, msg), m)
  {
    hide P.Inv, P.Unforged, P.Reaches, Coherent, OnRecoveryMessage, See, Survives, Keeps, ListOK, Due, HandledBy;
    var input, t := Input(Received(msg)), Taken(s, msg);
    TakenDoes(cfg, input, s, msg);
    DoesGo(cfg, input, s, t);
    PartsAreHandled(cfg, input, t, msg, m);
    OnRecoveryMessageDoes(cfg, input, t, msg);
    DoesGo(cfg, input, t, OnRecoveryMessage(cfg, t, msg));
    IsHandedOn(cfg, s, msg);
    HandledLater(s, t, OnReceive(cfg, s, msg), m);
  }

  // ---- Commits that were missed ----

  // The Commit signs something else than the proposal that the node knows for its view.
  ghost predicate Mismatch(c: Core, p: Payload) {
    p.view == c.view && P.Proposed(c) && !Verifies(P.ProposedHeader(c), p.from, p.Signed())
  }

  // The Commit has its slot, or it is not wanted.
  ghost predicate Settles(s: State, p: Payload) {
    p.from in s.core.commits || s.rest.crashed || s.core.blockProcessed || Mismatch(s.core, p)
  }

  lemma SparesTheRest(cfg: Config, s: State, m: Payload, i: nat)
    requires m.body.Commit?
    ensures var r := OnCommit(cfg, s, m);
      && r.core.view == s.core.view && r.core.primary == s.core.primary && r.core.preps == s.core.preps
      && (i in s.core.commits ==> i in r.core.commits)
  {
    hide CheckCommit, Verifies, Proposal, AntiMEV;
    D.BlockOnly(cfg, MakeHeader(cfg, Tick(s.(core := s.core.(commits := s.core.commits[m.from := m])))));
  }

  lemma HandlesCommit(cfg: Config, input: set<Payload>, s: State, m: Payload)
    requires Ready(cfg, input, s) && Arrived(s, m) && m.body.Commit? && m.view <= s.core.view
    requires cfg.verifyPayload(s.rest.calls, m)
    ensures Settles(OnCommit(cfg, s, m), m)
  {
    hide P.Inv, P.Unforged, P.Reaches, Coherent, CheckCommit, MakeHeader, Survives, Keeps, ListOK, Verifies;
    if m.from !in s.core.commits && m.view == s.core.view {
      var t := Tick(s.(core := s.core.(commits := s.core.commits[m.from := m])));
      CoherenceCarries(s, t);
      D.StoredReady(cfg, input, s, P.StoreCommit(m), t);
      HeadersDo(cfg, input, t);
      var u := MakeHeader(cfg, t);
      if u.rest.header.Some? {
        CachedHeaderIsProposed(cfg, input, u, u.rest.header);
      }
      D.BlockOnly(cfg, u);
    }
  }

  // A Commit changes no preparation and leaves every other Commit where it is.
  lemma CommitLands(cfg: Config, input: set<Payload>, s: State, m: Payload, i: nat)
    requires Ready(cfg, input, s) && (m in input || m in s.core.delivered)
    requires m.body.Commit? && m.height == s.core.height && m.view <= s.core.view && m.from < s.core.n
    ensures var r := OnReceive(cfg, s, m);
      && r.core.view == s.core.view && r.core.primary == s.core.primary && r.core.preps == s.core.preps
      && (i in s.core.commits ==> i in r.core.commits)
    ensures cfg.verifyPayload(s.rest.calls, m) ==> Settles(OnReceive(cfg, s, m), m)
  {
    hide P.Inv, P.Unforged, P.Reaches, Coherent, CheckCommit, MakeHeader, OnCommit, Survives, Keeps, ListOK, Verifies;
    hide See;
    hide OnPrepareRequest, OnPrepareResponse, OnPreCommit, OnChangeView, OnRecoveryMessage, OnRecoveryRequest, Cache;
    if !s.rest.crashed && !s.core.blockProcessed {
      var t := Taken(s, m);
      TakenDoes(cfg, input, s, m);
      assert OnReceive(cfg, s, m) == OnCommit(cfg, t, m);
      SparesTheRest(cfg, t, m, i);
      if cfg.verifyPayload(s.rest.calls, m) {
        HandlesCommit(cfg, input, t, m);
      }
    }
  }

  // What is settled stays settled.
  lemma {:induction false} AllSettled(cfg: Config, input: set<Payload>, s: State, msgs: seq<Payload>, p: Payload)
    requires Ready(cfg, input, s) && (forall m :: m in msgs ==> m in input) && Settles(s, p)
    requires forall m :: m in msgs ==>
      m.body.Commit? && m.height == s.core.height && m.view <= s.core.view && m.from < s.core.n
    ensures Settles(ReceiveAll(cfg, s, msgs), p)
    decreases |msgs|
  {
    hide Ready, OnReceive, Survives, Keeps, ListOK;
    if msgs != [] {
      var t, rest := OnReceive(cfg, s, msgs[0]), msgs[1..];
      assert forall m :: m in rest ==> m in msgs;
      OnReceiveDoes(cfg, input, s, msgs[0]);
      DoesGo(cfg, input, s, t);
      CommitLands(cfg, input, s, msgs[0], p.from);
      AllSettled(cfg, input, t, rest, p);
    }
  }

  lemma {:induction false} AllLand(cfg: Config, input: set<Payload>, s: State, msgs: seq<Payload>, p: Payload)
    requires Ready(cfg, input, s) && (forall m :: m in msgs ==> m in input)
    requires forall m :: m in msgs ==>
      m.body.Commit? && m.height == s.core.height && m.view <= s.core.view && m.from < s.core.n
    requires p in msgs && forall k :: cfg.verifyPayload(k, p)
    ensures Settles(ReceiveAll(cfg, s, msgs), p)
    decreases |msgs|
  {
    hide Ready, OnReceive, Survives, Keeps, ListOK, Settles, Goes;
    var t, rest := OnReceive(cfg, s, msgs[0]), msgs[1..];
    assert forall m :: m in rest ==> m in msgs;
    OnReceiveDoes(cfg, input, s, msgs[0]);
    DoesGo(cfg, input, s, t);
    CommitLands(cfg, input, s, msgs[0], p.from);
    if p == msgs[0] {
      AllSettled(cfg, input, t, rest, p);
    } else {
      assert p in rest;
      AllLand(cfg, input, t, rest, p);
    }
  }

  // A stored Commit of another validator was delivered.
  lemma StoredWasDelivered(cfg: Config, input: set<Payload>, s: State, i: int)
    requires Ready(cfg, input, s) && i in s.core.commits && i != s.core.me
    ensures var q := s.core.commits[i];
      q in s.core.delivered && q.body.Commit? && q.from == i && q.height == s.core.height
  {
    hide P.Unforged, Coherent, P.MatchOK, P.ViewsOK, P.WatchOK, P.LockOK, P.Remembered, P.PrepsOK;
    hide P.AnswersOK, P.CountedOK, P.BuiltOK, P.OwnBlockOK, P.CurrentBlockOK, P.ProcessedOnce, P.VoteOnce, P.CommitOnce;
    hide P.CommitLast, P.SignaturesOK, P.OwnGenuine;
  }

  // What a correct node packs of Commits.
  lemma SenderIsFair(cfg: Config, c: Core, i: int)
    requires P.Inv(cfg, c) && CommitSent(cfg, c) && i in c.commits
    ensures 0 <= c.me < c.n && 0 <= i < c.n && c.commits[i].from == i
    ensures c.commits[i] in Unpack(RecoveryItems(cfg, c), CommitType)
    ensures forall m :: m in Unpack(RecoveryItems(cfg, c), CommitType) ==>
      m.body.Commit? && m.height == c.height && m.view <= c.view && m.from < c.n && (m.from == i ==> m == c.commits[i])
  {
    hide P.History, P.MatchOK, P.WatchOK, P.LockOK, P.Remembered, P.ViewsOK, P.PrepsOK, RecoveryItems;
    assert InSlots(c.commits, c.n, c.commits[i]);
    PackedExactly(cfg, c, c.commits[i]);
    forall m | m in Unpack(RecoveryItems(cfg, c), CommitType)
      ensures InSlots(c.commits, c.n, m) && m.body.Commit?
    {
      PackedExactly(cfg, c, m);
    }
  }

  lemma LaterAll(s: State, s1: State, s2: State, s3: State)
    requires Goes(s, s1) && Goes(s1, s2) && Goes(s2, s3)
    ensures Later(s, s3) && Later(s, s2)
  {
  }

  // The only Commit of i that can be in its slot is the one that was delivered.
  lemma OnlyOne(cfg: Config, s: State, msg: Payload, i: int, p: Payload)
    requires Ready(cfg, Input(Received(msg)), s) && msg.body.Recovery? && i != s.core.me
    requires forall q :: q in s.core.delivered && q.body.Commit? && q.from == i && q.height == s.core.height ==> q == p
    requires forall q :: q in msg.body.items && q.body.Commit? && q.from == i && q.height == s.core.height ==> q == p
    ensures var r := OnReceive(cfg, s, msg); i in r.core.commits ==> r.core.commits[i] == p
  {
    hide P.Inv, P.Unforged, P.Reaches, Coherent, OnReceive, Survives, Keeps, ListOK, P.LockKept;
    var input, r := Input(Received(msg)), OnReceive(cfg, s, msg);
    OnReceiveDoes(cfg, input, s, msg);
    P.ReachesKeeps(cfg, input, s.core, r.core);
    if i in r.core.commits {
      StoredWasDelivered(cfg, input, r, i);
    }
  }

  /** A node that was cut off gets back the Commits it missed: of those that a correct node of its view packs, each one
      that the application lets pass is in its slot afterwards, unless the block is processed, the process dies, or the
      Commit signs another header than the proposal. */
  lemma CommitsComeBack(cfg: Config, s: State, cfg': Config, sender: State, i: nat)
    requires P.Inv(cfg', sender.core) && CommitSent(cfg', sender.core) && i in sender.core.commits
    requires sender.core.height == s.core.height && sender.core.n == s.core.n && sender.core.view == s.core.view
    requires !s.rest.crashed && !s.core.blockProcessed && i != s.core.me
    requires var msg, p := Own(sender.core, Recovery(RecoveryItems(cfg', sender.core))), sender.core.commits[i];
      && Ready(cfg, Input(Received(msg)), s) && (forall k :: cfg.verifyPayload(k, p))
      && (forall q :: q in s.core.delivered && q.body.Commit? && q.from == i && q.height == s.core.height ==> q == p)
    ensures var p := sender.core.commits[i];
      var r := OnReceive(cfg, s, Own(sender.core, Recovery(RecoveryItems(cfg', sender.core))));
      || (i in r.core.commits && r.core.commits[i] == p)
      || r.rest.crashed || r.core.blockProcessed || Mismatch(r.core, p)
  {
    hide Ready, OnReceive, Survives, Keeps, ListOK, Goes, OnRecoveryMessage, ReceiveAll, Mismatch, See;
    hide RecoverPreparations, Unpack, RecoveryItems, P.Inv, Locked;
    var items, p := RecoveryItems(cfg', sender.core), sender.core.commits[i];
    var msg := Own(sender.core, Recovery(items));
    var input, t := Input(Received(msg)), Taken(s, msg);
    SenderIsFair(cfg', sender.core, i);
    TakenDoes(cfg, input, s, msg);
    DoesGo(cfg, input, s, t);
    IsHandedOn(cfg, s, msg);
    var s1, s2, s3 := Parts(cfg, input, t, msg);
    LaterAll(t, s1, s2, s3);
    AllLand(cfg, input, s3, Unpack(items, CommitType), p);
    assert forall q :: q in items && q.body.Commit? ==> q in Unpack(items, CommitType);
    OnlyOne(cfg, s, msg, i, p);
  }
}
