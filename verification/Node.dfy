/** One consensus node: the DBFT object with the Context it embeds, its methods in the order of dbft.go,
    check.go, send.go and context.go. Every method is proved to do exactly what `NodeSpec` says. */
module NodeObject {
  import opened Quorum
  import opened Payloads
  import opened NodeState
  import opened Mailbox
  import Spec = NodeSpec

  // One turn of the loop over the Commit slots.
  function CommitVerifiedAt(cfg: Config, s: State, i: int): State {
    if i !in s.core.commits || s.core.commits[i].view != s.core.view then s
    else
      var s1, p := Spec.MakeHeader(cfg, s), s.core.commits[i];
      if s1.rest.header.Some? && !Verifies(s1.rest.header.value, p.from, p.Signed())
      then s1.(core := s1.core.(commits := s1.core.commits - {i})) else s1
  }

  // A header, once made, is made again without looking at the Commits.
  lemma HeaderIgnoresCommits(cfg: Config, s: State, r: State)
    requires r.core == s.core.(commits := r.core.commits)
    requires r.rest == s.rest || r.rest == Spec.MakeHeader(cfg, s).rest
    ensures Spec.MakeHeader(cfg, r).rest == Spec.MakeHeader(cfg, s).rest
  {
  }

  // One more slot is verified.
  lemma OneMoreSlot(slots: Slots, i: nat, v: byte, h: Header)
    ensures Spec.AnyInView(slots, i + 1, v) <==> Spec.AnyInView(slots, i, v) || (i in slots && slots[i].view == v)
    ensures Spec.Genuine(slots, i + 1, v, h)
         == if i in slots && slots[i].view == v && !Verifies(h, slots[i].from, slots[i].Signed())
            then Spec.Genuine(slots, i, v, h) - {i} else Spec.Genuine(slots, i, v, h)
    ensures (i in Spec.Genuine(slots, i, v, h) <==> i in slots)
    ensures i in slots ==> Spec.Genuine(slots, i, v, h)[i] == slots[i]
    ensures Spec.Genuine(slots, 0, v, h) == slots
  {
  }

  lemma NoSlotYet(slots: Slots, v: byte)
    ensures !Spec.AnyInView(slots, 0, v)
    ensures forall n: nat, h :: !Spec.AnyInView(slots, n, v) ==> Spec.Genuine(slots, n, v, h) == slots
  {
  }

  lemma OneMoreCommit(cfg: Config, s: State, i: nat)
    ensures Spec.CommitsVerifiedTo(cfg, s, i + 1) == CommitVerifiedAt(cfg, Spec.CommitsVerifiedTo(cfg, s, i), i)
  {
    hide Verifies, Spec.MakeHeader, Spec.Genuine, Spec.AnyInView;
    var t, s1 := Spec.CommitsVerifiedTo(cfg, s, i), Spec.MakeHeader(cfg, s);
    HeaderIgnoresCommits(cfg, s, t);
    var h := if s1.rest.header.Some? then s1.rest.header.value else Spec.Proposal(s);
    OneMoreSlot(s.core.commits, i, s.core.view, h);
    NoSlotYet(s.core.commits, s.core.view);
  }

  lemma NoCommitYet(cfg: Config, s: State)
    ensures Spec.CommitsVerifiedTo(cfg, s, 0) == s
  {
  }

  // A pre-block, once made, is made again without looking at the PreCommits.
  lemma PreBlockIgnoresPreCommits(s: State, r: State)
    requires r.core == s.core.(preCommits := r.core.preCommits)
    requires r.rest == s.rest || r.rest == Spec.CreatePreBlock(s).rest
    ensures Spec.CreatePreBlock(r).rest == Spec.CreatePreBlock(s).rest
  {
  }

  class Node {
    const cfg: Config

    // Context: the current epoch.
    var height: nat
    var n: pos
    var me: int
    var primary: nat
    var view: byte

    // Context: one slot per validator.
    var preps: Slots
    var preCommits: Slots
    var commits: Slots
    var changeViews: Slots
    var lastChangeViews: Slots

    var preBlockProcessed: bool
    var blockProcessed: bool

    var rest: Rest

    // History and environment.
    var sent: seq<Payload>
    var delivered: set<Payload>
    var processed: seq<Acceptance>
    var preBlocks: seq<Acceptance>

    // The state of the node as a value.
    function Abs(): State
      reads this
    {
      State(Core(height, n, me, primary, view, preps, preCommits, commits, changeViews, lastChangeViews,
                 preBlockProcessed, blockProcessed, sent, delivered, processed,
                 preBlocks), rest)
    }

    // A node that was not started yet.
    constructor (cfg: Config)
      ensures this.cfg == cfg && Abs() == Blank()
    {
      this.cfg := cfg;
      height, n, me, primary, view := 0, 1, -1, 0, 0;
      preps, preCommits, commits := map[], map[], map[];
      changeViews, lastChangeViews := map[], map[];
      preBlockProcessed, blockProcessed := false, false;
      sent, delivered, processed, preBlocks := [], {}, [], [];
      rest := Blank().rest;
    }

    // One more callback answered.
    method CountCall()
      modifies this`rest
      ensures rest == old(rest).(calls := old(rest).calls + 1) && Abs() == Spec.Tick(old(Abs()))
    {
      rest := rest.(calls := rest.calls + 1);
    }

    // ---- context.go ----

    predicate WatchOnly()
      reads this
    {
      NodeState.WatchOnly(cfg, Abs().core)
    }

    predicate AntiMEVEnabled()
      reads this
    {
      AntiMEV(cfg, height)
    }

    predicate RequestSentOrReceived()
      reads this
    {
      primary in preps
    }

    predicate PreCommitSent()
      reads this
    {
      NodeState.PreCommitSent(cfg, Abs().core)
    }

    predicate CommitSent()
      reads this
    {
      NodeState.CommitSent(cfg, Abs().core)
    }

    predicate ViewChanging()
      reads this
    {
      NodeState.ViewChanging(cfg, Abs().core)
    }

    predicate HasAllTransactions()
      reads this
    {
      |rest.txs| == |rest.transactions|
    }

    // The counting loop of check.go over one slot list.
    method CountVotes(slots: Slots, k: Criterion) returns (count: nat)
      ensures count == |Voters(slots, n, k)|
    {
      count := 0;
      ghost var seen: set<int> := {};
      for i := 0 to n
        invariant forall j :: j in seen <==> 0 <= j < i && Votes(slots, j, k)
        invariant count == |seen|
      {
        if i in slots && Fits(slots[i], k) {
          count := count + 1;
          seen := seen + {i};
        }
      }
      assert seen == Voters(slots, n, k);
    }

    method CountCommitted() returns (count: nat)
      ensures count == |Committed(Abs().core)|
    {
      count := 0;
      ghost var seen: set<int> := {};
      ghost var c := Abs().core;
      for i := 0 to n
        invariant forall j :: j in seen <==> 0 <= j < i && HasCommitted(c, j)
        invariant count == |seen|
      {
        if i in commits || i in preCommits {
          count := count + 1;
          seen := seen + {i};
        }
      }
      assert seen == Committed(c);
    }

    method CountFailed() returns (count: nat)
      ensures count == |Failed(Abs())|
    {
      count := 0;
      ghost var seen: set<int> := {};
      ghost var s := Abs();
      for i := 0 to n
        invariant forall j :: j in seen <==> 0 <= j < i && HasFailed(s, j)
        invariant count == |seen|
      {
        if i !in commits && i !in preCommits
           && (i !in rest.lastSeen || rest.lastSeen[i].height < height || rest.lastSeen[i].view < view) {
          count := count + 1;
          seen := seen + {i};
        }
      }
      assert seen == Failed(s);
    }

    method MoreThanFNodesCommittedOrLost() returns (b: bool)
      ensures b == NodeState.MoreThanFNodesCommittedOrLost(Abs())
    {
      hide Committed, Failed;
      var committed := CountCommitted();
      var failed := CountFailed();
      b := committed + failed > F(n);
    }

    method MakeHeader() returns (h: Option<Header>)
      modifies this`rest
      ensures Abs() == Spec.MakeHeader(cfg, old(Abs())) && h == rest.header
    {
      if rest.header.None? {
        if !RequestSentOrReceived() {
          return None;
        }
        if AntiMEVEnabled() && !preBlockProcessed {
          return None;
        }
        rest := rest.(header := Some(Header(height, rest.timestamp, rest.nonce, rest.txs)));
      }
      h := rest.header;
    }

    method MakePreHeader() returns (h: Option<Header>)
      modifies this`rest
      ensures Abs() == Spec.MakePreHeader(old(Abs())) && h == rest.preHeader
    {
      if rest.preHeader.None? {
        if !RequestSentOrReceived() {
          return None;
        }
        rest := rest.(preHeader := Some(Header(height, rest.timestamp, rest.nonce, rest.txs)));
      }
      h := rest.preHeader;
    }

    method CreateBlock() returns (b: Option<Header>)
      modifies this`rest
      ensures Abs() == Spec.CreateBlock(cfg, old(Abs())) && b == rest.block
    {
      hide Spec.MakeHeader;
      if rest.block.None? {
        var h := MakeHeader();
        rest := rest.(block := h);
      }
      b := rest.block;
    }

    method CreatePreBlock() returns (b: Option<Header>)
      modifies this`rest
      ensures Abs() == Spec.CreatePreBlock(old(Abs())) && b == rest.preBlock
    {
      hide Spec.MakePreHeader;
      if rest.preBlock.None? {
        var h := MakePreHeader();
        rest := rest.(preBlock := h);
      }
      b := rest.preBlock;
    }

    // reset at a new height
    method ResetHeight(newHeight: nat, ts: nat)
      modifies this
      ensures Abs() == Spec.ResetHeight(cfg, old(Abs()), newHeight, ts)
    {
      hide GetPrimaryIndex, Spec.ClearProposal, IndexAt;
      ClearVotes();
      SetEpoch(newHeight, cfg.validators(newHeight), IndexAt(cfg, newHeight), 0);
      RestartRest(ts);
    }

    method RestartRest(ts: nat)
      modifies this`rest
      ensures rest == Spec.ClearProposal(old(rest), ts).(
        lastSeen := if me >= 0 then map[me := HeightView(height, 0)] else map[])
    {
      hide Spec.ClearProposal;
      ClearProposal(ts);
      var seen: map<int, HeightView> := if me >= 0 then map[me := HeightView(height, 0)] else map[];
      rest := rest.(lastSeen := seen);
    }

    method ClearVotes()
      modifies this`preps, this`preCommits, this`commits, this`changeViews, this`lastChangeViews
      modifies this`blockProcessed, this`preBlockProcessed
      ensures preps == preCommits == commits == changeViews == lastChangeViews == map[]
      ensures !blockProcessed && !preBlockProcessed
    {
      preps, preCommits, commits, changeViews, lastChangeViews := map[], map[], map[], map[], map[];
      blockProcessed, preBlockProcessed := false, false;
    }

    method SetEpoch(newHeight: nat, count: pos, index: int, newView: byte)
      modifies this`height, this`n, this`me, this`primary, this`view
      ensures height == newHeight && n == count && me == index && view == newView
      ensures primary == GetPrimaryIndex(height, view, n)
    {
      height, n, me, view := newHeight, count, index, newView;
      primary := GetPrimaryIndex(height, view, n);
    }

    // reset at a later view
    method ResetView(newView: byte, ts: nat)
      modifies this
      ensures Abs() == Spec.ResetView(old(Abs()), newView, ts)
    {
      hide GetPrimaryIndex, Spec.ClearProposal, Spec.Asking;
      ClearProposal(ts);
      MoveChangeViews(newView);
      SetEpoch(height, n, me, newView);
      if me >= 0 {
        rest := rest.(lastSeen := rest.lastSeen[me := HeightView(height, view)]);
      }
    }

    // The ChangeViews behind the new view are kept as the evidence for it.
    method MoveChangeViews(newView: byte)
      modifies this`preps, this`changeViews, this`lastChangeViews
      ensures lastChangeViews == Spec.Asking(old(changeViews), n, newView)
      ensures preps == changeViews == map[]
    {
      var last: Slots := map[];
      for i := 0 to n
        invariant last == Spec.Asking(changeViews, i, newView)
      {
        if i in changeViews && changeViews[i].NewView() >= newView {
          last := last[i := changeViews[i]];
        }
      }
      preps, changeViews, lastChangeViews := map[], map[], last;
    }

    method ClearProposal(ts: nat)
      modifies this`rest
      ensures rest == Spec.ClearProposal(old(rest), ts) && rest.lastSeen == old(rest.lastSeen)
    {
      rest := rest.(lastTimestamp := ts, txSubscription := false);
      rest := rest.(block := None, preBlock := None, header := None, preHeader := None);
      rest := rest.(transactions := {}, txs := [], missing := []);
    }

    // ---- send.go ----

    method BroadcastPayload(p: Payload)
      modifies this`sent
      ensures sent == old(sent) + [p]
    {
      sent := sent + [p];
    }

    // RecoveryMessage.AddPayload over the non-nil slots of a list.
    method AddPayloads(items: seq<Payload>, slots: Slots) returns (r: seq<Payload>)
      ensures r == items + Spec.Filled(slots, n)
    {
      r := items;
      for i := 0 to n
        invariant r == items + Spec.Filled(slots, i)
      {
        if i in slots {
          r := r + [slots[i]];
        }
      }
    }

    method MakeRecoveryMessage() returns (items: seq<Payload>)
      ensures items == Spec.RecoveryItems(cfg, Abs().core)
    {
      hide Spec.Filled;
      items := AddPayloads([], preps);
      items := AddPayloads(items, lastChangeViews);
      if PreCommitSent() {
        items := AddPayloads(items, preCommits);
      }
      if CommitSent() {
        items := AddPayloads(items, commits);
      }
    }

    method SendRecoveryMessage()
      requires me >= 0
      modifies this
      ensures Abs() == Spec.SendRecoveryMessage(cfg, old(Abs()))
    {
      hide Spec.RecoveryItems;
      var items := MakeRecoveryMessage();
      BroadcastPayload(Payload(height, view, me, Recovery(items)));
    }

    method SendRecoveryRequest()
      requires me >= 0
      modifies this
      ensures Abs() == Spec.SendRecoveryRequest(cfg, old(Abs()))
    {
      hide Spec.ProcessMissingTx;
      if RequestSentOrReceived() && !HasAllTransactions() {
        ProcessMissingTx();
      }
      Spec.MissingTxKeepsCore(cfg, old(Abs()), old(rest.txs));
      BroadcastPayload(Payload(height, view, me, RecoveryRequest));
    }

    method MakeChangeView(reason: Reason) returns (p: Payload)
      requires me >= 0
      modifies this`changeViews
      ensures p == Own(old(Abs()).core, ChangeView(Spec.NextView(view), reason))
      ensures changeViews == old(changeViews)[me := p]
    {
      p := Payload(height, view, me, ChangeView((view + 1) % 256, reason));
      changeViews := changeViews[me := p];
    }

    method SendChangeView(reason: Reason)
      modifies this
      ensures Abs() == Spec.SendChangeView(cfg, old(Abs()), reason)
      decreases 256 - view, 0, 7, 0
    {
      hide Committed, Failed, Spec.SendRecoveryRequest, Spec.CheckChangeView;
      if WatchOnly() {
        return;
      }
      var newView := (view + 1) % 256;
      var committed := CountCommitted();
      var failed := CountFailed();
      if reason == CVTimeout && committed + failed > F(n) {
        SendRecoveryRequest();
        return;
      }
      var reason' := reason;
      if !HasAllTransactions() && reason == CVTimeout {
        reason' := CVTxNotFound;
      }
      var p := MakeChangeView(reason');
      BroadcastPayload(p);
      CheckChangeView(newView);
    }

    method SendPrepareResponse()
      requires me >= 0 && RequestSentOrReceived()
      modifies this
      ensures Abs() == Spec.SendPrepareResponse(old(Abs()))
    {
      var p := Payload(height, view, me, PrepareResponse(preps[primary]));
      preps := preps[me := p];
      BroadcastPayload(p);
    }

    method SendPreCommit()
      requires me >= 0
      modifies this
      ensures Abs() == Spec.SendPreCommit(cfg, old(Abs()))
    {
      hide Spec.CreatePreBlock, Spec.Tick;
      if me in preCommits {
        BroadcastPayload(preCommits[me]);
        return;
      }
      var b := CreatePreBlock();
      if b.None? {
        return;
      }
      var signed := cfg.sign(rest.calls);
      CountCall();
      if !signed {
        return;
      }
      var p := Payload(height, view, me, PreCommit(Signature(me, b.value)));
      preCommits := preCommits[me := p];
      BroadcastPayload(p);
    }

    method SendCommit()
      requires me >= 0
      modifies this
      ensures Abs() == Spec.SendCommit(cfg, old(Abs()))
    {
      hide Spec.MakeHeader, Spec.Tick;
      if me in commits {
        BroadcastPayload(commits[me]);
        return;
      }
      var h := MakeHeader();
      if h.None? {
        return;
      }
      var signed := cfg.sign(rest.calls);
      CountCall();
      if !signed {
        return;
      }
      var p := Payload(height, view, me, Commit(Signature(me, h.value)));
      commits := commits[me := p];
      BroadcastPayload(p);
    }

    // Fill, followed by the construction of the request.
    method MakePrepareRequest(force: bool) returns (p: Option<Payload>)
      requires me >= 0
      modifies this
      ensures p.Some? == Spec.CanFill(cfg, old(Abs()), force)
      ensures p.None? ==> Abs() == Spec.Tick(old(Abs()))
      ensures p.Some? ==> Abs() == Spec.Fill(cfg, old(Abs()))
                          && p.value == Own(Abs().core, PrepareRequest(rest.timestamp, rest.nonce, rest.txs))
    {
      var txx := cfg.getVerified(rest.calls);
      if cfg.dynamicBlockTime && !force && |txx| == 0 {
        CountCall();
        return None;
      }
      var hashes, pool := [], rest.transactions;
      for i := 0 to |txx|
        invariant hashes == txx[..i]
        invariant pool == rest.transactions + (set h | h in txx[..i])
      {
        assert txx[..i + 1] == txx[..i] + [txx[i]];
        hashes := hashes + [txx[i]];
        pool := pool + {txx[i]};
      }
      assert txx[..|txx|] == txx;
      var ts, now := rest.lastTimestamp + cfg.timestampIncrement, cfg.now(rest.calls);
      if now > ts {
        ts := now;
      }
      rest := rest.(nonce := cfg.random(rest.calls), txs := hashes, transactions := pool, timestamp := ts,
                    calls := rest.calls + 1);
      p := Some(Payload(height, view, me, PrepareRequest(rest.timestamp, rest.nonce, rest.txs)));
    }

    method SendPrepareRequest(force: bool)
      requires me >= 0
      modifies this
      ensures Abs() == Spec.SendPrepareRequest(cfg, old(Abs()), force)
    {
      hide Spec.Fill, Spec.CanFill, Spec.Publish;
      var p := MakePrepareRequest(force);
      if p.None? {
        rest := rest.(txSubscription := true);
        p := MakePrepareRequest(force);
        if p.None? {
          return;
        }
      }
      Publish(p.value);
    }

    method Publish(p: Payload)
      requires me >= 0
      modifies this
      ensures Abs() == Spec.Publish(cfg, old(Abs()), p)
    {
      hide Spec.CheckPrepare;
      rest := rest.(txSubscription := false);
      preps := preps[me := p];
      BroadcastPayload(p);
      CheckPrepare();
    }

    // ---- check.go ----

    method CheckPrepare()
      requires me >= 0
      modifies this
      ensures Abs() == Spec.CheckPrepare(cfg, old(Abs()))
    {
      hide Voters, Spec.SendPreCommit, Spec.SendCommit, Spec.CheckPreCommit, Spec.CheckCommit;
      if !HasAllTransactions() {
        return;
      }
      var count := CountVotes(preps, InView(view));
      var hasRequest := false;
      for i := 0 to n
        invariant hasRequest == Spec.HasRequest(preps, i)
      {
        if i in preps && preps[i].body.PrepareRequest? {
          hasRequest := true;
        }
      }
      if hasRequest && count >= M(n) {
        if AntiMEVEnabled() {
          SendPreCommit();
          CheckPreCommit();
        } else {
          SendCommit();
          CheckCommit();
        }
      }
    }

    // The pre-block is processed once.
    method ProcessPreBlock(b: Header) returns (ok: bool)
      requires rest.preBlock == Some(b)
      modifies this`rest, this`preBlocks, this`preBlockProcessed
      ensures ok == (old(preBlockProcessed) || cfg.processPreBlock(old(rest).calls, b))
      ensures old(preBlockProcessed) ==> Abs() == old(Abs())
      ensures !old(preBlockProcessed) ==>
        Abs() == if ok then Spec.MarkPreBlock(Spec.Tick(old(Abs()))) else Spec.Tick(old(Abs()))
    {
      ok := true;
      if !preBlockProcessed {
        ok := cfg.processPreBlock(rest.calls, b);
        CountCall();
        if !ok {
          return;
        }
        preBlocks := preBlocks + [Acceptance(PreCommitType, height, view, b, preCommits)];
        preBlockProcessed := true;
      }
    }

    method CheckPreCommit()
      modifies this
      ensures Abs() == Spec.CheckPreCommit(cfg, old(Abs()))
    {
      hide Spec.VerifyCommits, Voters, Spec.CreatePreBlock, Spec.SendCommit, Spec.CheckCommit, Spec.MarkPreBlock;
      hide Spec.Tick;
      if !HasAllTransactions() {
        return;
      }
      var count := CountVotes(preCommits, InView(view));
      if count < M(n) {
        return;
      }
      var b := CreatePreBlock();
      if b.None? {
        rest := rest.(crashed := true);
        return;
      }
      var ok := ProcessPreBlock(b.value);
      if ok && PreCommitSent() {
        VerifyCommitPayloadsAgainstHeader();
        SendCommit();
        CheckCommit();
      }
    }

    method CheckCommit()
      modifies this
      ensures Abs() == Spec.CheckCommit(cfg, old(Abs()))
    {
      hide Voters, Spec.CreateBlock;
      if !HasAllTransactions() {
        return;
      }
      var count := CountVotes(commits, InView(view));
      if count < M(n) {
        return;
      }
      var b := CreateBlock();
      if b.None? {
        rest := rest.(crashed := true);
        return;
      }
      var ok := cfg.processBlock(rest.calls, b.value);
      rest := rest.(calls := rest.calls + 1, offered := rest.offered + [Offer(rest.calls, b.value)]);
      if !ok {
        if AntiMEVEnabled() {
          return;
        }
        rest := rest.(crashed := true);
        return;
      }
      processed := processed + [Acceptance(CommitType, height, view, b.value, commits)];
      blockProcessed := true;
    }

    method CheckChangeView(newView: byte)
      modifies this
      ensures Abs() == Spec.CheckChangeView(cfg, old(Abs()), newView)
      decreases 256 - view, 0, 6, 0
    {
      hide Voters, Spec.Initialize, Spec.ResetView;
      if view >= newView {
        return;
      }
      var count := CountVotes(changeViews, AsksFor(newView));
      if count < M(n) {
        return;
      }
      if !WatchOnly() {
        if me in changeViews && changeViews[me].NewView() < newView {
          var p := MakeChangeView(CVChangeAgreement);
          BroadcastPayload(p);
        }
      }
      InitializeView(newView, rest.lastTimestamp);
    }

    // ---- dbft.go ----

    // initializeConsensus for a later view
    method InitializeView(newView: byte, ts: nat)
      requires newView > view
      modifies this
      ensures Abs() == Spec.Initialize(cfg, Spec.ResetView(old(Abs()), newView, ts))
      decreases 256 - newView, 3, 0, 0
    {
      ResetView(newView, ts);
      ReceiveCached();
    }

    // initializeConsensus for a new height
    method InitializeHeight(newHeight: nat, ts: nat)
      modifies this
      ensures Abs() == Spec.Initialize(cfg, Spec.ResetHeight(cfg, old(Abs()), newHeight, ts))
    {
      ResetHeight(newHeight, ts);
      ReceiveCached();
    }

    // The replay of the cached messages of the current height.
    method ReceiveCached()
      modifies this
      ensures Abs() == Spec.Initialize(cfg, old(Abs()))
      decreases 256 - view, 2, 0, 0
    {
      hide Spec.ReceiveAll, Spec.CachedMail, Spec.Weight;
      var msgs := Spec.CachedMail(cfg, Abs());
      rest := rest.(mail := rest.mail - {height});
      CountCall();
      ReceiveAll(msgs);
    }

    method ReceiveAll(msgs: seq<Payload>)
      modifies this
      ensures Abs() == Spec.ReceiveAll(cfg, old(Abs()), msgs)
      decreases 256 - view, Spec.Weight(msgs), 11, |msgs|
    {
      hide Spec.OnReceive;
      var i := 0;
      while i < |msgs|
        invariant 0 <= i <= |msgs| && view >= old(view)
        invariant Spec.ReceiveAll(cfg, Abs(), msgs[i..]) == Spec.ReceiveAll(cfg, old(Abs()), msgs)
      {
        assert msgs[i..][0] == msgs[i] && msgs[i..][1..] == msgs[i + 1..];
        assert msgs[i] in msgs;
        OnReceive(msgs[i]);
        i := i + 1;
      }
    }

    method Start(newHeight: nat, ts: nat)
      modifies this
      ensures Abs() == Spec.Start(cfg, old(Abs()), newHeight, ts)
    {
      hide Spec.Initialize, Spec.ResetHeight, Spec.SendPrepareRequest;
      rest := rest.(mail := map[]);
      InitializeHeight(newHeight, ts);
      if me == primary && !rest.crashed {
        SendPrepareRequest(true);
      }
    }

    method Reset(newHeight: nat, ts: nat)
      modifies this
      ensures Abs() == Spec.Reset(cfg, old(Abs()), newHeight, ts)
    {
      hide Spec.Initialize, Spec.ResetHeight;
      if rest.crashed {
        return;
      }
      InitializeHeight(newHeight, ts);
    }

    method OnTransaction(tx: Hash)
      modifies this
      ensures Abs() == Spec.OnTransaction(cfg, old(Abs()), tx)
    {
      hide NodeState.MoreThanFNodesCommittedOrLost, Spec.AddTransaction;
      if rest.crashed || me < 0 || me == primary {
        return;
      }
      var moreThanF := MoreThanFNodesCommittedOrLost();
      if (ViewChanging() && !moreThanF) || !RequestSentOrReceived() || ResponseSent(cfg, Abs().core)
         || PreCommitSent() || CommitSent() || blockProcessed || |rest.missing| == 0 {
        return;
      }
      var i := Spec.IndexOf(rest.missing, tx);
      if i < 0 {
        return;
      }
      AddTransaction(tx);
      if rest.crashed || |rest.missing| == 0 {
        return;
      }
      if i >= |rest.missing| {
        rest := rest.(crashed := true);
        return;
      }
      rest := rest.(missing := rest.missing[..i] + rest.missing[i + 1..]);
    }

    method AddTransaction(tx: Hash)
      modifies this
      ensures Abs() == Spec.AddTransaction(cfg, old(Abs()), tx)
    {
      hide Spec.VerifyPreCommits, Spec.CreateAndCheckBlock, Spec.BlockOK, Spec.Respond;
      rest := rest.(transactions := rest.transactions + {tx});
      if HasAllTransactions() {
        if me == primary || WatchOnly() {
          return;
        }
        var ok := CreateAndCheckBlock();
        if !ok {
          return;
        }
        VerifyPreCommitPayloadsAgainstPreBlock();
        Respond();
      }
    }

    method OnTimeout(timerHeight: nat, timerView: byte, force: bool)
      modifies this
      ensures Abs() == Spec.OnTimeout(cfg, old(Abs()), timerHeight, timerView, force)
    {
      hide Spec.SendRecoveryMessage, Spec.SendChangeView, Spec.SendPrepareRequest;
      if rest.crashed || WatchOnly() || blockProcessed {
        return;
      }
      if timerHeight != height || timerView != view {
        return;
      }
      if me == primary && !RequestSentOrReceived() {
        SendPrepareRequest(view != 0 || rest.txSubscription || force);
      } else if CommitSent() || PreCommitSent() {
        SendRecoveryMessage();
      } else {
        if view == 0 && cfg.dynamicBlockTime && me != primary {
          if force {
            rest := rest.(txSubscription := false);
            return;
          }
          if !rest.txSubscription {
            var txx := cfg.getVerified(rest.calls);
            CountCall();
            if |txx| == 0 {
              rest := rest.(txSubscription := true);
              return;
            }
          }
        }
        SendChangeView(CVTimeout);
      }
    }

    method OnNewTransaction(timerHeight: nat, timerView: byte)
      modifies this
      ensures Abs() == Spec.OnNewTransaction(cfg, old(Abs()), timerHeight, timerView)
    {
      hide Spec.OnTimeout;
      if !rest.txSubscription {
        return;
      }
      OnTimeout(timerHeight, timerView, true);
    }

    method OnReceive(msg: Payload)
      modifies this
      ensures Abs() == Spec.OnReceive(cfg, old(Abs()), msg)
      decreases 256 - view, if msg.body.Recovery? then 1 else 0, 10, 1
    {
      hide Spec.Dispatch;
      delivered := delivered + {msg};
      if rest.crashed || msg.from >= n || msg.body.Malformed? {
        return;
      }
      if msg.height < height {
        return;
      } else if msg.height > height || (msg.view > view && !msg.body.ChangeView? && !msg.body.Recovery?) {
        rest := rest.(mail := AddMessage(rest.mail, msg));
        return;
      }
      var hv := rest.lastSeen;
      if msg.from !in hv || hv[msg.from].height < msg.height || hv[msg.from].view < msg.view {
        rest := rest.(lastSeen := hv[msg.from := HeightView(msg.height, msg.view)]);
      }
      if blockProcessed && !msg.body.RecoveryRequest? {
        return;
      }
      rest := rest.(handled := rest.handled + [msg]);
      Dispatch(msg);
    }

    method Dispatch(msg: Payload)
      modifies this
      ensures Abs() == Spec.Dispatch(cfg, old(Abs()), msg)
      decreases 256 - view, if msg.body.Recovery? then 1 else 0, 10, 0
    {
      hide Spec.OnPrepareRequest, Spec.OnPrepareResponse, Spec.OnChangeView, Spec.OnPreCommit, Spec.OnCommit;
      hide Spec.OnRecoveryRequest, Spec.OnRecoveryMessage;
      match msg.body {
        case ChangeView(_, _) => OnChangeView(msg);
        case PrepareRequest(_, _, _) => OnPrepareRequest(msg);
        case PrepareResponse(_) => OnPrepareResponse(msg);
        case Commit(_) => OnCommit(msg);
        case PreCommit(_) =>
          if AntiMEVEnabled() {
            OnPreCommit(msg);
          }
        case RecoveryRequest => OnRecoveryRequest(msg);
        case Recovery(_) => OnRecoveryMessage(msg);
        case Malformed =>
      }
    }

    method OnPrepareRequest(msg: Payload)
      requires msg.body.PrepareRequest?
      modifies this
      ensures Abs() == Spec.OnPrepareRequest(cfg, old(Abs()), msg)
      decreases 256 - view, 0, 9, 0
    {
      hide GetPrimaryIndex, Spec.CreateAndCheckBlock, Spec.BlockOK, Spec.SendChangeView, Spec.AdoptRequest;
      hide Spec.Respond;
      if RequestSentOrReceived() {
        return;
      }
      if view != msg.view || msg.from != GetPrimaryIndex(height, view, n) {
        return;
      }
      var ok := cfg.verifyPayload(rest.calls, msg);
      CountCall();
      if !ok {
        SendChangeView(CVBlockRejectedByPolicy);
        return;
      }
      AdoptRequest(msg);
      if !HasAllTransactions() {
        return;
      }
      ok := CreateAndCheckBlock();
      if !ok || WatchOnly() {
        return;
      }
      Respond();
    }

    method AdoptRequest(msg: Payload)
      requires msg.body.PrepareRequest?
      modifies this
      ensures Abs() == Spec.AdoptRequest(cfg, old(Abs()), msg)
    {
      hide Spec.ProcessMissingTx, Spec.UpdateExistingPayloads;
      rest := rest.(timestamp := msg.body.timestamp, nonce := msg.body.nonce, txs := msg.body.txs);
      ProcessMissingTx();
      UpdateExistingPayloads(msg);
      preps := preps[msg.from := msg];
    }

    // sendPrepareResponse, followed by the check for a quorum
    method Respond()
      requires me >= 0
      modifies this
      ensures Abs() == Spec.Respond(cfg, old(Abs()))
    {
      hide Spec.SendPrepareResponse, Spec.CheckPrepare;
      if !RequestSentOrReceived() {
        rest := rest.(crashed := true);
        return;
      }
      SendPrepareResponse();
      CheckPrepare();
    }

    method ProcessMissingTx()
      modifies this
      ensures Abs() == Spec.ProcessMissingTx(cfg, old(Abs()), old(rest.txs))
    {
      var i := 0;
      assert rest.txs[0..] == rest.txs;
      while i < |rest.txs|
        modifies this`rest
        invariant 0 <= i <= |rest.txs|
        invariant Spec.ProcessMissingTx(cfg, Abs(), rest.txs[i..])
               == Spec.ProcessMissingTx(cfg, old(Abs()), old(rest.txs))
      {
        var h := rest.txs[i];
        assert rest.txs[i..][0] == h && rest.txs[i..][1..] == rest.txs[i + 1..];
        if h !in rest.transactions {
          var found := cfg.getTx(rest.calls, h);
          CountCall();
          if !found {
            rest := rest.(missing := rest.missing + [h]);
          } else {
            rest := rest.(transactions := rest.transactions + {h});
          }
        }
        i := i + 1;
      }
    }

    method CreateAndCheckBlock() returns (blockOK: bool)
      modifies this
      ensures Abs() == Spec.CreateAndCheckBlock(cfg, old(Abs()))
      ensures blockOK == Spec.BlockOK(cfg, old(Abs()))
      decreases 256 - view, 0, 8, 0
    {
      hide Spec.CreateBlock, Spec.CreatePreBlock, Spec.SendChangeView;
      var b: Option<Header>;
      if AntiMEVEnabled() {
        b := CreatePreBlock();
      } else {
        b := CreateBlock();
      }
      blockOK := b.Some? && cfg.verifyBlock(rest.calls, b.value);
      CountCall();
      if !blockOK {
        SendChangeView(CVTxInvalid);
      }
    }

    method UpdateExistingPayloads(msg: Payload)
      modifies this
      ensures Abs() == Spec.UpdateExistingPayloads(cfg, old(Abs()), msg)
    {
      hide Spec.VerifyPreCommits, Spec.VerifyCommits;
      for i := 0 to n
        modifies this`preps
        invariant preps == Spec.Answering(old(preps), i, msg)
      {
        if i in preps && preps[i].body.PrepareResponse? && preps[i].body.preparation != msg {
          preps := preps - {i};
        }
      }
      if AntiMEVEnabled() {
        VerifyPreCommitPayloadsAgainstPreBlock();
      } else {
        VerifyCommitPayloadsAgainstHeader();
      }
    }

    method VerifyPreCommitPayloadsAgainstPreBlock()
      modifies this`preCommits, this`rest
      ensures Abs() == Spec.VerifyPreCommits(old(Abs()))
    {
      if !HasAllTransactions() {
        return;
      }
      hide Spec.Genuine, Spec.AnyInView, Spec.CreatePreBlock;
      ghost var slots := preCommits;
      ghost var s, s1 := Abs(), Spec.CreatePreBlock(Abs());
      OneMoreSlot(slots, 0, view, if s1.rest.preBlock.Some? then s1.rest.preBlock.value else Spec.Proposal(s));
      NoSlotYet(slots, view);
      for i := 0 to n
        modifies this`preCommits, this`rest
        invariant rest == (if Spec.AnyInView(slots, i, view) then s1 else s).rest
        invariant preCommits ==
          if s1.rest.preBlock.Some? then Spec.Genuine(slots, i, view, s1.rest.preBlock.value) else slots
      {
        OneMoreSlot(slots, i, view, if s1.rest.preBlock.Some? then s1.rest.preBlock.value else Spec.Proposal(s));
        if i in preCommits && preCommits[i].view == view {
          PreBlockIgnoresPreCommits(s, Abs());
          var b := CreatePreBlock();
          if b.Some? && !Verifies(b.value, preCommits[i].from, preCommits[i].Signed()) {
            preCommits := preCommits - {i};
          }
        }
      }
    }

    method VerifyCommitPayloadsAgainstHeader()
      modifies this`commits, this`rest
      ensures Abs() == Spec.VerifyCommits(cfg, old(Abs()))
    {
      hide Spec.CommitsVerifiedTo, CommitVerifiedAt;
      ghost var s := Abs();
      NoCommitYet(cfg, s);
      for i := 0 to n
        modifies this`commits, this`rest
        invariant Abs() == Spec.CommitsVerifiedTo(cfg, s, i)
      {
        OneMoreCommit(cfg, s, i);
        VerifyCommitAt(i);
      }
    }

    method VerifyCommitAt(i: int)
      modifies this`commits, this`rest
      ensures Abs() == CommitVerifiedAt(cfg, old(Abs()), i)
    {
      hide Spec.MakeHeader, Verifies;
      if i in commits && commits[i].view == view {
        var h := MakeHeader();
        if h.Some? && !Verifies(h.value, commits[i].from, commits[i].Signed()) {
          commits := commits - {i};
        }
      }
    }

    method OnPrepareResponse(msg: Payload)
      requires msg.body.PrepareResponse?
      modifies this
      ensures Abs() == Spec.OnPrepareResponse(cfg, old(Abs()), msg)
    {
      hide NodeState.MoreThanFNodesCommittedOrLost, GetPrimaryIndex, Spec.CheckPrepare;
      if view != msg.view || msg.from == GetPrimaryIndex(height, view, n) {
        return;
      }
      var moreThanF := MoreThanFNodesCommittedOrLost();
      if msg.from in preps || (ViewChanging() && !moreThanF) {
        return;
      }
      var ok := cfg.verifyPayload(rest.calls, msg);
      CountCall();
      if !ok {
        return;
      }
      preps := preps[msg.from := msg];
      var p := GetPrimaryIndex(height, view, n);
      if p in preps && msg.body.preparation != preps[p] {
        preps := preps - {msg.from};
        assert preps == old(preps);
        return;
      }
      if !WatchOnly() && !CommitSent() && (!AntiMEVEnabled() || !PreCommitSent()) && RequestSentOrReceived() {
        CheckPrepare();
      }
    }

    method OnChangeView(msg: Payload)
      requires msg.body.ChangeView?
      modifies this
      ensures Abs() == Spec.OnChangeView(cfg, old(Abs()), msg)
      decreases 256 - view, 0, 9, 0
    {
      hide Spec.SendRecoveryMessage, Spec.CheckChangeView, Spec.OnRecoveryRequest;
      if msg.body.newView <= view {
        OnRecoveryRequest(msg);
        return;
      }
      if CommitSent() || PreCommitSent() {
        SendRecoveryMessage();
        return;
      }
      if msg.from in changeViews && msg.body.newView < changeViews[msg.from].NewView() {
        return;
      }
      changeViews := changeViews[msg.from := msg];
      CheckChangeView(msg.body.newView);
    }

    method OnPreCommit(msg: Payload)
      requires msg.body.PreCommit?
      modifies this
      ensures Abs() == Spec.OnPreCommit(cfg, old(Abs()), msg)
    {
      hide Spec.CreatePreBlock, Spec.CheckPreCommit;
      if msg.from in preCommits {
        return;
      }
      preCommits := preCommits[msg.from := msg];
      if view == msg.view {
        var ok := cfg.verifyPayload(rest.calls, msg);
        CountCall();
        if !ok {
          preCommits := preCommits - {msg.from};
          assert preCommits == old(preCommits);
          return;
        }
        if !HasAllTransactions() {
          return;
        }
        var b := CreatePreBlock();
        if b.Some? {
          if Verifies(b.value, msg.from, msg.body.data) {
            CheckPreCommit();
          } else {
            preCommits := preCommits - {msg.from};
            assert preCommits == old(preCommits);
          }
        }
      }
    }

    method OnCommit(msg: Payload)
      requires msg.body.Commit?
      modifies this
      ensures Abs() == Spec.OnCommit(cfg, old(Abs()), msg)
    {
      hide Spec.MakeHeader, Spec.CheckCommit;
      if msg.from in commits {
        return;
      }
      commits := commits[msg.from := msg];
      if view == msg.view {
        var ok := cfg.verifyPayload(rest.calls, msg);
        CountCall();
        if !ok {
          commits := commits - {msg.from};
          assert commits == old(commits);
          return;
        }
        var h := MakeHeader();
        if h.Some? {
          if Verifies(h.value, msg.from, msg.body.signature) {
            CheckCommit();
          } else {
            commits := commits - {msg.from};
            assert commits == old(commits);
          }
        }
      }
    }

    method OnRecoveryRequest(msg: Payload)
      modifies this
      ensures Abs() == Spec.OnRecoveryRequest(cfg, old(Abs()), msg)
    {
      hide Spec.SendRecoveryMessage;
      if WatchOnly() {
        return;
      }
      if !CommitSent() && (!AntiMEVEnabled() || !PreCommitSent()) {
        if TruncMod(me - msg.from + n - 1, n) > F(n) {
          return;
        }
      }
      SendRecoveryMessage();
    }

    method OnRecoveryMessage(msg: Payload)
      requires msg.body.Recovery?
      modifies this
      ensures Abs() == Spec.OnRecoveryMessage(cfg, old(Abs()), msg)
      decreases 256 - view, 1, 9, 0
    {
      hide Spec.ReceiveAll, Spec.RecoverPreparations;
      if msg.view > view {
        if CommitSent() || PreCommitSent() {
          return;
        }
        ReceiveAll(Unpack(msg.body.items, ChangeViewType));
      }
      RecoverPreparations(msg);
      if msg.view <= view {
        ReceiveAll(Unpack(msg.body.items, PreCommitType));
        ReceiveAll(Unpack(msg.body.items, CommitType));
      }
    }

    method RecoverPreparations(msg: Payload)
      requires msg.body.Recovery?
      modifies this
      ensures Abs() == Spec.RecoverPreparations(cfg, old(Abs()), msg)
      decreases 256 - view, 1, 8, 0
    {
      hide NodeState.MoreThanFNodesCommittedOrLost, Spec.ReceiveAll, Spec.OnReceive;
      var moreThanF := MoreThanFNodesCommittedOrLost();
      if msg.view == view && (!ViewChanging() || moreThanF) && !CommitSent()
         && (!AntiMEVEnabled() || !PreCommitSent()) {
        var requests := Unpack(msg.body.items, PrepareRequestType);
        if !RequestSentOrReceived() && requests != [] {
          assert requests[0] in requests;
          OnReceive(requests[0]);
        }
        ReceiveAll(Unpack(msg.body.items, PrepareResponseType));
      }
    }
  }
}
