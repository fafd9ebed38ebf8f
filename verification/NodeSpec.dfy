/** What each handler of a node does, as a function of the state it starts in (dbft.go, check.go, send.go
    and the state-changing parts of context.go). The methods of `Node` are proved against these functions. */
module NodeSpec {
  import opened Quorum
  import opened Payloads
  import opened NodeState
  import opened Mailbox

  // One more callback answered.
  function Tick(s: State): State {
    s.(rest := s.rest.(calls := s.rest.calls + 1))
  }

  function Crash(s: State): State {
    s.(rest := s.rest.(crashed := true))
  }

  function Broadcast(s: State, b: Body): State
    requires s.core.me >= 0
  {
    s.(core := s.core.(sent := s.core.sent + [Own(s.core, b)]))
  }

  predicate Later(s: State, r: State) {
    && r.core.view >= s.core.view
    && r.core.height == s.core.height
    && r.core.n == s.core.n
    && r.core.me == s.core.me
  }

  // Messages enter and leave the cache, and reach a handler, only when they are received or replayed; a crash and a
  // processed block are final, and callbacks are numbered on.
  predicate SameCache(s: State, r: State) {
    && r.rest.mail == s.rest.mail && r.rest.handled == s.rest.handled
    && s.rest.calls <= r.rest.calls && (s.rest.crashed ==> r.rest.crashed)
    && (s.core.blockProcessed ==> r.core.blockProcessed)
  }

  predicate SameEpoch(s: State, r: State) {
    Later(s, r) && r.core.view == s.core.view && r.core.primary == s.core.primary && SameCache(s, r)
  }

  // The proposed, the collected and the missing transactions, and whether new ones are subscribed to.
  predicate SameProposal(s: State, r: State) {
    && SameEpoch(s, r)
    && r.rest.txs == s.rest.txs && r.rest.transactions == s.rest.transactions && r.rest.missing == s.rest.missing
    && r.rest.txSubscription == s.rest.txSubscription
  }

  // Signing and processing leave the preparations and the ChangeViews alone.
  predicate SameVotes(s: State, r: State) {
    SameProposal(s, r) && r.core.preps == s.core.preps && r.core.changeViews == s.core.changeViews
  }

  // ---- headers and blocks (context.go) ----

  // Nothing but the headers and blocks built from the proposal may change.
  predicate Builds(s: State, r: State) {
    && r.core == s.core
    && r.rest == s.rest.(preHeader := r.rest.preHeader, preBlock := r.rest.preBlock, header := r.rest.header,
                         block := r.rest.block)
  }

  function Proposal(s: State): Header {
    Header(s.core.height, s.rest.timestamp, s.rest.nonce, s.rest.txs)
  }

  function MakeHeader(cfg: Config, s: State): (r: State)
    ensures Builds(s, r)
  {
    if s.rest.header.Some? || !RequestKnown(s.core)
       || (AntiMEV(cfg, s.core.height) && !s.core.preBlockProcessed) then s
    else s.(rest := s.rest.(header := Some(Proposal(s))))
  }

  function MakePreHeader(s: State): (r: State)
    ensures Builds(s, r)
  {
    if s.rest.preHeader.Some? || !RequestKnown(s.core) then s
    else s.(rest := s.rest.(preHeader := Some(Proposal(s))))
  }

  function CreateBlock(cfg: Config, s: State): (r: State)
    ensures Builds(s, r)
  {
    if s.rest.block.Some? then s
    else var s1 := MakeHeader(cfg, s); s1.(rest := s1.rest.(block := s1.rest.header))
  }

  function CreatePreBlock(s: State): (r: State)
    ensures Builds(s, r)
  {
    if s.rest.preBlock.Some? then s
    else var s1 := MakePreHeader(s); s1.(rest := s1.rest.(preBlock := s1.rest.preHeader))
  }

  // ---- recovery (send.go) ----

  // The non-nil payloads of a slot list, in index order.
  function Filled(slots: Slots, n: nat): (r: seq<Payload>)
    ensures forall p :: p in r <==> exists i :: 0 <= i < n && i in slots && slots[i] == p
  {
    if n == 0 then []
    else if n - 1 in slots then Filled(slots, n - 1) + [slots[n - 1]]
    else Filled(slots, n - 1)
  }

  function RecoveryItems(cfg: Config, c: Core): seq<Payload> {
    Filled(c.preps, c.n) + Filled(c.lastChangeViews, c.n)
    + (if PreCommitSent(cfg, c) then Filled(c.preCommits, c.n) else [])
    + (if CommitSent(cfg, c) then Filled(c.commits, c.n) else [])
  }

  function SendRecoveryMessage(cfg: Config, s: State): State
    requires s.core.me >= 0
  {
    Broadcast(s, Recovery(RecoveryItems(cfg, s.core)))
  }

  // Asks the memory pool for every proposed transaction that is not there yet, in order.
  function ProcessMissingTx(cfg: Config, s: State, hashes: seq<Hash>): State
    decreases hashes
  {
    if hashes == [] then s
    else
      var h := hashes[0];
      var s1 :=
        if h in s.rest.transactions then s
        else if cfg.getTx(s.rest.calls, h) then
          Tick(s).(rest := Tick(s).rest.(transactions := s.rest.transactions + {h}))
        else
          Tick(s).(rest := Tick(s).rest.(missing := s.rest.missing + [h]));
      ProcessMissingTx(cfg, s1, hashes[1..])
  }

  function SendRecoveryRequest(cfg: Config, s: State): State
    requires s.core.me >= 0
  {
    var s1 := if RequestKnown(s.core) && !HasAllTransactions(s) then ProcessMissingTx(cfg, s, s.rest.txs) else s;
    if s1.core.me >= 0 then Broadcast(s1, RecoveryRequest) else s1
  }

  // The F+1 validators that follow the sender answer its recovery request.
  predicate Answers(me: nat, from: nat, n: pos)
  {
    TruncMod(me - from + n - 1, n) <= F(n)
  }

  function OnRecoveryRequest(cfg: Config, s: State, msg: Payload): State {
    var c := s.core;
    if WatchOnly(cfg, c) then s
    else if !CommitSent(cfg, c) && (!AntiMEV(cfg, c.height) || !PreCommitSent(cfg, c))
            && !Answers(c.me, msg.from, c.n) then s
    else SendRecoveryMessage(cfg, s)
  }

  // ---- re-verification of stored payloads (dbft.go) ----

  // Responses that answer some other request are thrown away.
  function Answering(preps: Slots, n: nat, req: Payload): Slots {
    map i | i in preps && !(0 <= i < n && preps[i].body.PrepareResponse? && preps[i].body.preparation != req)
      :: preps[i]
  }

  // Payloads of view v whose signature does not cover header h are thrown away.
  function Genuine(slots: Slots, n: nat, v: byte, h: Header): Slots {
    map i | i in slots
            && !(0 <= i < n && slots[i].view == v && !Verifies(h, slots[i].from, slots[i].Signed()))
      :: slots[i]
  }

  predicate AnyInView(slots: Slots, n: nat, v: byte) {
    exists i :: 0 <= i < n && i in slots && slots[i].view == v
  }

  function VerifyPreCommits(s: State): (r: State)
    ensures SameVotes(s, r)
  {
    if !HasAllTransactions(s) || !AnyInView(s.core.preCommits, s.core.n, s.core.view) then s
    else
      var s1 := CreatePreBlock(s);
      if s1.rest.preBlock.None? then s1
      else s1.(core := s1.core.(
             preCommits := Genuine(s1.core.preCommits, s1.core.n, s1.core.view, s1.rest.preBlock.value)))
  }

  // The first i slots are verified.
  function CommitsVerifiedTo(cfg: Config, s: State, i: nat): (r: State)
    ensures SameVotes(s, r)
  {
    if !AnyInView(s.core.commits, i, s.core.view) then s
    else
      var s1 := MakeHeader(cfg, s);
      if s1.rest.header.None? then s1
      else s1.(core := s1.core.(commits := Genuine(s1.core.commits, i, s1.core.view, s1.rest.header.value)))
  }

  function VerifyCommits(cfg: Config, s: State): (r: State)
    ensures SameVotes(s, r)
  {
    CommitsVerifiedTo(cfg, s, s.core.n)
  }

  function UpdateExistingPayloads(cfg: Config, s: State, msg: Payload): (r: State)
    ensures SameProposal(s, r)
  {
    var s1 := s.(core := s.core.(preps := Answering(s.core.preps, s.core.n, msg)));
    if AntiMEV(cfg, s.core.height) then VerifyPreCommits(s1) else VerifyCommits(cfg, s1)
  }

  // ---- quorum decisions (check.go) ----

  // The block goes to the ledger.
  function Offered(s: State, h: Header): State {
    Tick(s).(rest := Tick(s).rest.(offered := s.rest.offered + [Offer(s.rest.calls, h)]))
  }

  function CheckCommit(cfg: Config, s: State): (r: State)
    ensures SameVotes(s, r)
  {
    if !HasAllTransactions(s) || |Voters(s.core.commits, s.core.n, InView(s.core.view))| < M(s.core.n) then s
    else
      var s1 := CreateBlock(cfg, s);
      if s1.rest.block.None? then Crash(s1)
      else
        var h := s1.rest.block.value;
        var ok := cfg.processBlock(s1.rest.calls, h);
        var s2 := Offered(s1, h);
        if !ok then if AntiMEV(cfg, s.core.height) then s2 else Crash(s2)
        else
          s2.(core := s2.core.(
            blockProcessed := true,
            processed := s2.core.processed
                         + [Acceptance(CommitType, s2.core.height, s2.core.view, h, s2.core.commits)]))
  }

  function SendCommit(cfg: Config, s: State): (r: State)
    requires s.core.me >= 0
    ensures SameVotes(s, r)
  {
    var me := s.core.me;
    if me in s.core.commits then
      s.(core := s.core.(sent := s.core.sent + [s.core.commits[me]]))
    else
      var s1 := MakeHeader(cfg, s);
      if s1.rest.header.None? then s1
      else
        var ok := cfg.sign(s1.rest.calls);
        var s2 := Tick(s1);
        if !ok then s2
        else
          var p := Own(s2.core, Commit(Signature(me, s2.rest.header.value)));
          s2.(core := s2.core.(commits := s2.core.commits[me := p], sent := s2.core.sent + [p]))
  }

  // The pre-block counts as processed.
  function MarkPreBlock(s: State): State
    requires s.rest.preBlock.Some?
  {
    var c := s.core;
    s.(core := c.(
      preBlockProcessed := true,
      preBlocks := c.preBlocks + [Acceptance(PreCommitType, c.height, c.view, s.rest.preBlock.value, c.preCommits)]))
  }

  function CheckPreCommit(cfg: Config, s: State): (r: State)
    ensures SameVotes(s, r)
  {
    if !HasAllTransactions(s) || |Voters(s.core.preCommits, s.core.n, InView(s.core.view))| < M(s.core.n) then s
    else
      var s1 := CreatePreBlock(s);
      if s1.rest.preBlock.None? then Crash(s1)
      else
        var ok := s1.core.preBlockProcessed || cfg.processPreBlock(s1.rest.calls, s1.rest.preBlock.value);
        var s2 := if s1.core.preBlockProcessed then s1 else Tick(s1);
        if !ok then s2
        else
          var s3 := if s1.core.preBlockProcessed then s2 else MarkPreBlock(s2);
          if PreCommitSent(cfg, s3.core) then
            var s4 := VerifyCommits(cfg, s3);
            CheckCommit(cfg, SendCommit(cfg, s4))
          else s3
  }

  function SendPreCommit(cfg: Config, s: State): (r: State)
    requires s.core.me >= 0
    ensures SameVotes(s, r)
  {
    var me := s.core.me;
    if me in s.core.preCommits then
      s.(core := s.core.(sent := s.core.sent + [s.core.preCommits[me]]))
    else
      var s1 := CreatePreBlock(s);
      if s1.rest.preBlock.None? then s1
      else
        var ok := cfg.sign(s1.rest.calls);
        var s2 := Tick(s1);
        if !ok then s2
        else
          var p := Own(s2.core, PreCommit(Signature(me, s2.rest.preBlock.value)));
          s2.(core := s2.core.(preCommits := s2.core.preCommits[me := p], sent := s2.core.sent + [p]))
  }

  predicate HasRequest(preps: Slots, n: nat) {
    exists i :: 0 <= i < n && i in preps && preps[i].body.PrepareRequest?
  }

  function CheckPrepare(cfg: Config, s: State): (r: State)
    requires s.core.me >= 0
    ensures SameVotes(s, r)
  {
    if !HasAllTransactions(s) || !HasRequest(s.core.preps, s.core.n)
       || |Voters(s.core.preps, s.core.n, InView(s.core.view))| < M(s.core.n) then s
    else if AntiMEV(cfg, s.core.height) then CheckPreCommit(cfg, SendPreCommit(cfg, s))
    else CheckCommit(cfg, SendCommit(cfg, s))
  }

  // ---- preparations (send.go) ----

  function SendPrepareResponse(s: State): (r: State)
    requires s.core.me >= 0 && RequestKnown(s.core)
    ensures SameProposal(s, r)
  {
    var p := Own(s.core, PrepareResponse(s.core.preps[s.core.primary]));
    s.(core := s.core.(preps := s.core.preps[s.core.me := p], sent := s.core.sent + [p]))
  }

  // Context.Fill: nothing changes when a dynamic block time lets the primary wait for transactions.
  predicate CanFill(cfg: Config, s: State, force: bool) {
    !cfg.dynamicBlockTime || force || cfg.getVerified(s.rest.calls) != []
  }

  function Fill(cfg: Config, s: State): State {
    var txs := cfg.getVerified(s.rest.calls);
    var ts := s.rest.lastTimestamp + cfg.timestampIncrement;
    var now := cfg.now(s.rest.calls);
    s.(rest := s.rest.(
      nonce := cfg.random(s.rest.calls),
      txs := txs,
      transactions := s.rest.transactions + (set h | h in txs),
      timestamp := if now > ts then now else ts,
      calls := s.rest.calls + 1))
  }

  function Publish(cfg: Config, s: State, p: Payload): (r: State)
    requires s.core.me >= 0
    ensures SameEpoch(s, r)
  {
    CheckPrepare(cfg, s.(
      core := s.core.(preps := s.core.preps[s.core.me := p], sent := s.core.sent + [p]),
      rest := s.rest.(txSubscription := false)))
  }

  function SendFilledRequest(cfg: Config, s: State): (r: State)
    requires s.core.me >= 0
    ensures SameEpoch(s, r)
  {
    var s1 := Fill(cfg, s);
    Publish(cfg, s1, Own(s1.core, PrepareRequest(s1.rest.timestamp, s1.rest.nonce, s1.rest.txs)))
  }

  function SendPrepareRequest(cfg: Config, s: State, force: bool): (r: State)
    requires s.core.me >= 0
    ensures SameEpoch(s, r)
  {
    if CanFill(cfg, s, force) then SendFilledRequest(cfg, s)
    else
      var s1 := Tick(s).(rest := Tick(s).rest.(txSubscription := true));
      if CanFill(cfg, s1, force) then SendFilledRequest(cfg, s1) else Tick(s1)
  }

  // ---- view changes and the handlers, which call each other ----

  function NextView(v: byte): byte {
    if v == 255 then 0 else v + 1
  }

  function MakeChangeView(s: State, reason: Reason): (r: State)
    requires s.core.me >= 0
    ensures SameProposal(s, r)
  {
    var p := Own(s.core, ChangeView(NextView(s.core.view), reason));
    s.(core := s.core.(changeViews := s.core.changeViews[s.core.me := p], sent := s.core.sent + [p]))
  }

  // What every reset forgets.
  function ClearProposal(r: Rest, ts: nat): Rest {
    r.(txs := [], transactions := {}, missing := [], preHeader := None, preBlock := None, header := None,
       block := None, lastTimestamp := ts, txSubscription := false)
  }

  // Context.reset for a new height.
  function ResetHeight(cfg: Config, s: State, height: nat, ts: nat): (r: State)
    ensures r.core.view == 0
  {
    var n := cfg.validators(height);
    var me := IndexAt(cfg, height);
    State(
      s.core.(height := height, n := n, me := me, primary := GetPrimaryIndex(height, 0, n), view := 0,
              preps := map[], preCommits := map[], commits := map[], changeViews := map[],
              lastChangeViews := map[], preBlockProcessed := false, blockProcessed := false),
      ClearProposal(s.rest, ts).(lastSeen := if me >= 0 then map[me := HeightView(height, 0)] else map[]))
  }

  // The ChangeViews that asked for view v or a later one.
  function Asking(slots: Slots, n: nat, v: byte): Slots {
    map i | 0 <= i < n && i in slots && slots[i].NewView() >= v :: slots[i]
  }

  // Context.reset for a later view of the same height.
  function ResetView(s: State, view: byte, ts: nat): (r: State)
    ensures r.core.view == view
    ensures view >= s.core.view ==> Later(s, r)
  {
    var c := s.core;
    var seen := s.rest.lastSeen;
    State(
      c.(primary := GetPrimaryIndex(c.height, view, c.n), view := view, preps := map[],
         lastChangeViews := Asking(c.changeViews, c.n, view), changeViews := map[]),
      ClearProposal(s.rest, ts).(lastSeen := if c.me >= 0 then seen[c.me := HeightView(c.height, view)] else seen))
  }

  // The cached messages of the current height leave the cache, to be received again.
  function TakeMail(s: State): (r: State)
    ensures r.core == s.core
  {
    Tick(s).(rest := Tick(s).rest.(mail := s.rest.mail - {s.core.height}))
  }

  // The orders in which Go iterates the maps of an inbox, at a callback number.
  function MapOrder(cfg: Config, k: nat): (nat, set<nat>) -> seq<nat> {
    (j, keys) => cfg.mapOrder(k, j, keys)
  }

  function CachedMail(cfg: Config, s: State): seq<Payload> {
    Replay(BoxAt(s.rest.mail, s.core.height), MapOrder(cfg, s.rest.calls))
  }

  function Weight(msgs: seq<Payload>): (w: nat)
    ensures w <= 1
  {
    if exists m :: m in msgs && m.body.Recovery? then 1 else 0
  }

  // initializeConsensus after reset.
  function Initialize(cfg: Config, s: State): (r: State)
    ensures Later(s, r)
    decreases 256 - s.core.view, 2, 0, 0
  {
    ReceiveAll(cfg, TakeMail(s), CachedMail(cfg, s))
  }

  function ReceiveAll(cfg: Config, s: State, msgs: seq<Payload>): (r: State)
    ensures Later(s, r)
    decreases 256 - s.core.view, Weight(msgs), 11, |msgs|
  {
    if msgs == [] then s
    else
      assert forall m :: m in msgs[1..] ==> m in msgs;
      ReceiveAll(cfg, OnReceive(cfg, s, msgs[0]), msgs[1..])
  }

  function CheckChangeView(cfg: Config, s: State, view: byte): (r: State)
    ensures Later(s, r)
    decreases 256 - s.core.view, 0, 6, 0
  {
    var c := s.core;
    if c.view >= view || |Voters(c.changeViews, c.n, AsksFor(view))| < M(c.n) then s
    else
      var s1 :=
        if !WatchOnly(cfg, c) && c.me in c.changeViews && c.changeViews[c.me].NewView() < view
        then MakeChangeView(s, CVChangeAgreement) else s;
      Initialize(cfg, ResetView(s1, view, s1.rest.lastTimestamp))
  }

  lemma MissingTxKeepsCore(cfg: Config, s: State, hashes: seq<Hash>)
    ensures ProcessMissingTx(cfg, s, hashes).core == s.core && SameCache(s, ProcessMissingTx(cfg, s, hashes))
    decreases hashes
  {
  }

  lemma RecoveryRequestIsLater(cfg: Config, s: State)
    requires s.core.me >= 0
    ensures Later(s, SendRecoveryRequest(cfg, s))
  {
    MissingTxKeepsCore(cfg, s, s.rest.txs);
  }

  function SendChangeView(cfg: Config, s: State, reason: Reason): (r: State)
    ensures Later(s, r)
    decreases 256 - s.core.view, 0, 7, 0
  {
    if WatchOnly(cfg, s.core) then s
    else if reason == CVTimeout && MoreThanFNodesCommittedOrLost(s) then
      RecoveryRequestIsLater(cfg, s);
      SendRecoveryRequest(cfg, s)
    else
      var reason' := if !HasAllTransactions(s) && reason == CVTimeout then CVTxNotFound else reason;
      CheckChangeView(cfg, MakeChangeView(s, reason'), NextView(s.core.view))
  }

  function BuildBlock(cfg: Config, s: State): State {
    if AntiMEV(cfg, s.core.height) then CreatePreBlock(s) else CreateBlock(cfg, s)
  }

  predicate BlockOK(cfg: Config, s: State) {
    var s1 := BuildBlock(cfg, s);
    var b := if AntiMEV(cfg, s.core.height) then s1.rest.preBlock else s1.rest.block;
    b.Some? && cfg.verifyBlock(s1.rest.calls, b.value)
  }

  // createAndCheckBlock when the block passes; otherwise it asks for a view change.
  function CreateAndCheckBlock(cfg: Config, s: State): (r: State)
    ensures Later(s, r)
    decreases 256 - s.core.view, 0, 8, 0
  {
    var s1 := Tick(BuildBlock(cfg, s));
    if BlockOK(cfg, s) then s1 else SendChangeView(cfg, s1, CVTxInvalid)
  }

  // The request's proposal enters the context and its payload the slot of the primary.
  function AdoptRequest(cfg: Config, s: State, msg: Payload): (r: State)
    requires msg.body.PrepareRequest?
    ensures SameEpoch(s, r)
  {
    var s1 := s.(rest := s.rest.(timestamp := msg.body.timestamp, nonce := msg.body.nonce, txs := msg.body.txs));
    MissingTxKeepsCore(cfg, s1, msg.body.txs);
    var s2 := ProcessMissingTx(cfg, s1, msg.body.txs);
    var s3 := UpdateExistingPayloads(cfg, s2, msg);
    s3.(core := s3.core.(preps := s3.core.preps[msg.from := msg]))
  }

  // A backup that accepts the proposal answers it and looks for a quorum.
  function Respond(cfg: Config, s: State): (r: State)
    requires s.core.me >= 0
    ensures SameProposal(s, r)
  {
    if RequestKnown(s.core) then CheckPrepare(cfg, SendPrepareResponse(s)) else Crash(s)
  }

  function OnPrepareRequest(cfg: Config, s: State, msg: Payload): (r: State)
    requires msg.body.PrepareRequest?
    ensures Later(s, r)
    decreases 256 - s.core.view, 0, 9, 0
  {
    var c := s.core;
    if RequestKnown(c) || c.view != msg.view || msg.from != GetPrimaryIndex(c.height, c.view, c.n) then s
    else
      var s1 := Tick(s);
      if !cfg.verifyPayload(s.rest.calls, msg) then SendChangeView(cfg, s1, CVBlockRejectedByPolicy)
      else
        var s2 := AdoptRequest(cfg, s1, msg);
        if !HasAllTransactions(s2) then s2
        else
          var s3 := CreateAndCheckBlock(cfg, s2);
          if !BlockOK(cfg, s2) || WatchOnly(cfg, s3.core) then s3 else Respond(cfg, s3)
  }

  function OnPrepareResponse(cfg: Config, s: State, msg: Payload): (r: State)
    requires msg.body.PrepareResponse?
    ensures SameProposal(s, r)
  {
    var c := s.core;
    var primary := GetPrimaryIndex(c.height, c.view, c.n);
    if c.view != msg.view || msg.from == primary then s
    else if msg.from in c.preps || (ViewChanging(cfg, c) && !MoreThanFNodesCommittedOrLost(s)) then s
    else
      var s1 := Tick(s);
      if !cfg.verifyPayload(s.rest.calls, msg) then s1
      else if primary in c.preps && msg.body.preparation != c.preps[primary] then s1
      else
        var s2 := s1.(core := c.(preps := c.preps[msg.from := msg]));
        if !WatchOnly(cfg, s2.core) && !CommitSent(cfg, s2.core)
           && (!AntiMEV(cfg, c.height) || !PreCommitSent(cfg, s2.core)) && RequestKnown(s2.core)
        then CheckPrepare(cfg, s2) else s2
  }

  function OnChangeView(cfg: Config, s: State, msg: Payload): (r: State)
    requires msg.body.ChangeView?
    ensures Later(s, r)
    decreases 256 - s.core.view, 0, 9, 0
  {
    var c := s.core;
    if msg.NewView() <= c.view then OnRecoveryRequest(cfg, s, msg)
    else if Locked(cfg, c) then SendRecoveryMessage(cfg, s)
    else if msg.from in c.changeViews && msg.NewView() < c.changeViews[msg.from].NewView() then s
    else
      CheckChangeView(cfg, s.(core := c.(changeViews := c.changeViews[msg.from := msg])), msg.body.newView)
  }

  function OnPreCommit(cfg: Config, s: State, msg: Payload): (r: State)
    requires msg.body.PreCommit?
    ensures SameProposal(s, r)
  {
    var c := s.core;
    if msg.from in c.preCommits then s
    else
      var s1 := s.(core := c.(preCommits := c.preCommits[msg.from := msg]));
      if c.view != msg.view then s1
      else if !cfg.verifyPayload(s.rest.calls, msg) then Tick(s)
      else if !HasAllTransactions(s) then Tick(s1)
      else
        var s2 := CreatePreBlock(Tick(s1));
        if s2.rest.preBlock.None? then s2
        else if Verifies(s2.rest.preBlock.value, msg.from, msg.Signed()) then CheckPreCommit(cfg, s2)
        else s2.(core := c)
  }

  function OnCommit(cfg: Config, s: State, msg: Payload): (r: State)
    requires msg.body.Commit?
    ensures SameProposal(s, r)
  {
    var c := s.core;
    if msg.from in c.commits then s
    else
      var s1 := s.(core := c.(commits := c.commits[msg.from := msg]));
      if c.view != msg.view then s1
      else if !cfg.verifyPayload(s.rest.calls, msg) then Tick(s)
      else
        var s2 := MakeHeader(cfg, Tick(s1));
        if s2.rest.header.None? then s2
        else if Verifies(s2.rest.header.value, msg.from, msg.Signed()) then CheckCommit(cfg, s2)
        else s2.(core := c)
  }

  // The three parts of onRecoveryMessage: view changes, preparations, (pre)commits.
  function OnRecoveryMessage(cfg: Config, s: State, msg: Payload): (r: State)
    requires msg.body.Recovery?
    ensures Later(s, r)
    decreases 256 - s.core.view, 1, 9, 0
  {
    if msg.view > s.core.view && Locked(cfg, s.core) then s
    else
      var s1 := if msg.view > s.core.view then ReceiveAll(cfg, s, Unpack(msg.body.items, ChangeViewType)) else s;
      var s2 := RecoverPreparations(cfg, s1, msg);
      if msg.view <= s2.core.view then
        ReceiveAll(cfg, ReceiveAll(cfg, s2, Unpack(msg.body.items, PreCommitType)),
                   Unpack(msg.body.items, CommitType))
      else s2
  }

  function RecoverPreparations(cfg: Config, s: State, msg: Payload): (r: State)
    requires msg.body.Recovery?
    ensures Later(s, r)
    decreases 256 - s.core.view, 1, 8, 0
  {
    if msg.view == s.core.view && (!ViewChanging(cfg, s.core) || MoreThanFNodesCommittedOrLost(s))
       && !CommitSent(cfg, s.core) && (!AntiMEV(cfg, s.core.height) || !PreCommitSent(cfg, s.core)) then
      var requests := Unpack(msg.body.items, PrepareRequestType);
      assert requests != [] ==> requests[0] in requests;
      var s1 := if !RequestKnown(s.core) && requests != [] then OnReceive(cfg, s, requests[0]) else s;
      ReceiveAll(cfg, s1, Unpack(msg.body.items, PrepareResponseType))
    else s
  }

  predicate FromFuture(c: Core, msg: Payload) {
    || msg.height > c.height
    || (msg.view > c.view && !msg.body.ChangeView? && !msg.body.Recovery?)
  }

  function Deliver(s: State, msg: Payload): (r: State)
    ensures SameEpoch(s, r)
  {
    s.(core := s.core.(delivered := s.core.delivered + {msg}))
  }

  function Cache(s: State, msg: Payload): (r: State)
    ensures r.core == s.core
  {
    s.(rest := s.rest.(mail := AddMessage(s.rest.mail, msg)))
  }

  function See(s: State, msg: Payload): (r: State)
    ensures r.core == s.core
  {
    var seen := s.rest.lastSeen;
    if msg.from !in seen || seen[msg.from].height < msg.height || seen[msg.from].view < msg.view then
      s.(rest := s.rest.(lastSeen := s.rest.lastSeen[msg.from := HeightView(msg.height, msg.view)]))
    else s
  }

  function Seen(s: State, msg: Payload): (r: State)
    ensures r.core == s.core.(delivered := s.core.delivered + {msg})
    ensures r.rest == s.rest.(lastSeen := r.rest.lastSeen)
  {
    See(Deliver(s, msg), msg)
  }

  function Log(s: State, msg: Payload): State {
    s.(rest := s.rest.(handled := s.rest.handled + [msg]))
  }

  // The state in which the handler of a message starts.
  function Taken(s: State, msg: Payload): (r: State)
    ensures r.core == s.core.(delivered := s.core.delivered + {msg})
    ensures r.rest == s.rest.(lastSeen := r.rest.lastSeen, handled := s.rest.handled + [msg])
  {
    Log(Seen(s, msg), msg)
  }

  function OnReceive(cfg: Config, s: State, msg: Payload): (r: State)
    ensures Later(s, r)
    decreases 256 - s.core.view, if msg.body.Recovery? then 1 else 0, 10, 1
  {
    var s1 := Deliver(s, msg);
    if s.rest.crashed || msg.from >= s.core.n || msg.body.Malformed? || msg.height < s.core.height then s1
    else if FromFuture(s.core, msg) then Cache(s1, msg)
    else
      var s2 := Seen(s, msg);
      if s2.core.blockProcessed && !msg.body.RecoveryRequest? then s2 else Dispatch(cfg, Taken(s, msg), msg)
  }

  // A message of the current epoch goes to the handler of its type.
  function Dispatch(cfg: Config, s: State, msg: Payload): (r: State)
    ensures Later(s, r)
    decreases 256 - s.core.view, if msg.body.Recovery? then 1 else 0, 10, 0
  {
    match msg.body
    case ChangeView(_, _) => OnChangeView(cfg, s, msg)
    case PrepareRequest(_, _, _) => OnPrepareRequest(cfg, s, msg)
    case PrepareResponse(_) => OnPrepareResponse(cfg, s, msg)
    case Commit(_) => OnCommit(cfg, s, msg)
    case PreCommit(_) => if AntiMEV(cfg, s.core.height) then OnPreCommit(cfg, s, msg) else s
    case RecoveryRequest => OnRecoveryRequest(cfg, s, msg)
    case Recovery(_) => OnRecoveryMessage(cfg, s, msg)
    case Malformed => s
  }

  // ---- the other entry points ----

  function Start(cfg: Config, s: State, height: nat, ts: nat): State {
    var s1 := Initialize(cfg, ResetHeight(cfg, s.(rest := s.rest.(mail := map[])), height, ts));
    if IsPrimary(s1.core) && !s1.rest.crashed then SendPrepareRequest(cfg, s1, true) else s1
  }

  function Reset(cfg: Config, s: State, height: nat, ts: nat): State {
    if s.rest.crashed then s else Initialize(cfg, ResetHeight(cfg, s, height, ts))
  }

  function OnTimeout(cfg: Config, s: State, height: nat, view: byte, force: bool): State {
    var c := s.core;
    if s.rest.crashed || WatchOnly(cfg, c) || c.blockProcessed || height != c.height || view != c.view then s
    else if IsPrimary(c) && !RequestKnown(c) then
      SendPrepareRequest(cfg, s, c.view != 0 || s.rest.txSubscription || force)
    else if Locked(cfg, c) then SendRecoveryMessage(cfg, s)
    else if c.view == 0 && cfg.dynamicBlockTime && IsBackup(c) && force then
      s.(rest := s.rest.(txSubscription := false))
    else if c.view == 0 && cfg.dynamicBlockTime && IsBackup(c) && !s.rest.txSubscription then
      if cfg.getVerified(s.rest.calls) == [] then
        Tick(s).(rest := Tick(s).rest.(txSubscription := true))
      else SendChangeView(cfg, Tick(s), CVTimeout)
    else SendChangeView(cfg, s, CVTimeout)
  }

  // The timer remembers the height and view it was last set for.
  function OnNewTransaction(cfg: Config, s: State, timerHeight: nat, timerView: byte): State {
    if s.rest.txSubscription then OnTimeout(cfg, s, timerHeight, timerView, true) else s
  }

  function AddTransaction(cfg: Config, s: State, tx: Hash): (r: State)
    ensures Later(s, r)
  {
    var s1 := s.(rest := s.rest.(transactions := s.rest.transactions + {tx}));
    if !HasAllTransactions(s1) || IsPrimary(s1.core) || WatchOnly(cfg, s1.core) then s1
    else
      var s2 := CreateAndCheckBlock(cfg, s1);
      if !BlockOK(cfg, s1) then s2
      else
        Respond(cfg, VerifyPreCommits(s2))
  }

  function IndexOf(s: seq<Hash>, h: Hash): (i: int)
    ensures -1 <= i < |s|
    ensures i == -1 <==> h !in s
    ensures i >= 0 ==> s[i] == h && h !in s[..i]
  {
    if s == [] then -1
    else if s[0] == h then 0
    else
      var j := IndexOf(s[1..], h);
      if j < 0 then -1 else
        assert s[..j + 1] == [s[0]] + s[1..][..j];
        j + 1
  }

  predicate AwaitsTransactions(cfg: Config, s: State) {
    && IsBackup(s.core)
    && !(ViewChanging(cfg, s.core) && !MoreThanFNodesCommittedOrLost(s))
    && RequestKnown(s.core)
    && !ResponseSent(cfg, s.core)
    && !Locked(cfg, s.core)
    && !s.core.blockProcessed
    && s.rest.missing != []
  }

  function OnTransaction(cfg: Config, s: State, tx: Hash): State {
    if s.rest.crashed || !AwaitsTransactions(cfg, s) || tx !in s.rest.missing then s
    else
      var i := IndexOf(s.rest.missing, tx);
      var s1 := AddTransaction(cfg, s, tx);
      if s1.rest.crashed || s1.rest.missing == [] then s1
      else if i >= |s1.rest.missing| then Crash(s1)
      else s1.(rest := s1.rest.(missing := s1.rest.missing[..i] + s1.rest.missing[i + 1..]))
  }
}
