/** Every handler call of a node, with all the view changes and cache replays it causes, is a finite run of the
    abstract protocol. */
module Refinement {
  import opened Quorum
  import opened Payloads
  import opened NodeState
  import opened Mailbox
  import opened NodeSpec
  import P = Protocol

  // ---- what ties the scratch state of a node to its protocol state ----

  // The proposal fields are those of the request in the slot of the primary; nothing is proposed without it.
  ghost predicate ProposalOK(s: State) {
    if s.core.primary in s.core.preps then
      s.core.preps[s.core.primary].body == PrepareRequest(s.rest.timestamp, s.rest.nonce, s.rest.txs)
    else
      s.rest.txs == [] && s.rest.transactions == {} && s.rest.missing == []
  }

  ghost predicate Cached(s: State, b: Option<Header>) {
    b.Some? ==> s.core.primary in s.core.preps && b.value == Proposal(s)
  }

  ghost predicate BlocksOK(s: State) {
    Cached(s, s.rest.preHeader) && Cached(s, s.rest.preBlock) && Cached(s, s.rest.header) && Cached(s, s.rest.block)
  }

  // Only proposed transactions are collected or missed.
  ghost predicate TransactionsOK(s: State) {
    && (forall h :: h in s.rest.transactions ==> h in s.rest.txs)
    && (forall h :: h in s.rest.missing ==> h in s.rest.txs)
  }

  ghost predicate MailItemOK(s: State, h: nat, p: Payload) {
    && p.height == h && p in s.core.delivered && !p.body.Recovery?
    && (h == s.core.height ==> p.view > s.core.view && !p.body.ChangeView?)
  }

  // Cached messages of the current height belong to later views.
  ghost predicate MailOK(s: State) {
    forall h, p :: h in s.rest.mail && InBox(s.rest.mail[h], p) ==> MailItemOK(s, h, p)
  }

  // A block is processed only when every proposed transaction is there.
  ghost predicate CompleteOK(s: State) {
    s.core.blockProcessed ==> HasAllTransactions(s)
  }

  ghost predicate Coherent(s: State) {
    ProposalOK(s) && BlocksOK(s) && TransactionsOK(s) && MailOK(s) && CompleteOK(s) && Filed(s.rest.mail)
  }

  ghost predicate Ready(cfg: Config, input: set<Payload>, s: State) {
    P.Inv(cfg, s.core) && P.Unforged(cfg, s.core, input) && Coherent(s)
  }

  // A refusal kills the process, unless the height has the anti-MEV extension.
  predicate Refuses(cfg: Config, o: Offer) {
    !AntiMEV(cfg, o.header.height) && !cfg.processBlock(o.call, o.header)
  }

  // Of the blocks that the ledger was asked to process from s to r it refuses one, and that is fatal.
  predicate Refused(cfg: Config, s: State, r: State) {
    exists i :: |s.rest.offered| <= i < |r.rest.offered| && Refuses(cfg, r.rest.offered[i])
  }

  // The header is one that the primary of a view proposed in a request that the node knows.
  ghost predicate IsProposal(cfg: Config, c: Core, h: Header) {
    exists req :: P.Known(c, req) && P.FromPrimary(cfg, req) && h == HeaderOf(req)
  }

  // What the ledger is asked to process from s to r.
  ghost predicate OffersProposals(cfg: Config, s: State, r: State) {
    && s.rest.offered <= r.rest.offered
    && forall i :: |s.rest.offered| <= i < |r.rest.offered| ==>
      && r.rest.offered[i].header.height == r.core.height
      && s.rest.calls <= r.rest.offered[i].call < r.rest.calls
      && IsProposal(cfg, r.core, r.rest.offered[i].header)
  }

  // The process dies exactly of a block that the ledger is asked to process and refuses.
  ghost predicate Survives(cfg: Config, s: State, r: State) {
    && s.rest.calls <= r.rest.calls && OffersProposals(cfg, s, r)
    && (r.rest.crashed <==> s.rest.crashed || Refused(cfg, s, r))
  }

  // A block of this request was put to the application from one callback number up to another, and it approved.
  ghost predicate Approved(cfg: Config, from: nat, to: nat, req: Payload) {
    req.body.PrepareRequest? && exists k :: from <= k < to && cfg.verifyBlock(k, HeaderOf(req))
  }

  // A payload of the view of c, or of a later one.
  predicate NotBefore(c: Core, p: Payload) {
    p.height > c.height || (p.height == c.height && p.view >= c.view)
  }

  // What is broadcast from s to r; no request of an earlier view is answered, and any other only after its block was
  // approved meanwhile.
  ghost predicate Vouches(cfg: Config, s: State, r: State) {
    && s.core.sent <= r.core.sent
    && forall i :: |s.core.sent| <= i < |r.core.sent| && r.core.sent[i].body.PrepareResponse? ==>
      && Approved(cfg, s.rest.calls, r.rest.calls, r.core.sent[i].body.preparation)
      && NotBefore(s.core, r.core.sent[i])
  }

  // Validator i was heard of in this view.
  predicate Heard(s: State, i: int) {
    i in s.rest.lastSeen && s.rest.lastSeen[i].height >= s.core.height && s.rest.lastSeen[i].view >= s.core.view
  }

  predicate HearsItself(s: State) {
    s.core.me >= 0 ==> Heard(s, s.core.me)
  }

  // Nobody is forgotten within a view, in a new one a node has heard of itself, and the log of handled messages only
  // grows.
  ghost predicate Remembers(s: State, r: State) {
    && s.rest.handled <= r.rest.handled
    && if r.core.height == s.core.height && r.core.view == s.core.view then forall i :: Heard(s, i) ==> Heard(r, i)
       else HearsItself(r)
  }

  // The signature is not over what the primary of its view proposed.
  ghost predicate Discredited(cfg: Config, c: Core, p: Payload) {
    exists req :: P.Known(c, req) && P.FromPrimary(cfg, req) && req.height == p.height && req.view == p.view
                  && !Verifies(HeaderOf(req), p.from, p.Signed())
  }

  // Each signature stays in its slot, or is known to be over another header than the one of its view.
  ghost predicate SlotsSpared(cfg: Config, slots: Slots, r: Core, slots': Slots) {
    forall i :: i in slots ==> (i in slots' && slots'[i] == slots[i]) || Discredited(cfg, r, slots[i])
  }

  ghost predicate SparesSigned(cfg: Config, s: State, r: State) {
    r.core.height == s.core.height ==>
      && SlotsSpared(cfg, s.core.commits, r.core, r.core.commits)
      && SlotsSpared(cfg, s.core.preCommits, r.core, r.core.preCommits)
  }

  ghost predicate Keeps(cfg: Config, s: State, r: State) {
    Vouches(cfg, s, r) && Remembers(s, r) && SparesSigned(cfg, s, r)
  }

  // Every proposed transaction is collected or on the list of missing ones.
  predicate Accounted(txs: seq<Hash>, transactions: set<Hash>, missing: seq<Hash>) {
    forall h :: h in txs ==> h in transactions || h in missing
  }

  predicate ListOK(s: State) {
    RequestKnown(s.core) ==> Accounted(s.rest.txs, s.rest.transactions, s.rest.missing)
  }

  predicate KeepsList(s: State, r: State) {
    ListOK(s) ==> ListOK(r)
  }

  // From s to r there is a run of the protocol, and r is as orderly as s.
  ghost predicate Follows(cfg: Config, input: set<Payload>, s: State, r: State) {
    Ready(cfg, input, r) && P.Reaches(cfg, input, s.core, r.core)
  }

  ghost predicate Does(cfg: Config, input: set<Payload>, s: State, r: State) {
    Follows(cfg, input, s, r) && Survives(cfg, s, r) && KeepsList(s, r) && Keeps(cfg, s, r)
  }

  lemma StaysProposal(cfg: Config, c: Core, c': Core, h: Header)
    requires IsProposal(cfg, c, h) && P.Evolves(c, c')
    ensures IsProposal(cfg, c', h)
  {
    hide GetPrimaryIndex, P.LockKept, P.Settled, P.EvidenceKept;
    var req :| P.Known(c, req) && P.FromPrimary(cfg, req) && h == HeaderOf(req);
    assert P.Known(c', req);
  }

  lemma SurvivesBoth(cfg: Config, s: State, t: State, r: State)
    requires Survives(cfg, s, t) && Survives(cfg, t, r) && P.Evolves(s.core, t.core) && P.Evolves(t.core, r.core)
    requires t.core.height == r.core.height || t.rest.offered == s.rest.offered
    ensures Survives(cfg, s, r)
  {
    hide Refuses, IsProposal, P.LockKept, P.Settled, P.EvidenceKept;
    forall i | |s.rest.offered| <= i < |t.rest.offered|
      ensures IsProposal(cfg, r.core, r.rest.offered[i].header)
    {
      StaysProposal(cfg, t.core, r.core, t.rest.offered[i].header);
    }
    if Refused(cfg, s, t) {
      var i :| |s.rest.offered| <= i < |t.rest.offered| && Refuses(cfg, t.rest.offered[i]);
      assert Refuses(cfg, r.rest.offered[i]);
    }
  }

  lemma ApprovedInside(cfg: Config, from: nat, to: nat, from': nat, to': nat, req: Payload)
    requires Approved(cfg, from, to, req) && from' <= from && to <= to'
    ensures Approved(cfg, from', to', req)
  {
  }

  lemma StaysDiscredited(cfg: Config, c: Core, c': Core, p: Payload)
    requires Discredited(cfg, c, p) && P.Grows(c, c')
    ensures Discredited(cfg, c', p)
  {
    hide GetPrimaryIndex, Verifies;
    var req :| P.Known(c, req) && P.FromPrimary(cfg, req) && req.height == p.height && req.view == p.view
               && !Verifies(HeaderOf(req), p.from, p.Signed());
    assert P.Known(c', req);
  }

  lemma SparedBoth(cfg: Config, t: Core, r: Core, a: Slots, b: Slots, c: Slots)
    requires SlotsSpared(cfg, a, t, b) && SlotsSpared(cfg, b, r, c) && P.Grows(t, r)
    ensures SlotsSpared(cfg, a, r, c)
  {
    hide Discredited, P.Grows;
    forall i | i in a && Discredited(cfg, t, a[i])
      ensures Discredited(cfg, r, a[i])
    {
      StaysDiscredited(cfg, t, r, a[i]);
    }
  }

  lemma KeepsBoth(cfg: Config, s: State, t: State, r: State)
    requires Keeps(cfg, s, t) && Keeps(cfg, t, r) && s.rest.calls <= t.rest.calls <= r.rest.calls
    requires P.Evolves(s.core, t.core) && P.Evolves(t.core, r.core)
    ensures Keeps(cfg, s, r)
  {
    hide Approved, Heard, P.LockKept, P.Settled, SlotsSpared;
    if r.core.height == s.core.height {
      SparedBoth(cfg, t.core, r.core, s.core.commits, t.core.commits, r.core.commits);
      SparedBoth(cfg, t.core, r.core, s.core.preCommits, t.core.preCommits, r.core.preCommits);
    }
    forall i | |s.core.sent| <= i < |r.core.sent| && r.core.sent[i].body.PrepareResponse?
      ensures Approved(cfg, s.rest.calls, r.rest.calls, r.core.sent[i].body.preparation)
      ensures NotBefore(s.core, r.core.sent[i])
    {
      if i < |t.core.sent| {
        assert r.core.sent[i] == t.core.sent[i];
        ApprovedInside(cfg, s.rest.calls, t.rest.calls, s.rest.calls, r.rest.calls, r.core.sent[i].body.preparation);
      } else {
        ApprovedInside(cfg, t.rest.calls, r.rest.calls, s.rest.calls, r.rest.calls, r.core.sent[i].body.preparation);
      }
    }
  }

  lemma Then(cfg: Config, input: set<Payload>, s: State, t: State, r: State)
    requires P.Inv(cfg, s.core) && P.Unforged(cfg, s.core, input)
    requires t.core.height == r.core.height || t.rest.offered == s.rest.offered
    requires Does(cfg, input, s, t) && Does(cfg, input, t, r)
    ensures Does(cfg, input, s, r)
  {
    hide P.Inv, P.Unforged, Coherent, P.Reaches, ListOK, P.Evolves, Keeps, OffersProposals, Refused;
    P.ReachesKeeps(cfg, input, s.core, t.core);
    P.ReachesKeeps(cfg, input, t.core, r.core);
    SurvivesBoth(cfg, s, t, r);
    KeepsBoth(cfg, s, t, r);
    P.ReachesTransitive(cfg, input, s.core, t.core, r.core);
  }

  lemma Step(cfg: Config, input: set<Payload>, s: State, a: P.Act, r: State)
    requires Ready(cfg, input, s) && P.Enabled(cfg, input, s.core, a)
    requires r.core == P.Apply(cfg, s.core, a) && Coherent(r) && Survives(cfg, s, r) && KeepsList(s, r)
    requires Keeps(cfg, s, r)
    ensures Does(cfg, input, s, r)
  {
    hide P.Inv, P.Enabled, P.Apply, P.Reaches, P.Unforged, Coherent, Keeps, Survives, ListOK;
    P.StepKeepsInv(cfg, input, s.core, a, r.core);
    P.StepReaches(cfg, input, s.core, a);
  }

  lemma RemembersBoth(s: State, t: State, r: State)
    requires Remembers(s, t) && Remembers(t, r) && P.Evolves(s.core, t.core) && P.Evolves(t.core, r.core)
    ensures Remembers(s, r)
  {
    hide Heard, P.LockKept, P.Settled;
  }

  // A step after others, when all of them together answer a request only after its approval.
  lemma ThenStep(cfg: Config, input: set<Payload>, s: State, t: State, a: P.Act, r: State)
    requires Ready(cfg, input, s) && Does(cfg, input, s, t) && P.Enabled(cfg, input, t.core, a)
    requires r.core == P.Apply(cfg, t.core, a) && Coherent(r) && Survives(cfg, t, r) && KeepsList(t, r)
    requires t.core.height == r.core.height && Vouches(cfg, s, r) && Remembers(t, r) && SparesSigned(cfg, t, r)
    ensures Does(cfg, input, s, r)
  {
    hide P.Inv, P.Enabled, P.Apply, P.Reaches, P.Unforged, Coherent, Survives, ListOK, P.LockKept, P.Settled;
    hide P.EvidenceKept, Vouches, Heard;
    hide SlotsSpared;
    P.StepKeepsInv(cfg, input, t.core, a, r.core);
    P.StepReaches(cfg, input, t.core, a);
    P.ReachesKeeps(cfg, input, s.core, t.core);
    P.ReachesKeeps(cfg, input, t.core, r.core);
    SurvivesBoth(cfg, s, t, r);
    RemembersBoth(s, t, r);
    if r.core.height == s.core.height {
      SparedBoth(cfg, t.core, r.core, s.core.commits, t.core.commits, r.core.commits);
      SparedBoth(cfg, t.core, r.core, s.core.preCommits, t.core.preCommits, r.core.preCommits);
    }
    P.ReachesTransitive(cfg, input, s.core, t.core, r.core);
  }

  lemma Stutter(cfg: Config, input: set<Payload>, s: State, r: State)
    requires Ready(cfg, input, s) && r.core == s.core && Coherent(r) && Survives(cfg, s, r) && KeepsList(s, r)
    requires Keeps(cfg, s, r)
    ensures Does(cfg, input, s, r)
  {
    hide P.Inv, P.Reaches, P.Unforged, Coherent, Keeps, Survives, ListOK;
    P.StutterReaches(cfg, input, s.core);
  }

  // Nothing is broadcast, offered or handled.
  lemma IsQuiet(cfg: Config, s: State, r: State)
    requires r.core.sent == s.core.sent && r.core.height == s.core.height && r.core.view == s.core.view
    requires P.Submap(s.core.commits, r.core.commits) && P.Submap(s.core.preCommits, r.core.preCommits)
    requires r.rest.lastSeen == s.rest.lastSeen && r.rest.handled == s.rest.handled
    requires r.rest.offered == s.rest.offered && r.rest.crashed == s.rest.crashed && s.rest.calls <= r.rest.calls
    ensures Survives(cfg, s, r) && Keeps(cfg, s, r)
  {
    hide Refuses, IsProposal, Approved;
  }

  // Coherence looks at the proposal, the caches, the view and what was delivered.
  lemma CoherenceCarries(s: State, r: State)
    requires Coherent(s)
    requires r.rest == s.rest.(calls := r.rest.calls, offered := r.rest.offered, crashed := r.rest.crashed)
    requires r.core.height == s.core.height && r.core.view == s.core.view && r.core.primary == s.core.primary
    requires r.core.preps == s.core.preps && r.core.delivered == s.core.delivered
    requires r.core.blockProcessed ==> s.core.blockProcessed || HasAllTransactions(s)
    ensures Coherent(r)
  {
  }

  // ---- headers and blocks ----

  // Coherence of what is built from the proposal.
  lemma BuiltIsCoherent(s: State, r: State)
    requires Coherent(s) && BlocksOK(r) && Builds(s, r)
    ensures Coherent(r)
  {
    hide BlocksOK;
  }

  lemma HeaderIsCached(cfg: Config, s: State)
    requires BlocksOK(s)
    ensures BlocksOK(MakeHeader(cfg, s))
  {
    hide AntiMEV;
  }

  lemma BlockIsCached(cfg: Config, s: State)
    requires BlocksOK(s)
    ensures BlocksOK(CreateBlock(cfg, s))
  {
    hide MakeHeader;
    HeaderIsCached(cfg, s);
  }

  lemma PreBlockIsCached(s: State)
    requires BlocksOK(s)
    ensures BlocksOK(CreatePreBlock(s))
  {
  }

  lemma HeadersAreCoherent(cfg: Config, s: State)
    requires Coherent(s)
    ensures Coherent(MakeHeader(cfg, s)) && Coherent(CreatePreBlock(s)) && Coherent(CreateBlock(cfg, s))
  {
    hide ProposalOK, BlocksOK, MailOK, TransactionsOK, CompleteOK;
    HeaderIsCached(cfg, s);
    BlockIsCached(cfg, s);
    PreBlockIsCached(s);
    BuiltIsCoherent(s, MakeHeader(cfg, s));
    BuiltIsCoherent(s, CreatePreBlock(s));
    BuiltIsCoherent(s, CreateBlock(cfg, s));
  }

  lemma HeadersDo(cfg: Config, input: set<Payload>, s: State)
    requires Ready(cfg, input, s)
    ensures Does(cfg, input, s, MakeHeader(cfg, s))
    ensures Does(cfg, input, s, CreatePreBlock(s))
    ensures Does(cfg, input, s, CreateBlock(cfg, s))
    ensures Ready(cfg, input, MakeHeader(cfg, s)) && Ready(cfg, input, CreatePreBlock(s))
    ensures Ready(cfg, input, CreateBlock(cfg, s))
  {
    hide P.Inv, P.Unforged, P.Reaches, Does, Coherent, MakeHeader, CreatePreBlock, CreateBlock;
    HeadersAreCoherent(cfg, s);
    Stutter(cfg, input, s, MakeHeader(cfg, s));
    Stutter(cfg, input, s, CreatePreBlock(s));
    Stutter(cfg, input, s, CreateBlock(cfg, s));
  }

  // ---- recovery ----

  lemma RecoveryMessageDoes(cfg: Config, input: set<Payload>, s: State)
    requires Ready(cfg, input, s) && !WatchOnly(cfg, s.core)
    ensures Does(cfg, input, s, SendRecoveryMessage(cfg, s))
  {
    hide P.Inv, P.Unforged, P.Reaches, Does, RecoveryItems;
    var p := Own(s.core, Recovery(RecoveryItems(cfg, s.core)));
    Step(cfg, input, s, P.SendRecovery(p), SendRecoveryMessage(cfg, s));
  }

  lemma {:induction false} MissingTxOnly(cfg: Config, s: State, hashes: seq<Hash>)
    ensures var r := ProcessMissingTx(cfg, s, hashes);
      && r == s.(rest := s.rest.(transactions := r.rest.transactions, missing := r.rest.missing, calls := r.rest.calls))
      && (forall h :: h in r.rest.transactions ==> h in s.rest.transactions || h in hashes)
      && (forall h :: h in r.rest.missing ==> h in s.rest.missing || h in hashes)
      && s.rest.calls <= r.rest.calls
      && s.rest.transactions <= r.rest.transactions && (forall h :: h in s.rest.missing ==> h in r.rest.missing)
      && Accounted(hashes, r.rest.transactions, r.rest.missing)
    decreases hashes
  {
    if hashes != [] {
      var h := hashes[0];
      var s1 :=
        if h in s.rest.transactions then s
        else if cfg.getTx(s.rest.calls, h) then
          Tick(s).(rest := Tick(s).rest.(transactions := s.rest.transactions + {h}))
        else
          Tick(s).(rest := Tick(s).rest.(missing := s.rest.missing + [h]));
      MissingTxOnly(cfg, s1, hashes[1..]);
      assert forall x :: x in hashes[1..] ==> x in hashes;
    }
  }

  lemma RecoveryRequestDoes(cfg: Config, input: set<Payload>, s: State)
    requires Ready(cfg, input, s) && !WatchOnly(cfg, s.core)
    ensures Does(cfg, input, s, SendRecoveryRequest(cfg, s))
  {
    hide P.Inv, P.Unforged, P.Reaches, Does, ProcessMissingTx;
    var t := if RequestKnown(s.core) && !HasAllTransactions(s) then ProcessMissingTx(cfg, s, s.rest.txs) else s;
    MissingTxOnly(cfg, s, s.rest.txs);
    Step(cfg, input, s, P.SendRecovery(Own(s.core, RecoveryRequest)), SendRecoveryRequest(cfg, s));
  }

  lemma OnRecoveryRequestDoes(cfg: Config, input: set<Payload>, s: State, msg: Payload)
    requires Ready(cfg, input, s)
    ensures Does(cfg, input, s, OnRecoveryRequest(cfg, s, msg))
  {
    hide P.Inv, P.Unforged, P.Reaches, Does, SendRecoveryMessage, Answers;
    Stutter(cfg, input, s, s);
    if !WatchOnly(cfg, s.core) {
      RecoveryMessageDoes(cfg, input, s);
    }
  }

  // ---- re-verification ----

  lemma VerifyPreCommitsDoes(cfg: Config, input: set<Payload>, s: State)
    requires Ready(cfg, input, s) && !s.core.blockProcessed
    ensures Does(cfg, input, s, VerifyPreCommits(s))
  {
    hide P.Unforged, P.Reaches, P.History, Does, MailOK, TransactionsOK, P.MatchOK, P.ViewsOK, P.WatchOK, P.Remembered;
    Stutter(cfg, input, s, s);
    HeadersDo(cfg, input, s);
    var t := CreatePreBlock(s);
    if HasAllTransactions(s) && AnyInView(s.core.preCommits, s.core.n, s.core.view) && t.rest.preBlock.Some? {
      var slots := Genuine(t.core.preCommits, t.core.n, t.core.view, t.rest.preBlock.value);
      CoherenceCarries(t, VerifyPreCommits(s));
      Step(cfg, input, s, P.KeepPreCommits(slots), VerifyPreCommits(s));
    }
  }

  lemma VerifyCommitsDo(cfg: Config, input: set<Payload>, s: State)
    requires Ready(cfg, input, s) && !s.core.blockProcessed
    ensures Does(cfg, input, s, VerifyCommits(cfg, s))
  {
    hide P.Unforged, P.Reaches, P.History, Does, MailOK, TransactionsOK, P.MatchOK, P.ViewsOK, P.WatchOK, P.Remembered;
    Stutter(cfg, input, s, s);
    HeadersDo(cfg, input, s);
    var t := MakeHeader(cfg, s);
    if AnyInView(s.core.commits, s.core.n, s.core.view) && t.rest.header.Some? {
      var slots := Genuine(t.core.commits, t.core.n, t.core.view, t.rest.header.value);
      CoherenceCarries(t, VerifyCommits(cfg, s));
      Step(cfg, input, s, P.KeepCommits(slots), VerifyCommits(cfg, s));
    }
  }

  // ---- quorum decisions ----

  // The cached header or block of a state is the one proposed in its view.
  lemma CachedIsProposed(s: State, b: Option<Header>)
    requires ProposalOK(s) && Cached(s, b) && b.Some? && P.PrepsOK(s.core)
    ensures P.Proposed(s.core) && b.value == P.ProposedHeader(s.core)
  {
  }

  // There is a block to process.
  ghost predicate HeaderReady(cfg: Config, s: State) {
    || s.rest.header.Some?
    || (RequestKnown(s.core) && (AntiMEV(cfg, s.core.height) ==> s.core.preBlockProcessed))
  }

  lemma BlockExists(cfg: Config, s: State)
    requires HeaderReady(cfg, s)
    ensures CreateBlock(cfg, s).rest.block.Some?
  {
  }

  lemma BuiltHeight(s: State)
    requires Coherent(s) && s.rest.block.Some?
    ensures s.rest.block.value.height == s.core.height
  {
  }

  lemma PrepsAreOK(cfg: Config, c: Core)
    requires P.Inv(cfg, c)
    ensures P.PrepsOK(c)
  {
  }

  lemma ProposalIsBuilt(cfg: Config, s: State, t: State)
    requires Coherent(t) && P.PrepsOK(s.core) && t == CreateBlock(cfg, s) && t.rest.block.Some?
    ensures P.Proposed(s.core) && t.rest.block.value == P.ProposedHeader(s.core)
    ensures HasAllTransactions(t) == HasAllTransactions(s)
  {
    hide MailOK, TransactionsOK, P.PrepsOK;
    CachedIsProposed(t, t.rest.block);
  }

  // One block is offered, and the process is dead if the ledger refuses it and that is fatal.
  lemma OneOffer(cfg: Config, s: State, t: State, r: State)
    requires P.Inv(cfg, s.core) && Coherent(t) && t == CreateBlock(cfg, s) && t.rest.block.Some?
    requires var o := Offered(t, t.rest.block.value);
      r.rest == if Refuses(cfg, o.rest.offered[|t.rest.offered|]) then Crash(o).rest else o.rest
    requires r.core.sent == s.core.sent && r.core.delivered == s.core.delivered && r.core.height == s.core.height
    ensures Survives(cfg, s, r)
  {
    hide MailOK, TransactionsOK, P.History, P.MatchOK, P.ViewsOK, P.WatchOK, P.CommitsOK, P.LockOK, P.Remembered;
    hide CreateBlock, HasAllTransactions;
    ProposalIsBuilt(cfg, s, t);
    var req := s.core.preps[s.core.primary];
    assert P.Known(r.core, req) && P.FromPrimary(cfg, req);
  }

  lemma AcceptDoes(cfg: Config, input: set<Payload>, s: State, t: State, r: State)
    requires Ready(cfg, input, s) && !s.core.blockProcessed && Coherent(t) && HasAllTransactions(s)
    requires t == CreateBlock(cfg, s) && t.rest.block.Some?
    requires |Voters(s.core.commits, s.core.n, InView(s.core.view))| >= M(s.core.n)
    requires r == Offered(t, t.rest.block.value).(core := P.Apply(cfg, s.core, P.Accept(t.rest.block.value)))
    requires cfg.processBlock(t.rest.calls, t.rest.block.value)
    ensures Does(cfg, input, s, r)
  {
    hide P.Unforged, P.Reaches, Does, Voters, P.Inv, CreateBlock, Coherent, HasAllTransactions, P.Proposed;
    assert P.PrepsOK(s.core) by {
      PrepsAreOK(cfg, s.core);
    }
    ProposalIsBuilt(cfg, s, t);
    CoherenceCarries(t, r);
    OneOffer(cfg, s, t, r);
    Step(cfg, input, s, P.Accept(t.rest.block.value), r);
  }

  lemma CheckCommitDoes(cfg: Config, input: set<Payload>, s: State)
    requires Ready(cfg, input, s) && !s.core.blockProcessed && HeaderReady(cfg, s)
    ensures Does(cfg, input, s, CheckCommit(cfg, s))
  {
    hide P.Unforged, P.Reaches, P.Inv, Does, Voters, CreateBlock, Coherent, HasAllTransactions, HeaderReady;
    var r, t := CheckCommit(cfg, s), CreateBlock(cfg, s);
    if !HasAllTransactions(s) || |Voters(s.core.commits, s.core.n, InView(s.core.view))| < M(s.core.n) {
      Stutter(cfg, input, s, s);
      return;
    }
    BlockExists(cfg, s);
    HeadersAreCoherent(cfg, s);
    var h := t.rest.block.value;
    if cfg.processBlock(t.rest.calls, h) {
      AcceptDoes(cfg, input, s, t, r);
    } else {
      CoherenceCarries(t, r);
      BuiltHeight(t);
      OneOffer(cfg, s, t, r);
      Stutter(cfg, input, s, r);
    }
  }

  ghost predicate MaySign(cfg: Config, c: Core, quorum: Slots) {
    P.Proposed(c) && (WatchOnly(cfg, c) ==> c.n == 1) && |Voters(quorum, c.n, InView(c.view))| >= M(c.n)
  }

  lemma OwnSlotIsSent(cfg: Config, c: Core, p: Payload)
    requires P.Inv(cfg, c) && P.SlotOK(c, c.me, p)
    ensures p in c.sent
  {
  }

  lemma ResendDoes(cfg: Config, input: set<Payload>, s: State, p: Payload, r: State)
    requires Ready(cfg, input, s) && P.SlotOK(s.core, s.core.me, p) && p.IsSignature()
    requires r == s.(core := s.core.(sent := s.core.sent + [p]))
    ensures Does(cfg, input, s, r)
  {
    hide P.Unforged, P.Reaches, P.Epoch, Does, Coherent;
    assert p in s.core.sent by {
      OwnSlotIsSent(cfg, s.core, p);
    }
    CoherenceCarries(s, r);
    Step(cfg, input, s, P.Resend(p), r);
  }

  lemma CachedHeaderIsProposed(cfg: Config, input: set<Payload>, s: State, b: Option<Header>)
    requires Ready(cfg, input, s) && b.Some? && (b == s.rest.header || b == s.rest.preBlock)
    ensures P.Proposed(s.core) && b.value == P.ProposedHeader(s.core)
  {
    hide P.History, MailOK, TransactionsOK, P.Unforged, P.MatchOK, P.CommitsOK, P.ViewsOK, P.LockOK, P.Remembered;
    CachedIsProposed(s, b);
  }

  lemma SignDoes(cfg: Config, input: set<Payload>, s: State, t: State, a: P.Act, r: State)
    requires Ready(cfg, input, s) && Coherent(t) && Builds(s, t)
    requires (a.SignCommit? || a.SignPreCommit?) && a.p.IsSignature() && P.Enabled(cfg, input, s.core, a)
    requires s.core.me !in if a.SignCommit? then s.core.commits else s.core.preCommits
    requires r == Tick(t).(core := P.Apply(cfg, s.core, a))
    ensures Does(cfg, input, s, r)
  {
    hide P.Inv, P.Unforged, P.Reaches, P.Enabled, Does, Coherent;
    CoherenceCarries(t, r);
    Step(cfg, input, s, a, r);
  }

  lemma SendCommitDoes(cfg: Config, input: set<Payload>, s: State)
    requires Ready(cfg, input, s) && !s.core.blockProcessed && s.core.me >= 0
    requires if AntiMEV(cfg, s.core.height)
             then s.core.me in s.core.preCommits && MaySign(cfg, s.core, s.core.preCommits)
             else MaySign(cfg, s.core, s.core.preps)
    ensures Does(cfg, input, s, SendCommit(cfg, s)) && !SendCommit(cfg, s).core.blockProcessed
  {
    hide P.Unforged, P.Reaches, Does, Voters, P.History, MakeHeader, BlocksOK, ProposalOK, TransactionsOK, MailOK;
    hide Discredited;
    hide P.Proposed, P.PrepsOK, P.MatchOK, P.ViewsOK, P.WatchOK, P.LockOK, P.Remembered;
    var r, t, me := SendCommit(cfg, s), MakeHeader(cfg, s), s.core.me;
    HeadersDo(cfg, input, s);
    if me in s.core.commits {
      ResendDoes(cfg, input, s, s.core.commits[me], r);
    } else if t.rest.header.None? || !cfg.sign(t.rest.calls) {
      CoherenceCarries(t, r);
      Stutter(cfg, input, s, r);
    } else {
      CachedHeaderIsProposed(cfg, input, t, t.rest.header);
      SignDoes(cfg, input, s, t, P.SignCommit(Own(s.core, Commit(Signature(me, t.rest.header.value)))), r);
    }
  }

  lemma SendPreCommitDoes(cfg: Config, input: set<Payload>, s: State)
    requires Ready(cfg, input, s) && !s.core.blockProcessed && s.core.me >= 0 && AntiMEV(cfg, s.core.height)
    requires MaySign(cfg, s.core, s.core.preps)
    ensures Does(cfg, input, s, SendPreCommit(cfg, s)) && !SendPreCommit(cfg, s).core.blockProcessed
  {
    hide P.Unforged, P.Reaches, Does, Voters, P.History, CreatePreBlock, BlocksOK, ProposalOK, TransactionsOK, MailOK;
    hide P.Proposed, P.PrepsOK, P.MatchOK, P.ViewsOK, P.WatchOK, P.LockOK, P.Remembered;
    var r, t, me := SendPreCommit(cfg, s), CreatePreBlock(s), s.core.me;
    HeadersDo(cfg, input, s);
    if me in s.core.preCommits {
      ResendDoes(cfg, input, s, s.core.preCommits[me], r);
    } else if t.rest.preBlock.None? || !cfg.sign(t.rest.calls) {
      CoherenceCarries(t, r);
      Stutter(cfg, input, s, r);
    } else {
      CachedHeaderIsProposed(cfg, input, t, t.rest.preBlock);
      SignDoes(cfg, input, s, t, P.SignPreCommit(Own(s.core, PreCommit(Signature(me, t.rest.preBlock.value)))), r);
    }
  }

  lemma SendCommitKeeps(cfg: Config, s: State)
    requires s.core.me >= 0
    ensures var r := SendCommit(cfg, s); r.core == s.core.(commits := r.core.commits, sent := r.core.sent)
  {
  }

  lemma SendPreCommitKeeps(cfg: Config, s: State)
    requires s.core.me >= 0
    ensures var r := SendPreCommit(cfg, s); r.core == s.core.(preCommits := r.core.preCommits, sent := r.core.sent)
  {
  }

  lemma PreBlockExists(s: State)
    requires RequestKnown(s.core)
    ensures CreatePreBlock(s).rest.preBlock.Some?
  {
  }

  // Once the own PreCommit is out and M of them are in, the Commit follows.
  lemma ConfirmDoes(cfg: Config, input: set<Payload>, s: State)
    requires Ready(cfg, input, s) && !s.core.blockProcessed && AntiMEV(cfg, s.core.height)
    requires PreCommitSent(cfg, s.core) && s.core.preBlockProcessed
    requires |Voters(s.core.preCommits, s.core.n, InView(s.core.view))| >= M(s.core.n)
    ensures Does(cfg, input, s, CheckCommit(cfg, SendCommit(cfg, VerifyCommits(cfg, s))))
  {
    hide P.Unforged, P.Reaches, Voters, P.History, SendCommit, CheckCommit, MakeHeader, Genuine;
    VerifyCommitsDo(cfg, input, s);
    var s1 := VerifyCommits(cfg, s);
    SendCommitDoes(cfg, input, s1);
    SendCommitKeeps(cfg, s1);
    var s2 := SendCommit(cfg, s1);
    CheckCommitDoes(cfg, input, s2);
    Then(cfg, input, s1, s2, CheckCommit(cfg, s2));
    Then(cfg, input, s, s1, CheckCommit(cfg, s2));
  }

  lemma PreBlockIsProposed(s: State)
    requires Coherent(s) && P.PrepsOK(s.core) && s.rest.preBlock.Some?
    ensures P.Proposed(s.core) && s.rest.preBlock.value == P.ProposedHeader(s.core)
  {
    hide MailOK, TransactionsOK, P.PrepsOK;
    CachedIsProposed(s, s.rest.preBlock);
  }

  lemma MarkPreBlockDoes(cfg: Config, input: set<Payload>, s: State)
    requires Ready(cfg, input, s) && !s.core.blockProcessed && !s.core.preBlockProcessed
    requires AntiMEV(cfg, s.core.height) && s.rest.preBlock.Some?
    requires |Voters(s.core.preCommits, s.core.n, InView(s.core.view))| >= M(s.core.n)
    ensures Does(cfg, input, s, MarkPreBlock(Tick(s)))
  {
    hide P.Unforged, P.Reaches, Voters, P.History, Keeps, Survives;
    hide P.MatchOK, P.CommitsOK, P.ViewsOK, P.WatchOK, P.LockOK, P.Remembered, P.PrepsOK;
    var r := MarkPreBlock(Tick(s));
    CoherenceCarries(s, r);
    PreBlockIsProposed(s);
    IsQuiet(cfg, s, r);
    Step(cfg, input, s, P.MarkPreBlock(s.rest.preBlock.value), r);
  }

  lemma ProcessPreBlockDoes(cfg: Config, input: set<Payload>, s: State, s1: State)
    requires Ready(cfg, input, s) && !s.core.blockProcessed && AntiMEV(cfg, s.core.height)
    requires HasAllTransactions(s) && |Voters(s.core.preCommits, s.core.n, InView(s.core.view))| >= M(s.core.n)
    requires s1 == CreatePreBlock(s) && s1.rest.preBlock.Some?
    requires Ready(cfg, input, s1) && Does(cfg, input, s, s1)
    ensures Does(cfg, input, s, CheckPreCommit(cfg, s))
  {
    hide P.Unforged, P.Reaches, Voters, P.Inv, VerifyCommits, SendCommit, CheckCommit, CreatePreBlock, Coherent;
    hide Keeps, Survives;
    var r := CheckPreCommit(cfg, s);
    var ok := s1.core.preBlockProcessed || cfg.processPreBlock(s1.rest.calls, s1.rest.preBlock.value);
    var s2 := if s1.core.preBlockProcessed then s1 else Tick(s1);
    if !ok {
      CoherenceCarries(s1, r);
      IsQuiet(cfg, s1, r);
      Stutter(cfg, input, s1, r);
      Then(cfg, input, s, s1, r);
      return;
    }
    var s3 := if s1.core.preBlockProcessed then s2 else MarkPreBlock(s2);
    if !s1.core.preBlockProcessed {
      MarkPreBlockDoes(cfg, input, s1);
      Then(cfg, input, s, s1, s3);
    }
    if PreCommitSent(cfg, s3.core) {
      ConfirmDoes(cfg, input, s3);
      Then(cfg, input, s, s3, r);
    }
  }

  lemma CheckPreCommitDoes(cfg: Config, input: set<Payload>, s: State)
    requires Ready(cfg, input, s) && !s.core.blockProcessed && AntiMEV(cfg, s.core.height) && RequestKnown(s.core)
    ensures Does(cfg, input, s, CheckPreCommit(cfg, s))
  {
    hide P.Unforged, P.Reaches, Does, Voters, P.History, VerifyCommits, SendCommit, CheckCommit, CreatePreBlock;
    var r := CheckPreCommit(cfg, s);
    Stutter(cfg, input, s, s);
    HeadersDo(cfg, input, s);
    var s1 := CreatePreBlock(s);
    if HasAllTransactions(s) && |Voters(s.core.preCommits, s.core.n, InView(s.core.view))| >= M(s.core.n) {
      PreBlockExists(s);
      ProcessPreBlockDoes(cfg, input, s, s1);
    }
  }

  lemma CheckPrepareDoes(cfg: Config, input: set<Payload>, s: State)
    requires Ready(cfg, input, s) && !s.core.blockProcessed && s.core.me >= 0
    requires WatchOnly(cfg, s.core) ==> s.core.preps.Keys <= {s.core.me}
    ensures Does(cfg, input, s, CheckPrepare(cfg, s))
  {
    hide P.Unforged, P.Reaches, P.History, SendCommit, CheckCommit, SendPreCommit, CheckPreCommit, Coherent;
    var c := s.core;
    Stutter(cfg, input, s, s);
    if HasAllTransactions(s) && HasRequest(c.preps, c.n) && |Voters(c.preps, c.n, InView(c.view))| >= M(c.n) {
      if WatchOnly(cfg, c) {
        SubsetSize(Voters(c.preps, c.n, InView(c.view)), {c.me});
      }
      assert MaySign(cfg, c, c.preps);
      if AntiMEV(cfg, c.height) {
        SendPreCommitDoes(cfg, input, s);
        SendPreCommitKeeps(cfg, s);
        CheckPreCommitDoes(cfg, input, SendPreCommit(cfg, s));
        Then(cfg, input, s, SendPreCommit(cfg, s), CheckPrepare(cfg, s));
      } else {
        SendCommitDoes(cfg, input, s);
        SendCommitKeeps(cfg, s);
        CheckCommitDoes(cfg, input, SendCommit(cfg, s));
        Then(cfg, input, s, SendCommit(cfg, s), CheckPrepare(cfg, s));
      }
    }
  }

  // ---- preparations ----

  lemma AnswerDoes(cfg: Config, input: set<Payload>, s: State, t: State, p: Payload, r: State)
    requires p.body.PrepareResponse? && Approved(cfg, s.rest.calls, t.rest.calls, p.body.preparation)
    requires r == t.(core := t.core.(preps := t.core.preps[t.core.me := p], sent := t.core.sent + [p])) && Coherent(r)
    requires Ready(cfg, input, s) && Does(cfg, input, s, t) && t.core.height == s.core.height
    requires P.Enabled(cfg, input, t.core, P.Answer(p))
    ensures Does(cfg, input, s, r)
  {
    hide P.Inv, P.Unforged, P.Reaches, Coherent, Approved, Refuses, IsProposal, P.LockKept, P.Settled;
    P.ReachesKeeps(cfg, input, s.core, t.core);
    ThenStep(cfg, input, s, t, P.Answer(p), r);
  }

  // A node answers a request whose block the application has approved since s.
  lemma RespondDoes(cfg: Config, input: set<Payload>, s: State, t: State)
    requires Ready(cfg, input, s) && Does(cfg, input, s, t) && t.core.height == s.core.height
    requires !t.core.blockProcessed && !WatchOnly(cfg, t.core)
    requires !IsPrimary(t.core) && RequestKnown(t.core) && t.core.me !in t.core.preps
    requires Approved(cfg, s.rest.calls, t.rest.calls, t.core.preps[t.core.primary])
    ensures Does(cfg, input, s, Respond(cfg, t))
  {
    hide P.Unforged, P.Reaches, P.History, CheckPrepare, OffersProposals, Refused, Heard;
    hide P.MatchOK, P.CommitsOK, P.ViewsOK, P.WatchOK, P.LockOK, P.Remembered;
    var p := Own(t.core, PrepareResponse(t.core.preps[t.core.primary]));
    var u := SendPrepareResponse(t);
    AnswerDoes(cfg, input, s, t, p, u);
    CheckPrepareDoes(cfg, input, u);
    Then(cfg, input, s, u, Respond(cfg, t));
  }

  // Without the request there is no header to check anything against.
  lemma NothingToVerify(cfg: Config, s: State)
    requires !RequestKnown(s.core) && s.rest.preHeader == s.rest.preBlock == s.rest.header == None
    ensures VerifyPreCommits(s) == s && VerifyCommits(cfg, s) == s
  {
    hide HasAllTransactions, AnyInView, Genuine, AntiMEV;
  }

  /** What arrived before the request is not checked when the request comes: the request reaches its slot only
      afterwards, and without it there is no header to check against. */
  lemma EarlyCommitsStay(cfg: Config, s: State, msg: Payload)
    requires Coherent(s) && s.core.primary !in s.core.preps && msg.body.PrepareRequest?
    ensures AdoptRequest(cfg, s, msg).core
      == s.core.(preps := Answering(s.core.preps, s.core.n, msg)[msg.from := msg])
  {
    hide ProcessMissingTx, HasAllTransactions, VerifyPreCommits, VerifyCommits, MailOK, AntiMEV, TransactionsOK;
    hide CompleteOK, Filed;
    var s1 := s.(rest := s.rest.(timestamp := msg.body.timestamp, nonce := msg.body.nonce, txs := msg.body.txs));
    MissingTxOnly(cfg, s1, msg.body.txs);
    var s2 := ProcessMissingTx(cfg, s1, msg.body.txs);
    NothingToVerify(cfg, s2.(core := s2.core.(preps := Answering(s2.core.preps, s2.core.n, msg))));
  }

  lemma AdoptedRest(cfg: Config, s: State, msg: Payload)
    requires Coherent(s) && s.core.primary !in s.core.preps && msg.body.PrepareRequest?
    ensures var r := AdoptRequest(cfg, s, msg).rest;
      && r == s.rest.(timestamp := msg.body.timestamp, nonce := msg.body.nonce, txs := msg.body.txs,
                      transactions := r.transactions, missing := r.missing, calls := r.calls)
      && (forall h :: h in r.transactions || h in r.missing ==> h in msg.body.txs)
      && Accounted(r.txs, r.transactions, r.missing)
  {
    hide ProcessMissingTx, HasAllTransactions, AnyInView, Genuine, MailOK;
    var s1 := s.(rest := s.rest.(timestamp := msg.body.timestamp, nonce := msg.body.nonce, txs := msg.body.txs));
    MissingTxOnly(cfg, s1, msg.body.txs);
  }

  // A delivered payload of the current view that fits its handler.
  ghost predicate Arrived(s: State, msg: Payload) {
    msg in s.core.delivered && msg.from < s.core.n && msg.height == s.core.height && !s.core.blockProcessed
  }

  lemma AdoptDoes(cfg: Config, input: set<Payload>, s: State, msg: Payload)
    requires Ready(cfg, input, s) && Arrived(s, msg) && msg.body.PrepareRequest?
    requires s.core.primary !in s.core.preps && msg.view == s.core.view && msg.from == s.core.primary
    ensures Does(cfg, input, s, AdoptRequest(cfg, s, msg))
  {
    hide P.Inv, P.Unforged, P.Reaches, Does, AdoptRequest;
    var r := AdoptRequest(cfg, s, msg);
    EarlyCommitsStay(cfg, s, msg);
    AdoptedRest(cfg, s, msg);
    Step(cfg, input, s, P.StoreRequest(msg), r);
  }

  lemma OnPrepareResponseDoes(cfg: Config, input: set<Payload>, s: State, msg: Payload)
    requires Ready(cfg, input, s) && Arrived(s, msg) && msg.body.PrepareResponse?
    ensures Does(cfg, input, s, OnPrepareResponse(cfg, s, msg))
  {
    hide P.Unforged, P.Reaches, P.History, CheckPrepare, NodeState.MoreThanFNodesCommittedOrLost, GetPrimaryIndex;
    hide P.MatchOK, P.CommitsOK, P.ViewsOK, P.WatchOK, P.LockOK, P.Remembered, P.PrepsOK;
    var r, c := OnPrepareResponse(cfg, s, msg), s.core;
    if r == s || r == Tick(s) {
      CoherenceCarries(s, r);
      Stutter(cfg, input, s, r);
      return;
    }
    var t := Tick(s).(core := c.(preps := c.preps[msg.from := msg]));
    Step(cfg, input, s, P.StoreResponse(msg), t);
    if r != t {
      CheckPrepareDoes(cfg, input, t);
      Then(cfg, input, s, t, r);
    }
  }

  lemma ProposeDoes(cfg: Config, input: set<Payload>, s: State)
    requires Ready(cfg, input, s) && !s.core.blockProcessed && IsPrimary(s.core) && !RequestKnown(s.core)
    requires WatchOnly(cfg, s.core) ==> s.core.preps == map[]
    ensures Does(cfg, input, s, SendFilledRequest(cfg, s))
  {
    hide P.Inv, P.Unforged, P.Reaches, CheckPrepare;
    var s1 := Fill(cfg, s);
    var p := Own(s1.core, PrepareRequest(s1.rest.timestamp, s1.rest.nonce, s1.rest.txs));
    var t := s1.(core := s1.core.(preps := s1.core.preps[s1.core.me := p], sent := s1.core.sent + [p]),
                 rest := s1.rest.(txSubscription := false));
    Step(cfg, input, s, P.Propose(p), t);
    CheckPrepareDoes(cfg, input, t);
    Then(cfg, input, s, t, SendFilledRequest(cfg, s));
  }

  lemma SendPrepareRequestDoes(cfg: Config, input: set<Payload>, s: State, force: bool)
    requires Ready(cfg, input, s) && !s.core.blockProcessed && IsPrimary(s.core) && !RequestKnown(s.core)
    requires WatchOnly(cfg, s.core) ==> s.core.preps == map[]
    ensures Does(cfg, input, s, SendPrepareRequest(cfg, s, force))
  {
    hide P.Inv, P.Unforged, P.Reaches, SendFilledRequest, CanFill;
    var s1 := Tick(s).(rest := Tick(s).rest.(txSubscription := true));
    Stutter(cfg, input, s, s1);
    Stutter(cfg, input, s, Tick(s1));
    if CanFill(cfg, s, force) {
      ProposeDoes(cfg, input, s);
    } else if CanFill(cfg, s1, force) {
      ProposeDoes(cfg, input, s1);
      Then(cfg, input, s, s1, SendFilledRequest(cfg, s1));
    }
  }

  // ---- commits ----

  lemma BuiltFromRequest(s: State)
    requires Coherent(s)
    ensures s.rest.preBlock.Some? ==> RequestKnown(s.core)
  {
    hide MailOK, TransactionsOK;
  }

  lemma OnPreCommitDoes(cfg: Config, input: set<Payload>, s: State, msg: Payload)
    requires Ready(cfg, input, s) && Arrived(s, msg) && msg.body.PreCommit? && msg.view <= s.core.view
    requires AntiMEV(cfg, s.core.height)
    ensures Does(cfg, input, s, OnPreCommit(cfg, s, msg))
  {
    hide P.Inv, P.Unforged, P.Reaches, CheckPreCommit, CreatePreBlock, IsProposal, Refuses, Accounted;
    hide Coherent, Verifies, HasAllTransactions, Keeps, Survives;
    var r, c := OnPreCommit(cfg, s, msg), s.core;
    var s1 := s.(core := c.(preCommits := c.preCommits[msg.from := msg]));
    if msg.from in c.preCommits {
      IsQuiet(cfg, s, s);
      Stutter(cfg, input, s, s);
      return;
    }
    IsQuiet(cfg, s, s1);
    IsQuiet(cfg, s1, Tick(s1));
    CoherenceCarries(s, s1);
    CoherenceCarries(s, Tick(s1));
    Step(cfg, input, s, P.StorePreCommit(msg), s1);
    Stutter(cfg, input, s1, Tick(s1));
    Then(cfg, input, s, s1, Tick(s1));
    HeadersDo(cfg, input, Tick(s1));
    var s2 := CreatePreBlock(Tick(s1));
    Then(cfg, input, s, Tick(s1), s2);
    if r == s2.(core := c) || r == Tick(s) {
      CoherenceCarries(if r == Tick(s) then s else s2, r);
      IsQuiet(cfg, s, r);
      Stutter(cfg, input, s, r);
    } else if r != s1 && r != Tick(s1) && r != s2 {
      BuiltFromRequest(s2);
      CheckPreCommitDoes(cfg, input, s2);
      Then(cfg, input, s, s2, r);
    }
  }

  lemma OnCommitDoes(cfg: Config, input: set<Payload>, s: State, msg: Payload)
    requires Ready(cfg, input, s) && Arrived(s, msg) && msg.body.Commit? && msg.view <= s.core.view
    ensures Does(cfg, input, s, OnCommit(cfg, s, msg))
  {
    hide P.Inv, P.Unforged, P.Reaches, CheckCommit, MakeHeader, IsProposal, Refuses, Accounted;
    hide Coherent, Verifies, HasAllTransactions, Keeps, Survives;
    var r, c := OnCommit(cfg, s, msg), s.core;
    var s1 := s.(core := c.(commits := c.commits[msg.from := msg]));
    if msg.from in c.commits {
      IsQuiet(cfg, s, s);
      Stutter(cfg, input, s, s);
      return;
    }
    IsQuiet(cfg, s, s1);
    IsQuiet(cfg, s1, Tick(s1));
    CoherenceCarries(s, s1);
    CoherenceCarries(s, Tick(s1));
    Step(cfg, input, s, P.StoreCommit(msg), s1);
    Stutter(cfg, input, s1, Tick(s1));
    Then(cfg, input, s, s1, Tick(s1));
    HeadersDo(cfg, input, Tick(s1));
    var s2 := MakeHeader(cfg, Tick(s1));
    Then(cfg, input, s, Tick(s1), s2);
    if r == s2.(core := c) || r == Tick(s) {
      CoherenceCarries(if r == Tick(s) then s else s2, r);
      IsQuiet(cfg, s, r);
      Stutter(cfg, input, s, r);
    } else if r != s1 && r != s2 {
      CheckCommitDoes(cfg, input, s2);
      Then(cfg, input, s, s2, r);
    }
  }

  // ---- view changes ----

  // Payloads that may be handed to OnReceive: delivered before, or part of the input.
  ghost predicate Deliverable(input: set<Payload>, s: State, msgs: seq<Payload>) {
    forall m :: m in msgs ==> (m in input || m in s.core.delivered) && !m.body.Recovery?
  }

  lemma AskViewDoes(cfg: Config, input: set<Payload>, s: State, reason: Reason)
    requires Ready(cfg, input, s) && !s.core.blockProcessed && !WatchOnly(cfg, s.core) && !Locked(cfg, s.core)
    ensures Does(cfg, input, s, MakeChangeView(s, reason))
  {
    hide P.Inv, P.Unforged, P.Reaches, Does;
    var r := MakeChangeView(s, reason);
    CoherenceCarries(s, r);
    Step(cfg, input, s, P.AskView(Own(s.core, ChangeView(NextView(s.core.view), reason))), r);
  }

  lemma EnterViewDoes(cfg: Config, input: set<Payload>, s: State, view: byte)
    requires Ready(cfg, input, s) && !s.core.blockProcessed && !Locked(cfg, s.core) && view > s.core.view
    requires |Voters(s.core.changeViews, s.core.n, AsksFor(view))| >= M(s.core.n)
    ensures var r := ResetView(s, view, s.rest.lastTimestamp);
      Does(cfg, input, s, TakeMail(r)) && Deliverable(input, TakeMail(r), CachedMail(cfg, r))
  {
    hide P.Inv, P.Unforged, P.Reaches, Does, Asking, GetPrimaryIndex, Replay, Voters;
    var r := ResetView(s, view, s.rest.lastTimestamp);
    Step(cfg, input, s, P.EnterView(view), TakeMail(r));
  }

  lemma CheckChangeViewDoes(cfg: Config, input: set<Payload>, s: State, view: byte)
    requires Ready(cfg, input, s) && !s.core.blockProcessed && !Locked(cfg, s.core)
    ensures Does(cfg, input, s, CheckChangeView(cfg, s, view))
    decreases 256 - s.core.view, 0, 6, 0
  {
    hide P.Inv, P.Unforged, P.Reaches, Coherent, ResetView, CachedMail, TakeMail, ReceiveAll;
    var c := s.core;
    Stutter(cfg, input, s, s);
    if c.view < view && |Voters(c.changeViews, c.n, AsksFor(view))| >= M(c.n) {
      var s1 := s;
      if !WatchOnly(cfg, c) && c.me in c.changeViews && c.changeViews[c.me].NewView() < view {
        AskViewDoes(cfg, input, s, CVChangeAgreement);
        s1 := MakeChangeView(s, CVChangeAgreement);
        SubsetSize(Voters(c.changeViews, c.n, AsksFor(view)), Voters(s1.core.changeViews, c.n, AsksFor(view)));
      }
      EnterViewDoes(cfg, input, s1, view);
      var t := ResetView(s1, view, s1.rest.lastTimestamp);
      Then(cfg, input, s, s1, TakeMail(t));
      ReceiveAllDoes(cfg, input, TakeMail(t), CachedMail(cfg, t));
      Then(cfg, input, s, TakeMail(t), Initialize(cfg, t));
    }
  }

  lemma SendChangeViewDoes(cfg: Config, input: set<Payload>, s: State, reason: Reason)
    requires Ready(cfg, input, s) && !s.core.blockProcessed && !Locked(cfg, s.core)
    ensures Does(cfg, input, s, SendChangeView(cfg, s, reason))
    decreases 256 - s.core.view, 0, 7, 0
  {
    hide P.Inv, P.Unforged, P.Reaches, Coherent, NodeState.MoreThanFNodesCommittedOrLost, CheckChangeView;
    hide SendRecoveryRequest;
    Stutter(cfg, input, s, s);
    if WatchOnly(cfg, s.core) {
    } else if reason == CVTimeout && MoreThanFNodesCommittedOrLost(s) {
      RecoveryRequestDoes(cfg, input, s);
    } else {
      var reason' := if !HasAllTransactions(s) && reason == CVTimeout then CVTxNotFound else reason;
      var t := MakeChangeView(s, reason');
      AskViewDoes(cfg, input, s, reason');
      CheckChangeViewDoes(cfg, input, t, NextView(s.core.view));
      Then(cfg, input, s, t, SendChangeView(cfg, s, reason));
    }
  }

  lemma CreateAndCheckBlockDoes(cfg: Config, input: set<Payload>, s: State)
    requires Ready(cfg, input, s) && !s.core.blockProcessed && !Locked(cfg, s.core)
    ensures Does(cfg, input, s, CreateAndCheckBlock(cfg, s))
    ensures BlockOK(cfg, s) ==> CreateAndCheckBlock(cfg, s).core == s.core
    decreases 256 - s.core.view, 0, 8, 0
  {
    hide P.Inv, P.Unforged, P.Reaches, Coherent, CreateBlock, CreatePreBlock, SendChangeView, BlockOK;
    HeadersDo(cfg, input, s);
    var b := BuildBlock(cfg, s);
    CoherenceCarries(b, Tick(b));
    Stutter(cfg, input, b, Tick(b));
    Then(cfg, input, s, b, Tick(b));
    if !BlockOK(cfg, s) {
      SendChangeViewDoes(cfg, input, Tick(b), CVTxInvalid);
      Then(cfg, input, s, Tick(b), CreateAndCheckBlock(cfg, s));
    }
  }

  // A primary that gets its own request back has it in its slot already.
  lemma NotOwnRequest(cfg: Config, c: Core, msg: Payload)
    requires P.Inv(cfg, c) && msg in c.delivered && msg.body.PrepareRequest?
    requires msg.height == c.height && msg.view == c.view && msg.from == c.primary && c.primary !in c.preps
    ensures c.me != c.primary
  {
  }

  // What is put to the application is the block or pre-block of the known request.
  lemma BuiltIsRequested(cfg: Config, input: set<Payload>, s: State)
    requires Ready(cfg, input, s) && RequestKnown(s.core)
    ensures var t := BuildBlock(cfg, s);
      var b := if AntiMEV(cfg, s.core.height) then t.rest.preBlock else t.rest.block;
      P.Proposed(s.core) && b == Some(P.ProposedHeader(s.core)) && t.rest.calls == s.rest.calls
  {
    hide MailOK, TransactionsOK, CompleteOK, P.History, P.Unforged, P.MatchOK, P.CommitsOK, P.ViewsOK, P.WatchOK;
    hide P.LockOK, P.Remembered;
    var t := BuildBlock(cfg, s);
    HeadersAreCoherent(cfg, s);
    CachedIsProposed(t, if AntiMEV(cfg, s.core.height) then t.rest.preBlock else t.rest.block);
  }

  lemma BlockIsApproved(cfg: Config, input: set<Payload>, s: State)
    requires Ready(cfg, input, s) && RequestKnown(s.core) && BlockOK(cfg, s)
    ensures Approved(cfg, s.rest.calls, s.rest.calls + 1, s.core.preps[s.core.primary])
    ensures CreateAndCheckBlock(cfg, s).rest.calls == s.rest.calls + 1
  {
    hide P.Inv, P.Unforged, Coherent, BuildBlock, SendChangeView;
    BuiltIsRequested(cfg, input, s);
  }

  lemma OnPrepareRequestDoes(cfg: Config, input: set<Payload>, s: State, msg: Payload)
    requires Ready(cfg, input, s) && Arrived(s, msg) && msg.body.PrepareRequest?
    ensures Does(cfg, input, s, OnPrepareRequest(cfg, s, msg))
    decreases 256 - s.core.view, 0, 9, 0
  {
    hide P.Unforged, P.Reaches, Coherent, GetPrimaryIndex, BlockOK, AdoptRequest, CreateAndCheckBlock, SendChangeView;
    hide P.MatchOK, P.CommitsOK, P.ViewsOK, P.WatchOK, HasAllTransactions, P.History, Respond;
    var c, r := s.core, OnPrepareRequest(cfg, s, msg);
    if RequestKnown(c) || c.view != msg.view || msg.from != GetPrimaryIndex(c.height, c.view, c.n) {
      Stutter(cfg, input, s, s);
      return;
    }
    NotOwnRequest(cfg, c, msg);
    var s1 := Tick(s);
    CoherenceCarries(s, s1);
    Stutter(cfg, input, s, s1);
    if !cfg.verifyPayload(s.rest.calls, msg) {
      SendChangeViewDoes(cfg, input, s1, CVBlockRejectedByPolicy);
      Then(cfg, input, s, s1, r);
      return;
    }
    var s2 := AdoptRequest(cfg, s1, msg);
    AdoptDoes(cfg, input, s1, msg);
    EarlyCommitsStay(cfg, s1, msg);
    Then(cfg, input, s, s1, s2);
    if HasAllTransactions(s2) {
      CreateAndCheckBlockDoes(cfg, input, s2);
      var s3 := CreateAndCheckBlock(cfg, s2);
      Then(cfg, input, s, s2, s3);
      if BlockOK(cfg, s2) && !WatchOnly(cfg, s3.core) {
        BlockIsApproved(cfg, input, s2);
        ApprovedInside(cfg, s2.rest.calls, s3.rest.calls, s.rest.calls, s3.rest.calls, msg);
        RespondDoes(cfg, input, s, s3);
      }
    }
  }

  lemma OnChangeViewDoes(cfg: Config, input: set<Payload>, s: State, msg: Payload)
    requires Ready(cfg, input, s) && Arrived(s, msg) && msg.body.ChangeView?
    ensures Does(cfg, input, s, OnChangeView(cfg, s, msg))
    decreases 256 - s.core.view, 0, 9, 0
  {
    hide P.Inv, P.Unforged, P.Reaches, Coherent, CheckChangeView, SendRecoveryMessage, OnRecoveryRequest;
    var c, r := s.core, OnChangeView(cfg, s, msg);
    Stutter(cfg, input, s, s);
    OnRecoveryRequestDoes(cfg, input, s, msg);
    if msg.NewView() <= c.view {
    } else if Locked(cfg, c) {
      RecoveryMessageDoes(cfg, input, s);
    } else if !(msg.from in c.changeViews && msg.NewView() < c.changeViews[msg.from].NewView()) {
      var t := s.(core := c.(changeViews := c.changeViews[msg.from := msg]));
      CoherenceCarries(s, t);
      Step(cfg, input, s, P.StoreChangeView(msg), t);
      CheckChangeViewDoes(cfg, input, t, msg.body.newView);
      Then(cfg, input, s, t, r);
    }
  }

  // ---- receiving ----

  lemma DeliveredStays(cfg: Config, input: set<Payload>, s: State, r: State, msgs: seq<Payload>)
    requires Ready(cfg, input, s) && Does(cfg, input, s, r) && Deliverable(input, s, msgs)
    ensures Deliverable(input, r, msgs)
  {
    hide P.Inv, P.Unforged, P.Reaches, Coherent;
    P.ReachesKeeps(cfg, input, s.core, r.core);
  }

  lemma ReceiveAllDoes(cfg: Config, input: set<Payload>, s: State, msgs: seq<Payload>)
    requires Ready(cfg, input, s) && Deliverable(input, s, msgs)
    ensures Does(cfg, input, s, ReceiveAll(cfg, s, msgs))
    decreases 256 - s.core.view, 0, 11, |msgs|
  {
    hide P.Inv, P.Unforged, P.Reaches, Coherent, OnReceive;
    if msgs == [] {
      Stutter(cfg, input, s, s);
    } else {
      var t := OnReceive(cfg, s, msgs[0]);
      OnReceiveDoes(cfg, input, s, msgs[0]);
      DeliveredStays(cfg, input, s, t, msgs[1..]);
      ReceiveAllDoes(cfg, input, t, msgs[1..]);
      Then(cfg, input, s, t, ReceiveAll(cfg, s, msgs));
    }
  }

  lemma AddedMail(mail: map<nat, Inbox>, msg: Payload, p: Payload)
    requires InBox(AddMessage(mail, msg)[msg.height], p)
    ensures (p == msg && !msg.body.Recovery?) || (msg.height in mail && InBox(mail[msg.height], p))
  {
  }

  lemma CacheDoes(cfg: Config, input: set<Payload>, s: State, msg: Payload)
    requires Ready(cfg, input, s) && msg in s.core.delivered && FromFuture(s.core, msg)
    ensures Does(cfg, input, s, Cache(s, msg))
  {
    hide P.Inv, P.Unforged, P.Reaches, Does, Filed, InBox, AddMessage;
    var r := Cache(s, msg);
    AddedFields(s.rest.mail, msg);
    AddedIsFiled(s.rest.mail, msg);
    forall h, p | h in r.rest.mail && InBox(r.rest.mail[h], p)
      ensures MailItemOK(r, h, p)
    {
      if h == msg.height {
        AddedMail(s.rest.mail, msg, p);
      }
    }
    Stutter(cfg, input, s, r);
  }

  lemma ReceiveDoes(cfg: Config, input: set<Payload>, s: State, msg: Payload)
    requires Ready(cfg, input, s) && (msg in input || msg in s.core.delivered)
    ensures Does(cfg, input, s, Deliver(s, msg))
  {
    hide P.Inv, P.Unforged, P.Reaches, Does;
    Step(cfg, input, s, P.Receive(msg), Deliver(s, msg));
  }

  // Whoever sends a message of the height is heard of, and nobody is forgotten.
  lemma SeenIsHeard(s: State, msg: Payload)
    requires msg.height == s.core.height
    ensures forall i :: Heard(s, i) ==> Heard(Seen(s, msg), i)
    ensures msg.view >= s.core.view ==> Heard(Seen(s, msg), msg.from)
  {
  }

  lemma TakenIsSeen(s: State, msg: Payload)
    ensures forall i :: Heard(Taken(s, msg), i) <==> Heard(Seen(s, msg), i)
  {
    hide See;
  }

  lemma SeenIsCoherent(s: State, msg: Payload)
    requires Coherent(s)
    ensures Coherent(Seen(s, msg)) && Coherent(Taken(s, msg))
  {
    hide See;
  }

  lemma TakenDoes(cfg: Config, input: set<Payload>, s: State, msg: Payload)
    requires Ready(cfg, input, s) && (msg in input || msg in s.core.delivered) && msg.height == s.core.height
    ensures Does(cfg, input, s, Seen(s, msg)) && Does(cfg, input, s, Taken(s, msg))
  {
    hide P.Inv, P.Unforged, P.Reaches, Does, See, Accounted, Heard, Coherent;
    SeenIsHeard(s, msg);
    TakenIsSeen(s, msg);
    SeenIsCoherent(s, msg);
    Step(cfg, input, s, P.Receive(msg), Seen(s, msg));
    Step(cfg, input, s, P.Receive(msg), Taken(s, msg));
  }

  lemma OnReceiveDoes(cfg: Config, input: set<Payload>, s: State, msg: Payload)
    requires Ready(cfg, input, s) && (msg in input || msg in s.core.delivered)
    requires msg.body.Recovery? ==> forall m :: m in msg.body.items ==> m in input
    ensures Does(cfg, input, s, OnReceive(cfg, s, msg))
    decreases 256 - s.core.view, if msg.body.Recovery? then 1 else 0, 10, 1
  {
    hide P.Inv, P.Unforged, P.Reaches, Coherent, Cache, Dispatch, See, Accounted;
    var r, s1 := OnReceive(cfg, s, msg), Deliver(s, msg);
    ReceiveDoes(cfg, input, s, msg);
    if s.rest.crashed || msg.from >= s.core.n || msg.body.Malformed? || msg.height < s.core.height {
    } else if FromFuture(s.core, msg) {
      CacheDoes(cfg, input, s1, msg);
      Then(cfg, input, s, s1, r);
    } else {
      TakenDoes(cfg, input, s, msg);
      if !s.core.blockProcessed || msg.body.RecoveryRequest? {
        var s2 := Taken(s, msg);
        DispatchDoes(cfg, input, s2, msg);
        Then(cfg, input, s, s2, r);
      }
    }
  }

  lemma DispatchDoes(cfg: Config, input: set<Payload>, s: State, msg: Payload)
    requires Ready(cfg, input, s) && (Arrived(s, msg) || msg.body.RecoveryRequest?)
    requires !FromFuture(s.core, msg)
    requires msg.body.Recovery? ==> forall m :: m in msg.body.items ==> m in input
    ensures Does(cfg, input, s, Dispatch(cfg, s, msg))
    decreases 256 - s.core.view, if msg.body.Recovery? then 1 else 0, 10, 0
  {
    hide P.Inv, P.Unforged, P.Reaches, Coherent;
    hide OnPrepareRequest, OnPrepareResponse, OnPreCommit, OnCommit, OnChangeView, OnRecoveryRequest, OnRecoveryMessage;
    Stutter(cfg, input, s, s);
    match msg.body {
      case ChangeView(_, _) => OnChangeViewDoes(cfg, input, s, msg);
      case PrepareRequest(_, _, _) => OnPrepareRequestDoes(cfg, input, s, msg);
      case PrepareResponse(_) => OnPrepareResponseDoes(cfg, input, s, msg);
      case Commit(_) => OnCommitDoes(cfg, input, s, msg);
      case PreCommit(_) =>
        if AntiMEV(cfg, s.core.height) {
          OnPreCommitDoes(cfg, input, s, msg);
        }
      case RecoveryRequest => OnRecoveryRequestDoes(cfg, input, s, msg);
      case Recovery(_) => OnRecoveryMessageDoes(cfg, input, s, msg);
      case Malformed =>
    }
  }

  lemma OnRecoveryMessageDoes(cfg: Config, input: set<Payload>, s: State, msg: Payload)
    requires Ready(cfg, input, s) && msg.body.Recovery? && forall m :: m in msg.body.items ==> m in input
    ensures Does(cfg, input, s, OnRecoveryMessage(cfg, s, msg))
    decreases 256 - s.core.view, 1, 9, 0
  {
    hide P.Inv, P.Unforged, P.Reaches, Coherent, ReceiveAll, RecoverPreparations;
    var r, items := OnRecoveryMessage(cfg, s, msg), msg.body.items;
    Stutter(cfg, input, s, s);
    if msg.view > s.core.view && Locked(cfg, s.core) {
      return;
    }
    var s1 := s;
    if msg.view > s.core.view {
      s1 := ReceiveAll(cfg, s, Unpack(items, ChangeViewType));
      ReceiveAllDoes(cfg, input, s, Unpack(items, ChangeViewType));
    }
    var s2 := RecoverPreparations(cfg, s1, msg);
    RecoverPreparationsDoes(cfg, input, s1, msg);
    Then(cfg, input, s, s1, s2);
    if msg.view <= s2.core.view {
      var s3 := ReceiveAll(cfg, s2, Unpack(items, PreCommitType));
      ReceiveAllDoes(cfg, input, s2, Unpack(items, PreCommitType));
      ReceiveAllDoes(cfg, input, s3, Unpack(items, CommitType));
      Then(cfg, input, s, s2, s3);
      Then(cfg, input, s, s3, r);
    }
  }

  lemma RecoverPreparationsDoes(cfg: Config, input: set<Payload>, s: State, msg: Payload)
    requires Ready(cfg, input, s) && msg.body.Recovery? && forall m :: m in msg.body.items ==> m in input
    ensures Does(cfg, input, s, RecoverPreparations(cfg, s, msg))
    decreases 256 - s.core.view, 1, 8, 0
  {
    hide P.Inv, P.Unforged, P.Reaches, Coherent, ReceiveAll, OnReceive, NodeState.MoreThanFNodesCommittedOrLost;
    var items := msg.body.items;
    var requests := Unpack(items, PrepareRequestType);
    Stutter(cfg, input, s, s);
    if RecoverPreparations(cfg, s, msg) != s {
      var s1 := s;
      if !RequestKnown(s.core) && requests != [] {
        assert requests[0] in requests;
        s1 := OnReceive(cfg, s, requests[0]);
        OnReceiveDoes(cfg, input, s, requests[0]);
      }
      ReceiveAllDoes(cfg, input, s1, Unpack(items, PrepareResponseType));
      Then(cfg, input, s, s1, RecoverPreparations(cfg, s, msg));
    }
  }

  // ---- the other entry points ----

  lemma SubscriptionDoes(cfg: Config, input: set<Payload>, s: State, r: State)
    requires Ready(cfg, input, s) && r.core == s.core
    requires r.rest == s.rest.(txSubscription := r.rest.txSubscription, calls := r.rest.calls)
    requires s.rest.calls <= r.rest.calls
    ensures Does(cfg, input, s, r)
  {
    hide P.Inv, P.Unforged, P.Reaches, Does;
    Stutter(cfg, input, s, r);
  }

  lemma OnTimeoutDoes(cfg: Config, input: set<Payload>, s: State, height: nat, view: byte, force: bool)
    requires Ready(cfg, input, s)
    ensures Does(cfg, input, s, OnTimeout(cfg, s, height, view, force))
  {
    hide P.Inv, P.Unforged, P.Reaches, Coherent, SendPrepareRequest, SendRecoveryMessage, SendChangeView;
    var c, r := s.core, OnTimeout(cfg, s, height, view, force);
    Stutter(cfg, input, s, s);
    if s.rest.crashed || WatchOnly(cfg, c) || c.blockProcessed || height != c.height || view != c.view {
    } else if IsPrimary(c) && !RequestKnown(c) {
      SendPrepareRequestDoes(cfg, input, s, c.view != 0 || s.rest.txSubscription || force);
    } else if Locked(cfg, c) {
      RecoveryMessageDoes(cfg, input, s);
    } else if r.core == c && r.rest == s.rest.(txSubscription := r.rest.txSubscription, calls := r.rest.calls)
              && s.rest.calls <= r.rest.calls {
      SubscriptionDoes(cfg, input, s, r);
    } else if r == SendChangeView(cfg, s, CVTimeout) {
      SendChangeViewDoes(cfg, input, s, CVTimeout);
    } else {
      SubscriptionDoes(cfg, input, s, Tick(s));
      SendChangeViewDoes(cfg, input, Tick(s), CVTimeout);
      Then(cfg, input, s, Tick(s), r);
    }
  }

  // The pool of collected transactions may change within the proposal.
  lemma PoolDoes(cfg: Config, input: set<Payload>, s: State, r: State)
    requires Ready(cfg, input, s) && r.core == s.core && RequestKnown(s.core)
    requires r.rest == s.rest.(transactions := r.rest.transactions, missing := r.rest.missing)
    requires TransactionsOK(r) && !s.core.blockProcessed && KeepsList(s, r)
    ensures Does(cfg, input, s, r)
  {
    hide P.Inv, P.Unforged, P.Reaches, Does;
    Stutter(cfg, input, s, r);
  }

  lemma PreCommitsOnly(s: State)
    ensures VerifyPreCommits(s).core == s.core.(preCommits := VerifyPreCommits(s).core.preCommits)
  {
  }

  lemma AddTransactionDoes(cfg: Config, input: set<Payload>, s: State, tx: Hash)
    requires Ready(cfg, input, s) && AwaitsTransactions(cfg, s) && tx in s.rest.missing
    ensures Does(cfg, input, s, AddTransaction(cfg, s, tx))
  {
    hide P.Unforged, P.Reaches, CreateAndCheckBlock, BlockOK, Respond, P.History, MailOK, HasAllTransactions;
    hide P.MatchOK, P.CommitsOK, P.ViewsOK, P.WatchOK, P.LockOK, P.Remembered, VerifyPreCommits, P.PrepsOK;
    var r := AddTransaction(cfg, s, tx);
    var s1 := s.(rest := s.rest.(transactions := s.rest.transactions + {tx}));
    PoolDoes(cfg, input, s, s1);
    if HasAllTransactions(s1) && !IsPrimary(s1.core) && !WatchOnly(cfg, s1.core) {
      CreateAndCheckBlockDoes(cfg, input, s1);
      var s2 := CreateAndCheckBlock(cfg, s1);
      Then(cfg, input, s, s1, s2);
      if BlockOK(cfg, s1) {
        VerifyPreCommitsDoes(cfg, input, s2);
        var s3 := VerifyPreCommits(s2);
        PreCommitsOnly(s2);
        Then(cfg, input, s, s2, s3);
        BlockIsApproved(cfg, input, s1);
        RespondDoes(cfg, input, s, s3);
      }
    }
  }

  lemma FewerMissing(s: State, r: State)
    requires Coherent(s) && s.rest.missing != []
    requires r == s.(rest := s.rest.(missing := r.rest.missing, crashed := r.rest.crashed))
    requires forall h :: h in r.rest.missing ==> h in s.rest.missing
    ensures Coherent(r)
  {
  }

  // A collected transaction may leave the list.
  lemma OneFewer(txs: seq<Hash>, transactions: set<Hash>, missing: seq<Hash>, i: nat)
    requires Accounted(txs, transactions, missing) && i < |missing| && missing[i] in transactions
    ensures Accounted(txs, transactions, missing[..i] + missing[i + 1..])
  {
    forall h | h in txs
      ensures h in transactions || h in missing[..i] + missing[i + 1..]
    {
      if h in missing && h != missing[i] {
        var j :| 0 <= j < |missing| && missing[j] == h;
        assert h == if j < i then missing[..i][j] else missing[i + 1..][j - i - 1];
      }
    }
  }

  lemma AskingKeepsRest(cfg: Config, s: State, reason: Reason)
    requires reason != CVTimeout
    ensures var r := SendChangeView(cfg, s, reason); r.core.view > s.core.view || r.rest == s.rest
  {
    hide Initialize, Voters, WatchOnly;
  }

  lemma AddTransactionKeepsMissing(cfg: Config, s: State, tx: Hash)
    ensures var r := AddTransaction(cfg, s, tx);
      || r.core.view > s.core.view
      || (r.rest.txs == s.rest.txs && r.rest.missing == s.rest.missing
          && r.rest.transactions == s.rest.transactions + {tx})
  {
    hide SendChangeView, CheckPrepare, VerifyPreCommits, BlockOK, HasAllTransactions, SendPrepareResponse, Respond;
    var s1 := s.(rest := s.rest.(transactions := s.rest.transactions + {tx}));
    AskingKeepsRest(cfg, Tick(BuildBlock(cfg, s1)), CVTxInvalid);
  }

  /** Taking the transaction off the list is harmless as long as the call does not leave the view. */
  lemma OnTransactionDoes(cfg: Config, input: set<Payload>, s: State, tx: Hash)
    requires Ready(cfg, input, s)
    ensures Follows(cfg, input, s, OnTransaction(cfg, s, tx))
    ensures OffersProposals(cfg, s, OnTransaction(cfg, s, tx)) && Keeps(cfg, s, OnTransaction(cfg, s, tx))
    ensures OnTransaction(cfg, s, tx).core.view == s.core.view ==> Does(cfg, input, s, OnTransaction(cfg, s, tx))
  {
    hide P.Inv, P.Unforged, P.Reaches, AddTransaction, AwaitsTransactions, IndexOf, Coherent, Refuses, Accounted;
    hide IsProposal;
    var r := OnTransaction(cfg, s, tx);
    Stutter(cfg, input, s, s);
    if r != s {
      var s1 := AddTransaction(cfg, s, tx);
      AddTransactionDoes(cfg, input, s, tx);
      AddTransactionKeepsMissing(cfg, s, tx);
      if r != s1 {
        FewerMissing(s1, r);
        if r.core.view == s.core.view && ListOK(s1) && RequestKnown(s1.core) {
          var i := IndexOf(s.rest.missing, tx);
          OneFewer(s1.rest.txs, s1.rest.transactions, s1.rest.missing, i);
        }
      }
    }
  }

  lemma NewHeightIsHeard(cfg: Config, s: State, height: nat, ts: nat)
    ensures HearsItself(TakeMail(ResetHeight(cfg, s, height, ts)))
  {
  }

  lemma ResetDoes(cfg: Config, input: set<Payload>, s: State, height: nat, ts: nat)
    requires Ready(cfg, input, s) && height > s.core.height
    ensures Does(cfg, input, s, Reset(cfg, s, height, ts))
  {
    hide P.Inv, P.Unforged, P.Reaches, GetPrimaryIndex, Replay, ReceiveAll, Approved, Refuses, IsProposal, Heard;
    Stutter(cfg, input, s, s);
    if !s.rest.crashed {
      var t := ResetHeight(cfg, s, height, ts);
      NewHeightIsHeard(cfg, s, height, ts);
      Step(cfg, input, s, P.NewHeight(height), TakeMail(t));
      ReceiveAllDoes(cfg, input, TakeMail(t), CachedMail(cfg, t));
      Then(cfg, input, s, TakeMail(t), Reset(cfg, s, height, ts));
    }
  }

  lemma FreshIsReady(cfg: Config, s: State)
    requires P.Indexed(cfg, s.core) && s.core.view == 0
    requires s.core.preps == s.core.preCommits == s.core.commits == map[]
    requires s.core.changeViews == s.core.lastChangeViews == map[] && !s.core.blockProcessed
    requires s.core.sent == [] && s.core.delivered == {} && s.core.processed == s.core.preBlocks == []
    requires s.rest.txs == s.rest.missing == [] && s.rest.transactions == {} && s.rest.mail == map[]
    requires s.rest.preHeader == s.rest.preBlock == s.rest.header == s.rest.block == None
    ensures Ready(cfg, {}, s)
  {
    hide P.Indexed;
  }

  // A node that is started for the first time has nothing to replay.
  lemma StartIsFresh(cfg: Config, height: nat, ts: nat)
    ensures var t := TakeMail(ResetHeight(cfg, Blank(), height, ts));
      && Ready(cfg, {}, t) && ListOK(t) && !t.rest.crashed && t.core.delivered == {} && t.core.sent == []
      && Start(cfg, Blank(), height, ts) == if IsPrimary(t.core) then SendPrepareRequest(cfg, t, true) else t
  {
    hide P.Inv, P.Unforged, Coherent, P.Reaches, GetPrimaryIndex, SendPrepareRequest;
    var s := ResetHeight(cfg, Blank(), height, ts);
    var t := TakeMail(s);
    assert CachedMail(cfg, s) == [] && Initialize(cfg, s) == t;
    FreshIsReady(cfg, t);
  }

  lemma StartIsReady(cfg: Config, height: nat, ts: nat)
    ensures Ready(cfg, {}, Start(cfg, Blank(), height, ts))
    ensures Start(cfg, Blank(), height, ts).core.delivered == {} && ListOK(Start(cfg, Blank(), height, ts))
    ensures HearsItself(Start(cfg, Blank(), height, ts))
  {
    hide P.Inv, P.Unforged, Coherent, P.Reaches, GetPrimaryIndex, SendPrepareRequest, Start;
    StartIsFresh(cfg, height, ts);
    NewHeightIsHeard(cfg, Blank(), height, ts);
    var t := TakeMail(ResetHeight(cfg, Blank(), height, ts));
    if IsPrimary(t.core) {
      SendPrepareRequestDoes(cfg, {}, t, true);
      P.ReachesKeeps(cfg, {}, t.core, SendPrepareRequest(cfg, t, true).core);
    }
  }

  // ---- events: one call into the library ----

  datatype Event =
    | Received(msg: Payload)
    | Timeout(timerHeight: nat, timerView: byte)
    | NewTransaction(timerHeight: nat, timerView: byte)
    | ProposedTransaction(tx: Hash)
    | NextHeight(height: nat, ts: nat)

  function Handle(cfg: Config, s: State, e: Event): State {
    match e
    case Received(msg) => OnReceive(cfg, s, msg)
    case Timeout(h, v) => OnTimeout(cfg, s, h, v, false)
    case NewTransaction(h, v) => OnNewTransaction(cfg, s, h, v)
    case ProposedTransaction(tx) => OnTransaction(cfg, s, tx)
    case NextHeight(h, ts) => Reset(cfg, s, h, ts)
  }

  // A message brings itself and, if it is a recovery message, the payloads packed in it.
  function Input(e: Event): set<Payload> {
    if e.Received? then
      {e.msg} + (if e.msg.body.Recovery? then set p | p in e.msg.body.items else {})
    else {}
  }

  // What the library asks of its caller: a reset follows a new block.
  predicate Proper(s: State, e: Event) {
    e.NextHeight? ==> e.height > s.core.height
  }

  /** One call is a finite run of the protocol, whatever nested view changes and replays it causes; it keeps the
      invariant, and undoes neither a lock nor a processed block. */
  lemma HandleRefines(cfg: Config, s: State, e: Event)
    requires Ready(cfg, Input(e), s) && Proper(s, e)
    ensures Follows(cfg, Input(e), s, Handle(cfg, s, e))
    ensures !e.ProposedTransaction? || Handle(cfg, s, e).core.view == s.core.view ==>
      Does(cfg, Input(e), s, Handle(cfg, s, e))
    ensures OffersProposals(cfg, s, Handle(cfg, s, e)) && Keeps(cfg, s, Handle(cfg, s, e))
    ensures P.Evolves(s.core, Handle(cfg, s, e).core)
    ensures Handle(cfg, s, e).core.delivered <= s.core.delivered + Input(e)
  {
    hide P.Inv, P.Unforged, P.Reaches, Coherent, OnReceive, OnTimeout, OnTransaction, Reset, P.Evolves;
    var input := Input(e);
    match e {
      case Received(msg) => OnReceiveDoes(cfg, input, s, msg);
      case Timeout(h, v) => OnTimeoutDoes(cfg, input, s, h, v, false);
      case NewTransaction(h, v) =>
        Stutter(cfg, input, s, s);
        OnTimeoutDoes(cfg, input, s, h, v, true);
      case ProposedTransaction(tx) => OnTransactionDoes(cfg, input, s, tx);
      case NextHeight(h, ts) => ResetDoes(cfg, input, s, h, ts);
    }
    P.ReachesKeeps(cfg, input, s.core, Handle(cfg, s, e).core);
  }
}
