/** What a node must do: every quorum is followed by the signature or the block it is for, every proposal by an answer,
    and every timeout of a validator by a broadcast. Callbacks are named by their numbers. */
module Duties {
  import opened Quorum
  import opened Payloads
  import opened NodeState
  import opened Mailbox
  import opened NodeSpec
  import opened Refinement
  import T = MissingTransactions
  import P = Protocol

  // The first payload that is broadcast from s to r.
  predicate BroadcastsFirst(s: State, r: State, p: Payload) {
    |r.core.sent| > |s.core.sent| && r.core.sent[..|s.core.sent|] == s.core.sent && r.core.sent[|s.core.sent|] == p
  }

  lemma FirstStays(s: State, t: State, r: State, p: Payload)
    requires t.core.sent == s.core.sent + [p] && t.core.sent <= r.core.sent
    ensures BroadcastsFirst(s, r, p)
  {
    assert r.core.sent[|s.core.sent|] == t.core.sent[|s.core.sent|];
  }

  // A node that takes part in its height.
  predicate Active(cfg: Config, s: State) {
    !s.rest.crashed && !WatchOnly(cfg, s.core) && !s.core.blockProcessed
  }

  // ---- blocks ----

  predicate ManyCommits(c: Core) {
    |Voters(c.commits, c.n, InView(c.view))| >= M(c.n)
  }

  predicate ManyPreCommits(c: Core) {
    |Voters(c.preCommits, c.n, InView(c.view))| >= M(c.n)
  }

  predicate ManyPreparations(c: Core) {
    |Voters(c.preps, c.n, InView(c.view))| >= M(c.n)
  }

  // The block of the proposal is processed.
  ghost predicate Finishes(s: State, r: State, h: Header, counted: Slots) {
    && r.core.blockProcessed
    && r.core.processed == s.core.processed + [Acceptance(CommitType, s.core.height, s.core.view, h, counted)]
  }

  lemma HeaderIsMade(cfg: Config, input: set<Payload>, s: State)
    requires Ready(cfg, input, s) && P.Proposed(s.core) && (AntiMEV(cfg, s.core.height) ==> s.core.preBlockProcessed)
    ensures MakeHeader(cfg, s).rest.header == Some(P.ProposedHeader(s.core))
    ensures CreateBlock(cfg, s).rest.block == Some(P.ProposedHeader(s.core))
  {
    hide P.Unforged, MailOK, TransactionsOK, CompleteOK, P.History, P.MatchOK, P.CommitsOK, P.ViewsOK, P.WatchOK;
    hide P.LockOK, P.Remembered;
    HeadersAreCoherent(cfg, s);
    CachedIsProposed(MakeHeader(cfg, s), MakeHeader(cfg, s).rest.header);
    CachedIsProposed(CreateBlock(cfg, s), CreateBlock(cfg, s).rest.block);
  }

  lemma PreHeaderIsMade(cfg: Config, input: set<Payload>, s: State)
    requires Ready(cfg, input, s) && P.Proposed(s.core)
    ensures CreatePreBlock(s).rest.preBlock == Some(P.ProposedHeader(s.core))
  {
    hide P.Unforged, MailOK, TransactionsOK, CompleteOK, P.History, P.MatchOK, P.CommitsOK, P.ViewsOK, P.WatchOK;
    hide P.LockOK, P.Remembered;
    HeadersAreCoherent(cfg, s);
    CachedIsProposed(CreatePreBlock(s), CreatePreBlock(s).rest.preBlock);
  }

  // M Commits and all transactions: the ledger is asked, and its answer decides.
  lemma QuorumFinishes(cfg: Config, input: set<Payload>, s: State)
    requires Ready(cfg, input, s) && P.Proposed(s.core) && !s.core.blockProcessed
    requires AntiMEV(cfg, s.core.height) ==> s.core.preBlockProcessed
    requires HasAllTransactions(s) && ManyCommits(s.core)
    ensures var r, h := CheckCommit(cfg, s), P.ProposedHeader(s.core);
      && r.rest.offered == s.rest.offered + [Offer(s.rest.calls, h)]
      && if cfg.processBlock(s.rest.calls, h) then Finishes(s, r, h, s.core.commits) else r.core == s.core
  {
    hide P.Inv, P.Unforged, Coherent, CreateBlock, HasAllTransactions, Voters, P.Proposed;
    HeaderIsMade(cfg, input, s);
  }

  // ---- signatures ----

  // The own payload over the proposed header.
  function OwnSignature(c: Core, k: Kind): Payload
    requires c.me >= 0 && P.Proposed(c)
  {
    var sig := Signature(c.me, P.ProposedHeader(c));
    Own(c, if k == PreCommitType then PreCommit(sig) else Commit(sig))
  }

  lemma CommitIsSigned(cfg: Config, input: set<Payload>, s: State)
    requires Ready(cfg, input, s) && s.core.me >= 0 && P.Proposed(s.core) && s.core.me !in s.core.commits
    requires (AntiMEV(cfg, s.core.height) ==> s.core.preBlockProcessed) && cfg.sign(s.rest.calls)
    ensures var r, p := SendCommit(cfg, s), OwnSignature(s.core, CommitType);
      && r.core == s.core.(commits := s.core.commits[s.core.me := p], sent := s.core.sent + [p])
      && r.rest.calls == s.rest.calls + 1 && HasAllTransactions(r) == HasAllTransactions(s)
  {
    hide P.Inv, P.Unforged, Coherent, P.Proposed;
    HeaderIsMade(cfg, input, s);
  }

  lemma PreCommitIsSigned(cfg: Config, input: set<Payload>, s: State)
    requires Ready(cfg, input, s) && s.core.me >= 0 && P.Proposed(s.core) && s.core.me !in s.core.preCommits
    requires cfg.sign(s.rest.calls)
    ensures var r, p := SendPreCommit(cfg, s), OwnSignature(s.core, PreCommitType);
      && r.core == s.core.(preCommits := s.core.preCommits[s.core.me := p], sent := s.core.sent + [p])
      && r.rest.calls == s.rest.calls + 1 && HasAllTransactions(r) == HasAllTransactions(s)
  {
    hide P.Inv, P.Unforged, Coherent, P.Proposed;
    PreHeaderIsMade(cfg, input, s);
  }

  // The proposal is in the slot of the primary.
  lemma KnownIsProposed(cfg: Config, input: set<Payload>, s: State)
    requires Ready(cfg, input, s) && RequestKnown(s.core)
    ensures P.Proposed(s.core) && HasRequest(s.core.preps, s.core.n) && s.core.me < s.core.n
  {
    hide P.Unforged, Coherent, P.History, P.MatchOK, P.CommitsOK, P.ViewsOK, P.WatchOK, P.LockOK, P.Remembered;
  }

  // An own signature stays in its slot.
  lemma SlotStays(cfg: Config, input: set<Payload>, t: State, r: State)
    requires Ready(cfg, input, t) && Does(cfg, input, t, r) && r.core.height == t.core.height
    ensures t.core.me in t.core.preCommits ==>
      t.core.me in r.core.preCommits && r.core.preCommits[t.core.me] == t.core.preCommits[t.core.me]
    ensures t.core.me in t.core.commits ==>
      t.core.me in r.core.commits && r.core.commits[t.core.me] == t.core.commits[t.core.me]
    ensures t.core.sent <= r.core.sent
  {
    hide P.Inv, P.Unforged, P.Reaches, Coherent, Survives, ListOK, Keeps;
    P.ReachesKeeps(cfg, input, t.core, r.core);
  }

  // After the own Commit the block may be finished.
  lemma FinishesLater(cfg: Config, input: set<Payload>, s: State, t: State)
    requires Ready(cfg, input, t) && !t.core.blockProcessed && P.Proposed(s.core) && HasAllTransactions(t)
    requires t.core.preps == s.core.preps && t.core.primary == s.core.primary && t.core.processed == s.core.processed
    requires t.core.height == s.core.height && t.core.view == s.core.view
    requires AntiMEV(cfg, t.core.height) ==> t.core.preBlockProcessed
    ensures Does(cfg, input, t, CheckCommit(cfg, t))
    ensures ManyCommits(t.core) && cfg.processBlock(t.rest.calls, P.ProposedHeader(s.core)) ==>
      Finishes(s, CheckCommit(cfg, t), P.ProposedHeader(s.core), t.core.commits)
  {
    hide P.Inv, P.Unforged, P.Reaches, Coherent, HasAllTransactions, Voters, CheckCommit, ManyCommits, Does;
    CheckCommitDoes(cfg, input, t);
    if ManyCommits(t.core) {
      QuorumFinishes(cfg, input, t);
    }
  }

  // ---- pre-blocks ----

  // The validators whose stored Commit of this view signs the header.
  function Signers(c: Core, h: Header): set<int> {
    set i | i in Voters(c.commits, c.n, InView(c.view)) && Verifies(h, i, c.commits[i].Signed())
  }

  // Every stored signature of the view is over the header.
  predicate AllSign(slots: Slots, n: nat, v: byte, h: Header) {
    forall i :: 0 <= i < n && i in slots && slots[i].view == v ==> Verifies(h, slots[i].from, slots[i].Signed())
  }

  // What follows M PreCommits and an accepted pre-block, when the own PreCommit is out.
  ghost predicate Confirms(cfg: Config, s: State, r: State)
    requires s.core.me >= 0 && P.Proposed(s.core)
  {
    var c, me, h := s.core, s.core.me, P.ProposedHeader(s.core);
    var k := s.rest.calls + (if c.preBlockProcessed then 0 else 1) + (if me in c.commits then 0 else 1);
    && me in r.core.commits && r.core.commits[me].body == Commit(Signature(me, h))
    && BroadcastsFirst(s, r, r.core.commits[me]) && r.core.preBlockProcessed
    && r.core.preBlocks == c.preBlocks + (if c.preBlockProcessed then []
                                          else [Acceptance(PreCommitType, c.height, c.view, h, c.preCommits)])
    && (|Signers(c, h) + {me}| >= M(c.n) && cfg.processBlock(k, h) ==> r.core.blockProcessed)
    && AllSign(r.core.commits, c.n, c.view, h)
  }

  // The own Commit signs the proposal, so it survives the verification, as do all that sign it.
  lemma SignersStay(cfg: Config, input: set<Payload>, s: State)
    requires Ready(cfg, input, s) && P.Proposed(s.core) && s.core.me >= 0 && s.core.preBlockProcessed
    ensures var t, me := VerifyCommits(cfg, s), s.core.me;
      && t.core == s.core.(commits := t.core.commits) && t.rest.calls == s.rest.calls
      && (me in t.core.commits <==> me in s.core.commits)
      && (me in t.core.commits ==> t.core.commits[me] == s.core.commits[me]
                                   && t.core.commits[me].view == s.core.view && t.core.commits[me].from == me
                                   && t.core.commits[me].body == Commit(Signature(me, P.ProposedHeader(s.core))))
      && Signers(s.core, P.ProposedHeader(s.core)) <= Voters(t.core.commits, t.core.n, InView(t.core.view))
      && AllSign(t.core.commits, s.core.n, s.core.view, P.ProposedHeader(s.core))
  {
    hide P.Unforged, Coherent, P.History, P.MatchOK, P.ViewsOK, P.WatchOK, P.Remembered, P.PrepsOK, MakeHeader;
    HeaderIsMade(cfg, input, s);
  }

  // The state in which the pre-block counts as processed.
  lemma PreBlockIsMarked(cfg: Config, input: set<Payload>, s: State) returns (t: State)
    requires Ready(cfg, input, s) && !s.core.blockProcessed && AntiMEV(cfg, s.core.height) && P.Proposed(s.core)
    requires ManyPreCommits(s.core)
    requires s.core.preBlockProcessed || cfg.processPreBlock(s.rest.calls, P.ProposedHeader(s.core))
    ensures var c, b := s.core, CreatePreBlock(s);
      && t == (if c.preBlockProcessed then b else MarkPreBlock(Tick(b)))
      && b.core == c && b.rest.preBlock == Some(P.ProposedHeader(c)) && b.rest.calls == s.rest.calls
    ensures Ready(cfg, input, t) && Does(cfg, input, s, t) && HasAllTransactions(t) == HasAllTransactions(s)
  {
    hide P.Inv, P.Unforged, P.Reaches, Coherent, Voters, P.Proposed, Keeps, Survives, CreatePreBlock;
    PreHeaderIsMade(cfg, input, s);
    HeadersDo(cfg, input, s);
    t := CreatePreBlock(s);
    if !s.core.preBlockProcessed {
      MarkPreBlockDoes(cfg, input, t);
      Then(cfg, input, s, t, MarkPreBlock(Tick(t)));
      t := MarkPreBlock(Tick(t));
    }
  }

  // The own Commit is signed or sent again.
  lemma CommitGoesOut(cfg: Config, input: set<Payload>, s: State)
    requires Ready(cfg, input, s) && !s.core.blockProcessed && s.core.me >= 0 && P.Proposed(s.core)
    requires AntiMEV(cfg, s.core.height) && s.core.preBlockProcessed && !WatchOnly(cfg, s.core)
    requires s.core.me in s.core.preCommits && ManyPreCommits(s.core)
    requires var me, sig := s.core.me, Commit(Signature(s.core.me, P.ProposedHeader(s.core)));
      if me in s.core.commits
      then s.core.commits[me].body == sig && s.core.commits[me].view == s.core.view && s.core.commits[me].from == me
      else cfg.sign(s.rest.calls)
    ensures var r, me := SendCommit(cfg, s), s.core.me;
      && me in r.core.commits && r.core.commits[me].body == Commit(Signature(me, P.ProposedHeader(s.core)))
      && r.core.commits[me].view == s.core.view && r.core.commits[me].from == me
      && r.core == s.core.(commits := s.core.commits[me := r.core.commits[me]],
                           sent := s.core.sent + [r.core.commits[me]])
      && r.rest.calls == s.rest.calls + (if me in s.core.commits then 0 else 1)
      && HasAllTransactions(r) == HasAllTransactions(s) && Does(cfg, input, s, r)
  {
    hide P.Inv, P.Unforged, P.Reaches, Coherent, Voters, P.Proposed, Does;
    SendCommitDoes(cfg, input, s);
    if s.core.me in s.core.commits {
      assert s.core.commits == s.core.commits[s.core.me := s.core.commits[s.core.me]];
    } else {
      CommitIsSigned(cfg, input, s);
    }
  }

  lemma SignersCounted(c: Core, u: Core, v: Core, h: Header)
    requires u.n == v.n == c.n && u.view == v.view == c.view && 0 <= c.me < c.n
    requires Signers(c, h) <= Voters(u.commits, u.n, InView(u.view)) && AllSign(u.commits, c.n, c.view, h)
    requires c.me in v.commits && v.commits == u.commits[c.me := v.commits[c.me]] && v.commits[c.me].view == c.view
    requires v.commits[c.me].from == c.me && v.commits[c.me].body == Commit(Signature(c.me, h))
    ensures |Signers(c, h) + {c.me}| >= M(c.n) ==> ManyCommits(v)
    ensures AllSign(v.commits, c.n, c.view, h)
  {
    SubsetSize(Signers(c, h) + {c.me}, Voters(v.commits, v.n, InView(v.view)));
  }

  lemma BuildsNothingElse(cfg: Config, s: State)
    ensures CreateBlock(cfg, s).core == s.core
  {
  }

  lemma BlockOnly(cfg: Config, s: State)
    ensures var r := CheckCommit(cfg, s);
      r.core == s.core.(blockProcessed := r.core.blockProcessed, processed := r.core.processed)
  {
    hide CreateBlock, Voters, HasAllTransactions;
    BuildsNothingElse(cfg, s);
  }

  lemma DoesReady(cfg: Config, input: set<Payload>, s: State, r: State)
    requires Does(cfg, input, s, r)
    ensures Ready(cfg, input, r)
  {
    hide P.Inv, P.Unforged, P.Reaches, Coherent, Survives, Keeps;
  }

  lemma PreCommitsConfirm(cfg: Config, input: set<Payload>, s: State)
    requires Ready(cfg, input, s) && !s.core.blockProcessed && AntiMEV(cfg, s.core.height) && RequestKnown(s.core)
    requires !WatchOnly(cfg, s.core) && s.core.me in s.core.preCommits
    requires HasAllTransactions(s) && ManyPreCommits(s.core)
    requires P.Proposed(s.core) && var k := s.rest.calls + (if s.core.preBlockProcessed then 0 else 1);
      && (s.core.preBlockProcessed || cfg.processPreBlock(s.rest.calls, P.ProposedHeader(s.core)))
      && (s.core.me in s.core.commits || cfg.sign(k))
    ensures Confirms(cfg, s, CheckPreCommit(cfg, s))
  {
    hide P.Inv, P.Unforged, P.Reaches, Coherent, Voters, CreatePreBlock, VerifyCommits, SendCommit, CheckCommit, Does;
    hide Verifies;
    var r, me, h := CheckPreCommit(cfg, s), s.core.me, P.ProposedHeader(s.core);
    KnownIsProposed(cfg, input, s);
    var t := PreBlockIsMarked(cfg, input, s);
    var u := VerifyCommits(cfg, t);
    SignersStay(cfg, input, t);
    VerifyCommitsDo(cfg, input, t);
    assert Ready(cfg, input, u) by {
      DoesReady(cfg, input, t, u);
    }
    CommitGoesOut(cfg, input, u);
    var v := SendCommit(cfg, u);
    assert r == CheckCommit(cfg, v);
    assert Ready(cfg, input, v) by {
      DoesReady(cfg, input, u, v);
    }
    FinishesLater(cfg, input, s, v);
    BlockOnly(cfg, v);
    SlotStays(cfg, input, v, r);
    FirstStays(s, v, r, v.core.commits[me]);
    SignersCounted(s.core, u.core, v.core, h);
  }

  // ---- preparations ----

  // After the own PreCommit the Commit may follow at once.
  lemma ConfirmsAtOnce(cfg: Config, input: set<Payload>, s: State, t: State)
    requires Ready(cfg, input, t) && !t.core.blockProcessed && AntiMEV(cfg, t.core.height) && P.Proposed(s.core)
    requires HasAllTransactions(t) && !WatchOnly(cfg, t.core) && t.core.me in t.core.preCommits
    requires t.core == s.core.(preCommits := t.core.preCommits, sent := t.core.sent)
    ensures ManyPreCommits(t.core)
            && (t.core.preBlockProcessed || cfg.processPreBlock(t.rest.calls, P.ProposedHeader(s.core)))
            && cfg.sign(t.rest.calls + (if t.core.preBlockProcessed then 0 else 1)) ==>
      var r, me := CheckPreCommit(cfg, t), s.core.me;
      me in r.core.commits && r.core.commits[me].body == Commit(Signature(me, P.ProposedHeader(s.core)))
  {
    hide P.Inv, P.Unforged, P.Reaches, Coherent, HasAllTransactions, Voters, CheckPreCommit, Signers;
    if ManyPreCommits(t.core)
       && (t.core.preBlockProcessed || cfg.processPreBlock(t.rest.calls, P.ProposedHeader(s.core)))
       && cfg.sign(t.rest.calls + (if t.core.preBlockProcessed then 0 else 1)) {
      PreCommitsConfirm(cfg, input, t);
    }
  }

  // What follows M preparations.
  ghost predicate Signs(cfg: Config, s: State, r: State)
    requires s.core.me >= 0 && P.Proposed(s.core)
  {
    var c, h := s.core, P.ProposedHeader(s.core);
    if AntiMEV(cfg, c.height) then
      var p := OwnSignature(c, PreCommitType);
      var signed := c.(preCommits := c.preCommits[c.me := p]);
      var k := s.rest.calls + (if c.preBlockProcessed then 1 else 2);
      && BroadcastsFirst(s, r, p) && c.me in r.core.preCommits && r.core.preCommits[c.me] == p
      && (ManyPreCommits(signed) && (c.preBlockProcessed || cfg.processPreBlock(s.rest.calls + 1, h)) && cfg.sign(k) ==>
            c.me in r.core.commits && r.core.commits[c.me].body == Commit(Signature(c.me, h)))
    else
      var p := OwnSignature(c, CommitType);
      var signed := c.(commits := c.commits[c.me := p]);
      && BroadcastsFirst(s, r, p) && c.me in r.core.commits && r.core.commits[c.me] == p
      && (ManyCommits(signed) && cfg.processBlock(s.rest.calls + 1, h) ==> Finishes(s, r, h, signed.commits))
  }

  lemma PreparationsSign(cfg: Config, input: set<Payload>, s: State)
    requires Ready(cfg, input, s) && !s.core.blockProcessed && !WatchOnly(cfg, s.core) && !Locked(cfg, s.core)
    requires RequestKnown(s.core) && HasAllTransactions(s) && ManyPreparations(s.core) && cfg.sign(s.rest.calls)
    ensures P.Proposed(s.core) && Signs(cfg, s, CheckPrepare(cfg, s))
  {
    hide P.Inv, P.Unforged, P.Reaches, Coherent, HasAllTransactions, Voters, P.Proposed, CheckCommit, CheckPreCommit;
    hide SendCommit, SendPreCommit, Survives, ListOK, P.LockKept, Finishes, HasRequest, Approved, Heard, SlotsSpared;
    hide P.Settled;
    KnownIsProposed(cfg, input, s);
    var r, mev := CheckPrepare(cfg, s), AntiMEV(cfg, s.core.height);
    var t := if mev then SendPreCommit(cfg, s) else SendCommit(cfg, s);
    assert MaySign(cfg, s.core, s.core.preps);
    if mev {
      PreCommitIsSigned(cfg, input, s);
      SendPreCommitDoes(cfg, input, s);
      CheckPreCommitDoes(cfg, input, t);
      ConfirmsAtOnce(cfg, input, s, t);
      SlotStays(cfg, input, t, r);
      FirstStays(s, t, r, OwnSignature(s.core, PreCommitType));
    } else {
      CommitIsSigned(cfg, input, s);
      SendCommitDoes(cfg, input, s);
      FinishesLater(cfg, input, s, t);
      SlotStays(cfg, input, t, r);
      FirstStays(s, t, r, OwnSignature(s.core, CommitType));
    }
  }

  // ---- what is received ----

  // A message of the current epoch that reaches a node at work.
  predicate AtHand(s: State, m: Payload) {
    && !s.rest.crashed && !s.core.blockProcessed
    && m.height == s.core.height && m.view == s.core.view && m.from < s.core.n
  }

  predicate Arrives(cfg: Config, s: State, m: Payload) {
    AtHand(s, m) && !WatchOnly(cfg, s.core)
  }

  lemma ArrivesReady(cfg: Config, s: State, m: Payload)
    requires Ready(cfg, {m}, s) && AtHand(s, m) && !m.body.Malformed?
    ensures OnReceive(cfg, s, m) == Dispatch(cfg, Taken(s, m), m) && Ready(cfg, {m}, Taken(s, m))
  {
    hide P.Inv, P.Unforged, P.Reaches, Coherent, Survives, Keeps, Dispatch, Cache, See, ListOK;
    TakenDoes(cfg, {m}, s, m);
  }

  // A payload enters its slot, and one callback is answered.
  lemma StoredReady(cfg: Config, input: set<Payload>, s: State, a: P.Act, r: State)
    requires Ready(cfg, input, s) && (a.StorePreCommit? || a.StoreCommit? || a.StoreResponse?)
    requires P.Enabled(cfg, input, s.core, a) && r == Tick(s.(core := P.Apply(cfg, s.core, a))) && Coherent(r)
    ensures Ready(cfg, input, r)
  {
    hide P.Inv, P.Unforged, P.Reaches, Coherent, P.Enabled;
    P.StepKeepsInv(cfg, input, s.core, a, r.core);
  }

  lemma PreCommitIsCounted(cfg: Config, input: set<Payload>, s: State, m: Payload) returns (t: State)
    requires Ready(cfg, input, s) && Arrived(s, m) && m.view == s.core.view && m.body.PreCommit?
    requires m.from !in s.core.preCommits && cfg.verifyPayload(s.rest.calls, m) && HasAllTransactions(s)
    requires P.Proposed(s.core) && Verifies(P.ProposedHeader(s.core), m.from, m.Signed())
    ensures OnPreCommit(cfg, s, m) == CheckPreCommit(cfg, t) && Ready(cfg, input, t)
    ensures t.core == s.core.(preCommits := s.core.preCommits[m.from := m])
    ensures t.rest.calls == s.rest.calls + 1 && HasAllTransactions(t)
  {
    hide P.Inv, P.Unforged, P.Reaches, Coherent, CheckPreCommit, CreatePreBlock, Survives, Keeps, ListOK;
    var u := Tick(s.(core := s.core.(preCommits := s.core.preCommits[m.from := m])));
    CoherenceCarries(s, u);
    StoredReady(cfg, input, s, P.StorePreCommit(m), u);
    PreHeaderIsMade(cfg, input, u);
    HeadersDo(cfg, input, u);
    t := CreatePreBlock(u);
  }

  lemma ConfirmsCarries(cfg: Config, s: State, t: State, r: State)
    requires s.core.me >= 0 && P.Proposed(s.core) && Confirms(cfg, s, r)
    requires t.core == s.core.(delivered := t.core.delivered) && t.rest.calls == s.rest.calls
    ensures Confirms(cfg, t, r)
  {
    hide Verifies;
  }

  /** The PreCommit that completes the quorum: with the pre-block accepted and the own PreCommit out, the Commit over
      the proposal goes out and is stored, and the block is processed if the Commits suffice and the ledger accepts. */
  lemma PreCommitArrives(cfg: Config, s: State, m: Payload)
    requires Ready(cfg, {m}, s) && Arrives(cfg, s, m) && m.body.PreCommit? && AntiMEV(cfg, s.core.height)
    requires m.from !in s.core.preCommits && cfg.verifyPayload(s.rest.calls, m)
    requires RequestKnown(s.core) && HasAllTransactions(s) && s.core.me in s.core.preCommits
    requires P.Proposed(s.core) && Verifies(P.ProposedHeader(s.core), m.from, m.Signed())
    requires ManyPreCommits(s.core.(preCommits := s.core.preCommits[m.from := m]))
    requires var c, k := s.core, s.rest.calls + 1;
      && (c.preBlockProcessed || cfg.processPreBlock(k, P.ProposedHeader(c)))
      && (c.me in c.commits || cfg.sign(if c.preBlockProcessed then k else k + 1))
    ensures var t := s.(core := s.core.(preCommits := s.core.preCommits[m.from := m]),
                        rest := s.rest.(calls := s.rest.calls + 1));
      Confirms(cfg, t, OnReceive(cfg, s, m))
  {
    hide P.Inv, P.Unforged, P.Reaches, Coherent, Voters, CheckPreCommit, Taken, OnReceive, Verifies, Confirms;
    hide OnPreCommit;
    ArrivesReady(cfg, s, m);
    var u := PreCommitIsCounted(cfg, {m}, Taken(s, m), m);
    PreCommitsConfirm(cfg, {m}, u);
    ConfirmsCarries(cfg, u, s.(core := s.core.(preCommits := s.core.preCommits[m.from := m]),
                               rest := s.rest.(calls := s.rest.calls + 1)), OnReceive(cfg, s, m));
  }

  lemma CommitIsCounted(cfg: Config, input: set<Payload>, s: State, m: Payload) returns (t: State)
    requires Ready(cfg, input, s) && Arrived(s, m) && m.view == s.core.view && m.body.Commit?
    requires m.from !in s.core.commits && cfg.verifyPayload(s.rest.calls, m) && HasAllTransactions(s)
    requires P.Proposed(s.core) && Verifies(P.ProposedHeader(s.core), m.from, m.Signed())
    requires AntiMEV(cfg, s.core.height) ==> s.core.preBlockProcessed
    ensures OnCommit(cfg, s, m) == CheckCommit(cfg, t) && Ready(cfg, input, t)
    ensures t.core == s.core.(commits := s.core.commits[m.from := m])
    ensures t.rest.calls == s.rest.calls + 1 && HasAllTransactions(t) && t.rest.offered == s.rest.offered
  {
    hide P.Inv, P.Unforged, P.Reaches, Coherent, CheckCommit, MakeHeader, Survives, Keeps, ListOK;
    var u := Tick(s.(core := s.core.(commits := s.core.commits[m.from := m])));
    CoherenceCarries(s, u);
    StoredReady(cfg, input, s, P.StoreCommit(m), u);
    HeaderIsMade(cfg, input, u);
    HeadersDo(cfg, input, u);
    t := MakeHeader(cfg, u);
  }

  /** The Commit that completes the quorum: the ledger is asked to process the proposal, and the block is processed,
      with the Commits that were counted, exactly when it accepts. */
  lemma CommitArrives(cfg: Config, s: State, m: Payload)
    requires Ready(cfg, {m}, s) && Arrives(cfg, s, m) && m.body.Commit?
    requires m.from !in s.core.commits && cfg.verifyPayload(s.rest.calls, m)
    requires RequestKnown(s.core) && HasAllTransactions(s)
    requires AntiMEV(cfg, s.core.height) ==> s.core.preBlockProcessed
    requires P.Proposed(s.core) && Verifies(P.ProposedHeader(s.core), m.from, m.Signed())
    requires ManyCommits(s.core.(commits := s.core.commits[m.from := m]))
    ensures var r, h, k := OnReceive(cfg, s, m), P.ProposedHeader(s.core), s.rest.calls + 1;
      && r.rest.offered == s.rest.offered + [Offer(k, h)]
      && if cfg.processBlock(k, h) then Finishes(s, r, h, s.core.commits[m.from := m]) else !r.core.blockProcessed
  {
    hide P.Inv, P.Unforged, P.Reaches, Coherent, Voters, CheckCommit, Taken, OnReceive, Verifies, OnCommit;
    ArrivesReady(cfg, s, m);
    var t := CommitIsCounted(cfg, {m}, Taken(s, m), m);
    QuorumFinishes(cfg, {m}, t);
  }

  // A response that fits: its sender has not prepared, and it answers the request if that is known.
  predicate FitsResponse(cfg: Config, s: State, m: Payload) {
    && m.from != s.core.primary && m.from !in s.core.preps && cfg.verifyPayload(s.rest.calls, m)
    && (!ViewChanging(cfg, s.core) || MoreThanFNodesCommittedOrLost(s))
    && (RequestKnown(s.core) ==> m.body.PrepareResponse? && m.body.preparation == s.core.preps[s.core.primary])
  }

  lemma ResponseIsCoherent(s: State, t: State, m: Payload)
    requires Coherent(s) && m.from != s.core.primary
    requires t == Tick(s.(core := s.core.(preps := s.core.preps[m.from := m])))
    ensures Coherent(t)
  {
  }

  lemma ResponseIsCounted(cfg: Config, input: set<Payload>, s: State, m: Payload)
    requires Ready(cfg, input, s) && Arrived(s, m) && m.view == s.core.view && m.body.PrepareResponse?
    ensures OnPrepareResponse(cfg, s, m).core.preps == if FitsResponse(cfg, s, m) then s.core.preps[m.from := m]
                                                       else s.core.preps
    ensures var t := Tick(s.(core := s.core.(preps := s.core.preps[m.from := m])));
      FitsResponse(cfg, s, m) ==>
        && Ready(cfg, input, t)
        && (RequestKnown(s.core) && !WatchOnly(cfg, s.core) && !Locked(cfg, s.core) ==>
              OnPrepareResponse(cfg, s, m) == CheckPrepare(cfg, t))
  {
    hide P.Unforged, P.Reaches, Coherent, CheckPrepare, Survives, Keeps, ListOK, MoreThanFNodesCommittedOrLost;
    hide P.History, P.MatchOK, P.CommitsOK, P.ViewsOK, P.WatchOK, P.LockOK, P.Remembered, P.PrepsOK, GetPrimaryIndex;
    if FitsResponse(cfg, s, m) {
      var t := Tick(s.(core := s.core.(preps := s.core.preps[m.from := m])));
      ResponseIsCoherent(s, t, m);
      StoredReady(cfg, input, s, P.StoreResponse(m), t);
    }
  }

  lemma TakenChangesNothing(cfg: Config, s: State, m: Payload)
    requires AtHand(s, m)
    ensures var t := Taken(s, m); t.rest.calls == s.rest.calls && HasAllTransactions(t) == HasAllTransactions(s)
  {
    hide See;
  }

  /** The response that completes the quorum: the own PreCommit goes out at an anti-MEV height and the own Commit at any
      other one, over the proposal, and whatever quorum that completes in turn is followed up. */
  lemma ResponseArrives(cfg: Config, s: State, m: Payload)
    requires Ready(cfg, {m}, s) && Arrives(cfg, s, m) && m.body.PrepareResponse?
    requires FitsResponse(cfg, Taken(s, m), m) && RequestKnown(s.core) && !Locked(cfg, s.core) && HasAllTransactions(s)
    requires ManyPreparations(s.core.(preps := s.core.preps[m.from := m])) && cfg.sign(s.rest.calls + 1)
    ensures var t := Tick(Taken(s, m)).(core := Taken(s, m).core.(preps := s.core.preps[m.from := m]));
      P.Proposed(t.core) && Signs(cfg, t, OnReceive(cfg, s, m))
  {
    hide P.Inv, P.Unforged, P.Reaches, Coherent, Voters, CheckPrepare, Taken, OnReceive, OnPrepareResponse, Signs;
    hide FitsResponse, See;
    ArrivesReady(cfg, s, m);
    TakenChangesNothing(cfg, s, m);
    ResponseIsCounted(cfg, {m}, Taken(s, m), m);
    PreparationsSign(cfg, {m}, Tick(Taken(s, m)).(core := Taken(s, m).core.(preps := s.core.preps[m.from := m])));
  }

  lemma NothingBuilt(cfg: Config, s: State)
    requires Coherent(s) && !RequestKnown(s.core)
    ensures s.rest.preHeader == s.rest.preBlock == s.rest.header == s.rest.block == None
  {
    hide MailOK, TransactionsOK, CompleteOK, ProposalOK, Filed;
  }

  /** A Commit or PreCommit of an earlier view, or one that comes before the request, is stored unverified. */
  lemma EarlySignatureIsStored(cfg: Config, s: State, m: Payload)
    requires Ready(cfg, {m}, s) && Active(cfg, s) && m.height == s.core.height && m.from < s.core.n
    requires || m.view < s.core.view
             || (m.view == s.core.view && !RequestKnown(s.core) && cfg.verifyPayload(s.rest.calls, m))
    requires m.body.Commit? || (m.body.PreCommit? && AntiMEV(cfg, s.core.height))
    ensures var c, r := s.core, OnReceive(cfg, s, m).core;
      r == if m.body.Commit?
           then c.(delivered := r.delivered,
                   commits := if m.from in c.commits then c.commits else c.commits[m.from := m])
           else c.(delivered := r.delivered,
                   preCommits := if m.from in c.preCommits then c.preCommits else c.preCommits[m.from := m])
  {
    hide P.Inv, P.Unforged, Coherent, Cache, See, OnPrepareRequest, OnPrepareResponse, OnChangeView, OnRecoveryMessage;
    hide OnRecoveryRequest, CheckCommit, CheckPreCommit, Verifies, MakeHeader, CreatePreBlock, HasAllTransactions;
    if m.view == s.core.view {
      NothingBuilt(cfg, s);
      var t := Taken(s, m);
      T.NothingToBuild(cfg, Tick(t.(core := t.core.(commits := t.core.commits[m.from := m]))));
      T.NothingToBuild(cfg, Tick(t.(core := t.core.(preCommits := t.core.preCommits[m.from := m]))));
    }
  }

  // The header that a Commit is checked against.
  lemma CommitMeetsHeader(cfg: Config, input: set<Payload>, s: State, m: Payload)
    requires Ready(cfg, input, s) && Arrived(s, m) && m.view == s.core.view && m.body.Commit?
    requires m.from !in s.core.commits
    ensures HeaderReady(cfg, s) ==> P.Proposed(s.core)
    ensures MakeHeader(cfg, Tick(s.(core := s.core.(commits := s.core.commits[m.from := m])))).rest.header
      == if HeaderReady(cfg, s) then Some(P.ProposedHeader(s.core)) else None
  {
    hide P.Inv, P.Unforged, P.Reaches, Coherent, Survives, Keeps, ListOK, Proposal;
    var t := Tick(s.(core := s.core.(commits := s.core.commits[m.from := m])));
    CoherenceCarries(s, t);
    StoredReady(cfg, input, s, P.StoreCommit(m), t);
    HeadersDo(cfg, input, t);
    var u := MakeHeader(cfg, t);
    if u.rest.header.Some? {
      CachedHeaderIsProposed(cfg, input, u, u.rest.header);
    }
  }

  // What the handler leaves of a signature that fits its header, and of one that is rejected.
  lemma CommitIsSifted(cfg: Config, input: set<Payload>, s: State, m: Payload)
    requires Ready(cfg, input, s) && Arrived(s, m) && m.view == s.core.view && m.body.Commit?
    requires m.from !in s.core.commits
    ensures HeaderReady(cfg, s) ==> P.Proposed(s.core)
    ensures var r := OnCommit(cfg, s, m).core;
      if cfg.verifyPayload(s.rest.calls, m)
         && (HeaderReady(cfg, s) ==> Verifies(P.ProposedHeader(s.core), m.from, m.Signed()))
      then r.commits == s.core.commits[m.from := m] else r == s.core
  {
    hide Ready, CheckCommit, Verifies, HeaderReady, MakeHeader, P.Proposed;
    CommitMeetsHeader(cfg, input, s, m);
    BlockOnly(cfg, MakeHeader(cfg, Tick(s.(core := s.core.(commits := s.core.commits[m.from := m])))));
  }

  lemma PreCommitsRest(cfg: Config, s: State)
    ensures CheckPreCommit(cfg, s).core.preCommits == s.core.preCommits
    ensures forall t: State :: CheckCommit(cfg, t).core.preCommits == t.core.preCommits
  {
    hide CreatePreBlock, Voters, HasAllTransactions, Genuine, CheckCommit, AnyInView;
    forall t: State
      ensures CheckCommit(cfg, t).core.preCommits == t.core.preCommits
    {
      BlockOnly(cfg, t);
    }
  }

  lemma PreCommitIsSifted(cfg: Config, input: set<Payload>, s: State, m: Payload)
    requires Ready(cfg, input, s) && Arrived(s, m) && m.view == s.core.view && m.body.PreCommit?
    requires m.from !in s.core.preCommits
    ensures RequestKnown(s.core) ==> P.Proposed(s.core)
    ensures var r := OnPreCommit(cfg, s, m).core;
      if cfg.verifyPayload(s.rest.calls, m) && (RequestKnown(s.core) && HasAllTransactions(s) ==>
           Verifies(P.ProposedHeader(s.core), m.from, m.Signed()))
      then r.preCommits == s.core.preCommits[m.from := m] else r == s.core
  {
    hide P.Inv, P.Unforged, P.Reaches, Coherent, CheckPreCommit, Survives, Keeps, ListOK, Verifies, Proposal;
    hide HasAllTransactions, CreatePreBlock;
    var t := Tick(s.(core := s.core.(preCommits := s.core.preCommits[m.from := m])));
    CoherenceCarries(s, t);
    StoredReady(cfg, input, s, P.StorePreCommit(m), t);
    PreCommitsRest(cfg, CreatePreBlock(t));
    if RequestKnown(s.core) {
      KnownIsProposed(cfg, input, s);
      PreHeaderIsMade(cfg, input, t);
    } else {
      NothingBuilt(cfg, s);
      T.NothingToBuild(cfg, t);
    }
  }

  /** A Commit of the view is stored if and only if the application lets it pass and it signs the proposal, or no header
      can be built yet; a rejected one leaves no trace in the protocol state. */
  lemma CommitIsVerified(cfg: Config, s: State, m: Payload)
    requires Ready(cfg, {m}, s) && AtHand(s, m) && m.body.Commit? && m.from !in s.core.commits
    ensures HeaderReady(cfg, s) ==> P.Proposed(s.core)
    ensures var c, r := s.core, OnReceive(cfg, s, m).core;
      if cfg.verifyPayload(s.rest.calls, m)
         && (HeaderReady(cfg, s) ==> Verifies(P.ProposedHeader(c), m.from, m.Signed()))
      then r.commits == c.commits[m.from := m] else r == c.(delivered := r.delivered)
  {
    hide P.Inv, P.Unforged, P.Reaches, Coherent, Taken, OnReceive, OnCommit, Verifies;
    ArrivesReady(cfg, s, m);
    CommitIsSifted(cfg, {m}, Taken(s, m), m);
  }

  /** A PreCommit of the view is stored if and only if the application lets it pass and it signs the proposal, or the
      proposal is not complete yet; a rejected one leaves no trace in the protocol state. */
  lemma PreCommitIsVerified(cfg: Config, s: State, m: Payload)
    requires Ready(cfg, {m}, s) && AtHand(s, m) && m.body.PreCommit? && AntiMEV(cfg, s.core.height)
    requires m.from !in s.core.preCommits
    ensures RequestKnown(s.core) ==> P.Proposed(s.core)
    ensures var c, r := s.core, OnReceive(cfg, s, m).core;
      if cfg.verifyPayload(s.rest.calls, m)
         && (RequestKnown(c) && HasAllTransactions(s) ==> Verifies(P.ProposedHeader(c), m.from, m.Signed()))
      then r.preCommits == c.preCommits[m.from := m] else r == c.(delivered := r.delivered)
  {
    hide P.Inv, P.Unforged, P.Reaches, Coherent, Taken, OnReceive, OnPreCommit, Verifies;
    ArrivesReady(cfg, s, m);
    TakenChangesNothing(cfg, s, m);
    PreCommitIsSifted(cfg, {m}, Taken(s, m), m);
  }

  // ---- requests ----

  // The number of questions to the memory pool about these transactions.
  function Lookups(cfg: Config, k: nat, txs: seq<Hash>, have: set<Hash>): nat
    decreases |txs|
  {
    if txs == [] then 0
    else if txs[0] in have then Lookups(cfg, k, txs[1..], have)
    else 1 + Lookups(cfg, k + 1, txs[1..], if cfg.getTx(k, txs[0]) then have + {txs[0]} else have)
  }

  lemma {:induction false} LookupsCount(cfg: Config, s: State, txs: seq<Hash>)
    ensures ProcessMissingTx(cfg, s, txs).rest.calls
         == s.rest.calls + Lookups(cfg, s.rest.calls, txs, s.rest.transactions)
    decreases |txs|
  {
    if txs != [] {
      var h := txs[0];
      var s1 :=
        if h in s.rest.transactions then s
        else if cfg.getTx(s.rest.calls, h) then
          Tick(s).(rest := Tick(s).rest.(transactions := s.rest.transactions + {h}))
        else
          Tick(s).(rest := Tick(s).rest.(missing := s.rest.missing + [h]));
      LookupsCount(cfg, s1, txs[1..]);
    }
  }

  lemma Unanswered(s: State, q: Payload)
    requires !RequestKnown(s.core)
    ensures s.core.primary !in Answering(s.core.preps, s.core.n, q)
  {
  }

  // The proposal enters the context, and the pool answers for its transactions.
  lemma AdoptsAll(cfg: Config, s: State, q: Payload)
    requires Coherent(s) && !RequestKnown(s.core) && q.body.PrepareRequest?
    ensures var r, k := AdoptRequest(cfg, s, q), s.rest.calls;
      && r.core == s.core.(preps := Answering(s.core.preps, s.core.n, q)[q.from := q])
      && r.rest.txs == q.body.txs && r.rest.transactions == T.Found(cfg, k, q.body.txs, {})
      && r.rest.missing == T.Unfound(cfg, k, q.body.txs, {})
      && r.rest.calls == k + Lookups(cfg, k, q.body.txs, {})
  {
    hide HasAllTransactions, VerifyPreCommits, VerifyCommits, MailOK, AntiMEV, CompleteOK, Filed, Answering;
    EarlyCommitsStay(cfg, s, q);
    var s1 := s.(rest := s.rest.(timestamp := q.body.timestamp, nonce := q.body.nonce, txs := q.body.txs));
    var s2 := ProcessMissingTx(cfg, s1, q.body.txs);
    T.PoolAnswers(cfg, s1, q.body.txs);
    LookupsCount(cfg, s1, q.body.txs);
    MissingTxOnly(cfg, s1, q.body.txs);
    Unanswered(s, q);
    NothingToVerify(cfg, s2.(core := s2.core.(preps := Answering(s2.core.preps, s2.core.n, q))));
  }

  // No proposal of the view of s is answered up to r.
  predicate AnswersNothing(s: State, r: State) {
    forall i :: |s.core.sent| <= i < |r.core.sent| && r.core.sent[i].body.PrepareResponse? ==>
      r.core.sent[i].height != s.core.height || r.core.sent[i].view != s.core.view
  }

  // The first broadcast asks for the next view.
  ghost predicate AsksNext(s: State, r: State, reason: Reason)
    requires s.core.me >= 0
  {
    && AnswersNothing(s, r)
    && BroadcastsFirst(s, r, Own(s.core, ChangeView(if s.core.view == 255 then 0 else s.core.view + 1, reason)))
  }

  lemma EnteredView(s: State, view: byte)
    requires view > s.core.view
    ensures var t := TakeMail(ResetView(s, view, s.rest.lastTimestamp)).core;
      t.sent == s.core.sent && t.height == s.core.height && t.view == view
  {
  }

  // What is broadcast from the new view on belongs to it, or to a later one.
  lemma ReplayAnswersNothing(cfg: Config, input: set<Payload>, s: State, view: byte)
    requires Ready(cfg, input, s) && !s.core.blockProcessed && !Locked(cfg, s.core) && view > s.core.view
    requires |Voters(s.core.changeViews, s.core.n, AsksFor(view))| >= M(s.core.n)
    ensures var r := Initialize(cfg, ResetView(s, view, s.rest.lastTimestamp));
      s.core.sent <= r.core.sent && AnswersNothing(s, r)
  {
    hide P.Inv, P.Unforged, P.Reaches, Coherent, ResetView, CachedMail, TakeMail, ReceiveAll, Survives, ListOK;
    hide Approved;
    hide Remembers, SparesSigned, Voters, P.Evolves;
    EnterViewDoes(cfg, input, s, view);
    EnteredView(s, view);
    var t := ResetView(s, view, s.rest.lastTimestamp);
    ReceiveAllDoes(cfg, input, TakeMail(t), CachedMail(cfg, t));
  }

  lemma FollowingAnswersNothing(cfg: Config, input: set<Payload>, s: State, view: byte)
    requires Ready(cfg, input, s) && !s.core.blockProcessed && !Locked(cfg, s.core)
    ensures AnswersNothing(s, CheckChangeView(cfg, s, view))
  {
    hide P.Inv, P.Unforged, P.Reaches, Coherent, Initialize, Does, Ready;
    var c := s.core;
    if c.view < view && |Voters(c.changeViews, c.n, AsksFor(view))| >= M(c.n) {
      if !WatchOnly(cfg, c) && c.me in c.changeViews && c.changeViews[c.me].NewView() < view {
        AskViewDoes(cfg, input, s, CVChangeAgreement);
        var t := MakeChangeView(s, CVChangeAgreement);
        DoesReady(cfg, input, s, t);
        SubsetSize(Voters(c.changeViews, c.n, AsksFor(view)), Voters(t.core.changeViews, c.n, AsksFor(view)));
        ReplayAnswersNothing(cfg, input, t, view);
      } else {
        ReplayAnswersNothing(cfg, input, s, view);
      }
    }
  }

  lemma ViewIsAsked(cfg: Config, input: set<Payload>, s: State, reason: Reason)
    requires Ready(cfg, input, s) && !s.core.blockProcessed && !WatchOnly(cfg, s.core) && !Locked(cfg, s.core)
    requires reason != CVTimeout
    ensures AsksNext(s, SendChangeView(cfg, s, reason), reason)
  {
    hide P.Inv, P.Unforged, P.Reaches, Coherent, CheckChangeView, Survives, ListOK, Approved;
    var t := MakeChangeView(s, reason);
    AskViewDoes(cfg, input, s, reason);
    CheckChangeViewDoes(cfg, input, t, NextView(s.core.view));
    FollowingAnswersNothing(cfg, input, t, NextView(s.core.view));
    FirstStays(s, t, SendChangeView(cfg, s, reason), t.core.sent[|s.core.sent|]);
  }

  // What follows a complete proposal: an answer if the application approves its block, at callback k, and else a
  // ChangeView.
  ghost predicate Answered(cfg: Config, s: State, r: State, req: Payload, k: nat)
    requires s.core.me >= 0 && req.body.PrepareRequest?
  {
    var me, p := s.core.me, Own(s.core, PrepareResponse(req));
    if cfg.verifyBlock(k, HeaderOf(req)) then
      && BroadcastsFirst(s, r, p) && me in r.core.preps && r.core.preps[me] == p && r.core.view == s.core.view
      && (ManyPreparations(s.core.(preps := s.core.preps[me := p])) && cfg.sign(k + 1) ==>
            if AntiMEV(cfg, s.core.height) then me in r.core.preCommits else me in r.core.commits)
    else AsksNext(s, r, CVTxInvalid)
  }

  // A backup with a complete proposal that it has not answered.
  ghost predicate MayAnswer(cfg: Config, s: State) {
    && !s.core.blockProcessed && !WatchOnly(cfg, s.core) && !Locked(cfg, s.core) && IsBackup(s.core)
    && P.Proposed(s.core) && s.core.me !in s.core.preps && HasAllTransactions(s)
  }

  lemma VerdictCounts(cfg: Config, input: set<Payload>, s: State)
    requires Ready(cfg, input, s) && MayAnswer(cfg, s)
    ensures BlockOK(cfg, s) <==> cfg.verifyBlock(s.rest.calls, P.ProposedHeader(s.core))
    ensures var t := Tick(BuildBlock(cfg, s));
      && t.core == s.core && t.rest.calls == s.rest.calls + 1 && HasAllTransactions(t) && Does(cfg, input, s, t)
      && Approved(cfg, s.rest.calls, t.rest.calls, s.core.preps[s.core.primary]) == BlockOK(cfg, s)
      && CreateAndCheckBlock(cfg, s) == if BlockOK(cfg, s) then t else SendChangeView(cfg, t, CVTxInvalid)
  {
    hide P.Inv, P.Unforged, P.Reaches, Coherent, CreateBlock, CreatePreBlock, SendChangeView, Survives, Keeps;
    hide Accounted;
    BuiltIsRequested(cfg, input, s);
    HeadersDo(cfg, input, s);
    var b := BuildBlock(cfg, s);
    CoherenceCarries(b, Tick(b));
    IsQuiet(cfg, b, Tick(b));
    Stutter(cfg, input, b, Tick(b));
    Then(cfg, input, s, b, Tick(b));
  }

  lemma SameCompleteness(s: State, t: State)
    requires t.rest == s.rest && HasAllTransactions(s)
    ensures HasAllTransactions(t)
  {
  }

  lemma ResponseGoesOut(cfg: Config, input: set<Payload>, s: State, t: State, u: State)
    requires Ready(cfg, input, s) && MayAnswer(cfg, s) && Ready(cfg, input, t) && Does(cfg, input, s, t)
    requires t.core == s.core.(preCommits := t.core.preCommits)
    requires Approved(cfg, s.rest.calls, t.rest.calls, s.core.preps[s.core.primary])
    requires u == SendPrepareResponse(t)
    ensures Does(cfg, input, s, u)
  {
    hide P.Unforged, P.Reaches, P.History, Survives, Keeps, ListOK, HasAllTransactions, Approved, Does;
    hide P.MatchOK, P.CommitsOK, P.ViewsOK, P.WatchOK, P.LockOK, P.Remembered;
    AnswerDoes(cfg, input, s, t, Own(t.core, PrepareResponse(t.core.preps[t.core.primary])), u);
  }

  // The answer, and the signature if it completes the quorum.
  lemma AnswerGoesOut(cfg: Config, input: set<Payload>, s: State, t: State)
    requires Ready(cfg, input, s) && MayAnswer(cfg, s) && cfg.verifyBlock(s.rest.calls, P.ProposedHeader(s.core))
    requires Does(cfg, input, s, t) && t.core == s.core.(preCommits := t.core.preCommits) && HasAllTransactions(t)
    requires !Locked(cfg, t.core) && t.rest.calls == s.rest.calls + 1
    ensures Answered(cfg, s, Respond(cfg, t), s.core.preps[s.core.primary], s.rest.calls)
  {
    hide P.Inv, P.Unforged, P.Reaches, Coherent, Survives, Keeps, ListOK, CheckPrepare, HasAllTransactions;
    var c, req := s.core, s.core.preps[s.core.primary];
    var p, u, r := Own(c, PrepareResponse(req)), SendPrepareResponse(t), Respond(cfg, t);
    assert Approved(cfg, s.rest.calls, t.rest.calls, req);
    DoesReady(cfg, input, s, t);
    ResponseGoesOut(cfg, input, s, t, u);
    DoesReady(cfg, input, s, u);
    CheckPrepareDoes(cfg, input, u);
    SlotStays(cfg, input, u, r);
    FirstStays(s, u, r, p);
    if ManyPreparations(u.core) && cfg.sign(u.rest.calls) {
      SameCompleteness(t, u);
      PreparationsSign(cfg, input, u);
    }
  }

  lemma RefusalAsks(cfg: Config, input: set<Payload>, s: State)
    requires Ready(cfg, input, s) && MayAnswer(cfg, s) && !cfg.verifyBlock(s.rest.calls, P.ProposedHeader(s.core))
    ensures AsksNext(s, CreateAndCheckBlock(cfg, s), CVTxInvalid)
  {
    hide P.Inv, P.Unforged, P.Reaches, Coherent, SendChangeView, BuildBlock, Does, BlockOK, CreateAndCheckBlock;
    VerdictCounts(cfg, input, s);
    DoesReady(cfg, input, s, Tick(BuildBlock(cfg, s)));
    ViewIsAsked(cfg, input, Tick(BuildBlock(cfg, s)), CVTxInvalid);
  }

  lemma NothingSigned(cfg: Config, input: set<Payload>, s: State)
    requires Ready(cfg, input, s) && !RequestKnown(s.core)
    ensures !Locked(cfg, s.core)
    ensures s.core.me != s.core.primary ==> s.core.me !in s.core.preps
  {
    hide P.Unforged, Coherent, P.History, P.MatchOK, P.CommitsOK, P.ViewsOK, P.WatchOK, P.Remembered;
  }

  // The request of the view, as long as none is known.
  predicate IsRequest(s: State, q: Payload) {
    q.body.PrepareRequest? && q.from == s.core.primary && q.height == s.core.height && q.view == s.core.view
  }

  // What a node does with the first request of its view, from callback k on.
  ghost predicate TakesUp(cfg: Config, s: State, r: State, q: Payload)
    requires s.core.me >= 0 && q.body.PrepareRequest?
  {
    var c, k, txs := s.core, s.rest.calls, q.body.txs;
    var found, lookups := T.Found(cfg, k + 1, txs, {}), Lookups(cfg, k + 1, txs, {});
    var adopted := s.(core := c.(preps := Answering(c.preps, c.n, q)[q.from := q]));
    if !cfg.verifyPayload(k, q) then AsksNext(s, r, CVBlockRejectedByPolicy)
    else if |txs| != |found| then
      && r.core == adopted.core.(delivered := r.core.delivered) && r.rest.txs == txs && r.rest.transactions == found
      && r.rest.missing == T.Unfound(cfg, k + 1, txs, {})
    else Answered(cfg, adopted, r, q, k + 1 + lookups)
  }

  lemma AnsweredCarries(cfg: Config, s: State, t: State, r: State, q: Payload, k: nat)
    requires s.core.me >= 0 && q.body.PrepareRequest? && Answered(cfg, s, r, q, k) && t.core == s.core
    ensures Answered(cfg, t, r, q, k)
  {
    hide Voters, AntiMEV;
  }

  lemma RefusalIsAnswer(cfg: Config, s: State, r: State, q: Payload, k: nat)
    requires s.core.me >= 0 && q.body.PrepareRequest? && AsksNext(s, r, CVTxInvalid) && !cfg.verifyBlock(k, HeaderOf(q))
    ensures Answered(cfg, s, r, q, k)
  {
  }

  lemma AdoptedIsAnswered(cfg: Config, input: set<Payload>, s: State, u: State, q: Payload)
    requires Ready(cfg, input, u) && u.core == s.core && IsRequest(s, q) && !RequestKnown(s.core) && q.from < s.core.n
    requires !WatchOnly(cfg, s.core) && IsBackup(s.core) && !Locked(cfg, s.core) && !s.core.blockProcessed
    requires s.core.me !in s.core.preps
    requires Ready(cfg, input, AdoptRequest(cfg, u, q)) && HasAllTransactions(AdoptRequest(cfg, u, q))
    ensures var v := AdoptRequest(cfg, u, q);
      var w := CreateAndCheckBlock(cfg, v);
      var r := if !BlockOK(cfg, v) || WatchOnly(cfg, w.core) then w else Respond(cfg, w);
      var adopted := s.(core := s.core.(preps := Answering(s.core.preps, s.core.n, q)[q.from := q]));
      Answered(cfg, adopted, r, q, v.rest.calls)
  {
    hide P.Inv, P.Unforged, P.Reaches, Coherent, AdoptRequest, CreateAndCheckBlock, Respond, BlockOK, Survives, Keeps;
    hide HasAllTransactions, BuildBlock, Does, Answered;
    var v := AdoptRequest(cfg, u, q);
    var adopted := s.(core := s.core.(preps := Answering(s.core.preps, s.core.n, q)[q.from := q]));
    AdoptsAll(cfg, u, q);
    assert MayAnswer(cfg, v);
    VerdictCounts(cfg, input, v);
    if BlockOK(cfg, v) {
      AnswerGoesOut(cfg, input, v, Tick(BuildBlock(cfg, v)));
      AnsweredCarries(cfg, v, adopted, Respond(cfg, Tick(BuildBlock(cfg, v))), q, v.rest.calls);
    } else {
      RefusalAsks(cfg, input, v);
      RefusalIsAnswer(cfg, adopted, CreateAndCheckBlock(cfg, v), q, v.rest.calls);
    }
  }

  lemma RequestIsTakenUp(cfg: Config, input: set<Payload>, s: State, q: Payload)
    requires Ready(cfg, input, s) && Arrived(s, q) && IsRequest(s, q) && !RequestKnown(s.core)
    requires !WatchOnly(cfg, s.core) && IsBackup(s.core)
    ensures TakesUp(cfg, s, OnPrepareRequest(cfg, s, q), q)
  {
    hide P.Unforged, P.Reaches, Coherent, AdoptRequest, CreateAndCheckBlock, SendChangeView, Respond, BlockOK, Survives;
    hide P.History, P.PrepsOK, P.MatchOK, P.CommitsOK, P.ViewsOK, P.WatchOK, P.LockOK, P.Remembered, Keeps, ListOK;
    hide Answering, Answered, Lookups, T.Found, T.Unfound, BuildBlock, AntiMEV;
    var u := Tick(s);
    NothingSigned(cfg, input, s);
    CoherenceCarries(s, u);
    if !cfg.verifyPayload(s.rest.calls, q) {
      ViewIsAsked(cfg, input, u, CVBlockRejectedByPolicy);
    } else {
      var v := AdoptRequest(cfg, u, q);
      AdoptsAll(cfg, u, q);
      AdoptDoes(cfg, input, u, q);
      DoesReady(cfg, input, u, v);
      if HasAllTransactions(v) {
        AdoptedIsAnswered(cfg, input, s, u, q);
      }
    }
  }

  lemma TakesUpCarries(cfg: Config, s: State, t: State, r: State, q: Payload)
    requires s.core.me >= 0 && q.body.PrepareRequest? && TakesUp(cfg, s, r, q)
    requires t.core == s.core.(delivered := t.core.delivered) && t.rest.calls == s.rest.calls
    ensures TakesUp(cfg, t, r, q)
  {
    hide Answering, Lookups, T.Found, T.Unfound, AntiMEV, Voters;
  }

  /** A backup that gets the first request of its view asks for the next view if it refuses the request, waits if the
      pool lacks transactions, and else puts the block to the application: if that approves, it answers, and signs if
      this completes the quorum; if not, it asks for the next view. */
  lemma RequestArrives(cfg: Config, s: State, q: Payload)
    requires Ready(cfg, {q}, s) && Arrives(cfg, s, q) && IsRequest(s, q) && !RequestKnown(s.core) && IsBackup(s.core)
    ensures TakesUp(cfg, s, OnReceive(cfg, s, q), q)
  {
    hide P.Inv, P.Unforged, P.Reaches, Coherent, Taken, OnReceive, OnPrepareRequest, TakesUp;
    ArrivesReady(cfg, s, q);
    RequestIsTakenUp(cfg, {q}, Taken(s, q), q);
    TakesUpCarries(cfg, Taken(s, q), s, OnReceive(cfg, s, q), q);
  }

  // ---- transactions ----

  lemma OwnPreCommitSigns(cfg: Config, input: set<Payload>, s: State)
    requires Ready(cfg, input, s) && P.Proposed(s.core) && s.core.me >= 0
    requires AllSign(s.core.preCommits, s.core.n, s.core.view, P.ProposedHeader(s.core))
    ensures AllSign(SendPreCommit(cfg, s).core.preCommits, s.core.n, s.core.view, P.ProposedHeader(s.core))
  {
    hide P.Inv, P.Unforged, Coherent, CreatePreBlock, P.Proposed;
    PreHeaderIsMade(cfg, input, s);
  }

  // Signing adds at most the own PreCommit, over the proposal.
  lemma OwnAdded(cfg: Config, input: set<Payload>, s: State)
    requires Ready(cfg, input, s) && P.Proposed(s.core) && s.core.me >= 0
    requires AllSign(s.core.preCommits, s.core.n, s.core.view, P.ProposedHeader(s.core))
    ensures AllSign(CheckPrepare(cfg, s).core.preCommits, s.core.n, s.core.view, P.ProposedHeader(s.core))
  {
    hide P.Inv, P.Unforged, Coherent, CheckPreCommit, CheckCommit, Voters, HasAllTransactions, MakeHeader, P.Proposed;
    hide AllSign, SendPreCommit, P.Reaches, CreatePreBlock, Ready;
    OwnPreCommitSigns(cfg, input, s);
    PreCommitsRest(cfg, SendPreCommit(cfg, s));
  }

  // At an anti-MEV height only the PreCommits that sign the pre-block are left.
  lemma OnlyGenuineLeft(cfg: Config, input: set<Payload>, s: State)
    requires Ready(cfg, input, s) && P.Proposed(s.core) && HasAllTransactions(s)
    ensures AllSign(VerifyPreCommits(s).core.preCommits, s.core.n, s.core.view, P.ProposedHeader(s.core))
  {
    hide P.Inv, P.Unforged, Coherent, CreatePreBlock, P.Proposed, Verifies;
    PreHeaderIsMade(cfg, input, s);
  }

  lemma GenuineAfterwards(cfg: Config, input: set<Payload>, s: State, t: State)
    requires Ready(cfg, input, s) && MayAnswer(cfg, s) && cfg.verifyBlock(s.rest.calls, P.ProposedHeader(s.core))
    requires Does(cfg, input, s, t) && t.core == s.core.(preCommits := t.core.preCommits)
    requires t.rest.calls == s.rest.calls + 1
    requires AllSign(t.core.preCommits, s.core.n, s.core.view, P.ProposedHeader(s.core))
    ensures AllSign(Respond(cfg, t).core.preCommits, s.core.n, s.core.view, P.ProposedHeader(s.core))
  {
    hide P.Inv, P.Unforged, P.Reaches, Coherent, Survives, Keeps, ListOK, CheckPrepare, HasAllTransactions, Verifies;
    var u := SendPrepareResponse(t);
    assert Approved(cfg, s.rest.calls, t.rest.calls, s.core.preps[s.core.primary]);
    DoesReady(cfg, input, s, t);
    ResponseGoesOut(cfg, input, s, t, u);
    DoesReady(cfg, input, s, u);
    OwnAdded(cfg, input, u);
  }

  lemma CollectedReady(cfg: Config, s: State, tx: Hash)
    requires Ready(cfg, {}, s) && RequestKnown(s.core) && tx in s.rest.missing && !s.core.blockProcessed
    ensures Ready(cfg, {}, T.Collected(s, tx))
  {
    hide P.Inv, P.Unforged;
  }

  lemma PreCommitsDropped(s: State)
    ensures var r := VerifyPreCommits(s);
      && r.core == s.core.(preCommits := r.core.preCommits) && r.core.preCommits.Keys <= s.core.preCommits.Keys
      && r.rest.calls == s.rest.calls && HasAllTransactions(r) == HasAllTransactions(s)
  {
    hide AnyInView, Verifies;
  }

  lemma CollectedAnswers(cfg: Config, s: State, tx: Hash)
    requires Ready(cfg, {}, s) && Active(cfg, s) && IsBackup(s.core) && RequestKnown(s.core) && P.Proposed(s.core)
    requires s.core.me !in s.core.preps && !Locked(cfg, s.core) && HasAllTransactions(T.Collected(s, tx))
    requires AwaitsTransactions(cfg, s) && tx in s.rest.missing
    ensures Answered(cfg, s, AddTransaction(cfg, s, tx), s.core.preps[s.core.primary], s.rest.calls)
    ensures var c, h := s.core, P.ProposedHeader(s.core);
      cfg.verifyBlock(s.rest.calls, h) ==> AllSign(AddTransaction(cfg, s, tx).core.preCommits, c.n, c.view, h)
  {
    hide P.Inv, P.Unforged, P.Reaches, Coherent, CreateAndCheckBlock, Respond, BlockOK, Survives, Keeps, Does;
    hide HasAllTransactions, BuildBlock, VerifyPreCommits, AwaitsTransactions;
    var u := T.Collected(s, tx);
    CollectedReady(cfg, s, tx);
    VerdictCounts(cfg, {}, u);
    if BlockOK(cfg, u) {
      var v := Tick(BuildBlock(cfg, u));
      DoesReady(cfg, {}, u, v);
      VerifyPreCommitsDoes(cfg, {}, v);
      Then(cfg, {}, u, v, VerifyPreCommits(v));
      PreCommitsDropped(v);
      AnswerGoesOut(cfg, {}, u, VerifyPreCommits(v));
      OnlyGenuineLeft(cfg, {}, v);
      GenuineAfterwards(cfg, {}, u, VerifyPreCommits(v));
    } else {
      RefusalAsks(cfg, {}, u);
    }
  }

  // Taking the transaction off the list leaves the protocol state alone.
  lemma ListTakesOff(cfg: Config, s: State, tx: Hash)
    requires AwaitsTransactions(cfg, s) && tx in s.rest.missing && !s.rest.crashed
    ensures OnTransaction(cfg, s, tx).core == AddTransaction(cfg, s, tx).core
  {
    hide AddTransaction, AwaitsTransactions, IndexOf;
  }

  lemma TransactionWaits(cfg: Config, s: State, tx: Hash)
    requires AwaitsTransactions(cfg, s) && tx in s.rest.missing && !s.rest.crashed
    requires |s.rest.txs| != |s.rest.transactions + {tx}|
    ensures var r := OnTransaction(cfg, s, tx);
      && r.core == s.core && r.rest.transactions == s.rest.transactions + {tx}
      && multiset(r.rest.missing) == multiset(s.rest.missing) - multiset{tx}
  {
    hide CreateAndCheckBlock, Respond, BlockOK, VerifyPreCommits, IndexOf, AwaitsTransactions;
    var i := IndexOf(s.rest.missing, tx);
    assert s.rest.missing == s.rest.missing[..i] + [tx] + s.rest.missing[i + 1..];
  }

  lemma Waiting(cfg: Config, s: State, tx: Hash)
    requires Active(cfg, s) && IsBackup(s.core) && RequestKnown(s.core)
    requires s.core.me !in s.core.preps && !Locked(cfg, s.core) && tx in s.rest.missing
    requires !ViewChanging(cfg, s.core) || MoreThanFNodesCommittedOrLost(s)
    ensures AwaitsTransactions(cfg, s)
  {
    hide MoreThanFNodesCommittedOrLost, ViewChanging;
  }

  /** A missing transaction that comes to a waiting backup is collected and leaves the list; the one that completes the
      proposal has its block put to the application, and the node answers or asks for the next view. With the answer it
      throws away the PreCommits of its view that do not sign the proposal. */
  lemma TransactionArrives(cfg: Config, s: State, tx: Hash)
    requires Ready(cfg, {}, s) && Active(cfg, s) && IsBackup(s.core) && RequestKnown(s.core)
    requires s.core.me !in s.core.preps && !Locked(cfg, s.core) && tx in s.rest.missing
    requires !ViewChanging(cfg, s.core) || MoreThanFNodesCommittedOrLost(s)
    ensures P.Proposed(s.core)
    ensures var r := OnTransaction(cfg, s, tx);
      if |s.rest.txs| == |s.rest.transactions + {tx}|
      then
        && Answered(cfg, s, r, s.core.preps[s.core.primary], s.rest.calls)
        && (cfg.verifyBlock(s.rest.calls, P.ProposedHeader(s.core)) ==>
              AllSign(r.core.preCommits, s.core.n, s.core.view, P.ProposedHeader(s.core)))
      else
        && r.core == s.core && r.rest.transactions == s.rest.transactions + {tx}
        && multiset(r.rest.missing) == multiset(s.rest.missing) - multiset{tx}
  {
    hide P.Inv, P.Unforged, P.Reaches, Coherent, AddTransaction, OnTransaction, MoreThanFNodesCommittedOrLost;
    hide ViewChanging;
    hide AwaitsTransactions, T.Leaves;
    KnownIsProposed(cfg, {}, s);
    Waiting(cfg, s, tx);
    if |s.rest.txs| == |s.rest.transactions + {tx}| {
      ListTakesOff(cfg, s, tx);
      CollectedAnswers(cfg, s, tx);
    } else {
      TransactionWaits(cfg, s, tx);
    }
  }

  // ---- timeouts ----

  // The number of the callback at which the primary gets its transactions, if it proposes at once.
  function ProposalCall(cfg: Config, s: State, force: bool): nat {
    if !cfg.dynamicBlockTime || s.core.view != 0 || s.rest.txSubscription || force
       || cfg.getVerified(s.rest.calls) != [] then s.rest.calls
    else s.rest.calls + 1
  }

  // With a maximal block time the primary of view 0 waits, once, while the pool has nothing.
  predicate ProposesNow(cfg: Config, s: State, force: bool) {
    || !cfg.dynamicBlockTime || s.core.view != 0 || s.rest.txSubscription || force
    || cfg.getVerified(s.rest.calls) != [] || cfg.getVerified(s.rest.calls + 1) != []
  }

  // A proposal is for what the pool holds, and later than the last block and not before the clock.
  ghost predicate ProposesAt(cfg: Config, s: State, r: State, k: nat, ts: nat)
    requires s.core.me >= 0
  {
    var me, txs, last := s.core.me, cfg.getVerified(k), s.rest.lastTimestamp + cfg.timestampIncrement;
    var p := Own(s.core, PrepareRequest(ts, cfg.random(k), txs));
    && ts == (if cfg.now(k) > last then cfg.now(k) else last)
    && BroadcastsFirst(s, r, p) && me in r.core.preps && r.core.preps[me] == p
    && r.rest.txs == txs && !r.rest.txSubscription && r.core.view == s.core.view
    && (|set h | h in txs| == |txs| && ManyPreparations(s.core.(preps := s.core.preps[me := p])) && cfg.sign(k + 1) ==>
          if AntiMEV(cfg, s.core.height) then me in r.core.preCommits else me in r.core.commits)
  }

  ghost predicate Proposes(cfg: Config, s: State, r: State, k: nat)
    requires s.core.me >= 0
  {
    exists ts: nat :: ProposesAt(cfg, s, r, k, ts)
  }

  lemma ProposedReady(cfg: Config, input: set<Payload>, s: State, p: Payload, r: State)
    requires Ready(cfg, input, s) && !s.core.blockProcessed && IsPrimary(s.core) && !RequestKnown(s.core)
    requires s.core.me >= 0
    requires var u := Fill(cfg, s);
      && p == Own(u.core, PrepareRequest(u.rest.timestamp, u.rest.nonce, u.rest.txs))
      && r == u.(core := u.core.(preps := u.core.preps[u.core.me := p], sent := u.core.sent + [p]),
                 rest := u.rest.(txSubscription := false))
    ensures Ready(cfg, input, r)
  {
    hide P.Inv, P.Unforged, P.Reaches;
    P.StepKeepsInv(cfg, input, s.core, P.Propose(p), r.core);
  }

  lemma FilledIsProposed(cfg: Config, input: set<Payload>, s: State)
    requires Ready(cfg, input, s) && !s.core.blockProcessed && !WatchOnly(cfg, s.core)
    requires IsPrimary(s.core) && !RequestKnown(s.core)
    ensures Proposes(cfg, s, SendFilledRequest(cfg, s), s.rest.calls)
  {
    hide P.Inv, P.Unforged, P.Reaches, CheckPrepare, Survives, Keeps, ListOK;
    var u := Fill(cfg, s);
    var p := Own(u.core, PrepareRequest(u.rest.timestamp, u.rest.nonce, u.rest.txs));
    var v := u.(core := u.core.(preps := u.core.preps[u.core.me := p], sent := u.core.sent + [p]),
                rest := u.rest.(txSubscription := false));
    ProposedReady(cfg, input, s, p, v);
    CheckPrepareDoes(cfg, input, v);
    SlotStays(cfg, input, v, CheckPrepare(cfg, v));
    FirstStays(s, v, CheckPrepare(cfg, v), p);
    NothingSigned(cfg, input, s);
    assert s.rest.transactions == {};
    assert u.rest.transactions == set h | h in u.rest.txs;
    if |set h | h in u.rest.txs| == |u.rest.txs| && ManyPreparations(v.core) && cfg.sign(v.rest.calls) {
      PreparationsSign(cfg, input, v);
    }
    assert ProposesAt(cfg, s, CheckPrepare(cfg, v), s.rest.calls, u.rest.timestamp);
  }

  lemma ProposesCarries(cfg: Config, s: State, t: State, r: State, k: nat)
    requires s.core.me >= 0 && Proposes(cfg, s, r, k)
    requires t.core == s.core && t.rest.lastTimestamp == s.rest.lastTimestamp
    ensures Proposes(cfg, t, r, k)
  {
    hide Voters, AntiMEV;
    var ts: nat :| ProposesAt(cfg, s, r, k, ts);
    assert ProposesAt(cfg, t, r, k, ts);
  }

  /** The timer of a primary that has not proposed yet: it broadcasts a request for what the pool holds, unless with a
      maximal block time it may wait for transactions, and then it subscribes to them. */
  lemma TimeoutProposes(cfg: Config, s: State, force: bool)
    requires Ready(cfg, {}, s) && Active(cfg, s) && IsPrimary(s.core) && !RequestKnown(s.core)
    ensures var r := OnTimeout(cfg, s, s.core.height, s.core.view, force);
      if ProposesNow(cfg, s, force) then Proposes(cfg, s, r, ProposalCall(cfg, s, force))
      else r.core == s.core && r.rest.txSubscription
  {
    hide P.Inv, P.Unforged, P.Reaches, Coherent, SendFilledRequest, Proposes, Survives, Keeps, ListOK;
    FilledIsProposed(cfg, {}, s);
    var t := Tick(s).(rest := Tick(s).rest.(txSubscription := true));
    SubscriptionDoes(cfg, {}, s, t);
    FilledIsProposed(cfg, {}, t);
    ProposesCarries(cfg, t, s, SendFilledRequest(cfg, t), t.rest.calls);
  }

  /** The timer of a bound node: it broadcasts a recovery message that holds its own signature. */
  lemma TimeoutResends(cfg: Config, s: State, force: bool)
    requires Ready(cfg, {}, s) && Active(cfg, s) && Locked(cfg, s.core)
    ensures var r := OnTimeout(cfg, s, s.core.height, s.core.view, force);
      exists items ::
        && r == s.(core := s.core.(sent := s.core.sent + [Own(s.core, Recovery(items))]))
        && (s.core.me in s.core.commits ==> s.core.commits[s.core.me] in items)
        && (s.core.me in s.core.preCommits ==> s.core.preCommits[s.core.me] in items)
  {
    hide P.Unforged, P.History, Coherent, SendChangeView, SendPrepareRequest, P.MatchOK, P.ViewsOK, P.WatchOK;
    hide P.PrepsOK, P.Remembered, P.CommitsOK;
    var items := RecoveryItems(cfg, s.core);
    if s.core.me in s.core.commits {
      assert s.core.commits[s.core.me] in Filled(s.core.commits, s.core.n);
    }
    if s.core.me in s.core.preCommits {
      assert s.core.preCommits[s.core.me] in Filled(s.core.preCommits, s.core.n);
    }
    assert OnTimeout(cfg, s, s.core.height, s.core.view, force) == SendRecoveryMessage(cfg, s);
  }

  /** Any other timer is ignored: an old one, and that of a node that does not take part or has its block. */
  lemma TimerIsIgnored(cfg: Config, s: State, height: nat, view: byte, force: bool)
    requires !Active(cfg, s) || height != s.core.height || view != s.core.view
    ensures OnTimeout(cfg, s, height, view, force) == s
  {
    hide SendPrepareRequest, SendRecoveryMessage, SendChangeView;
  }

  /** A node that is started as the primary proposes at once. */
  lemma StartProposes(cfg: Config, height: nat, ts: nat)
    requires !cfg.watchOnly && IndexAt(cfg, height) == GetPrimaryIndex(height, 0, cfg.validators(height))
    ensures var s := TakeMail(ResetHeight(cfg, Blank(), height, ts));
      s.core.sent == [] && s.rest.lastTimestamp == ts && Proposes(cfg, s, Start(cfg, Blank(), height, ts), 1)
  {
    hide P.Inv, P.Unforged, Coherent, P.Reaches, GetPrimaryIndex, SendFilledRequest, Proposes, Start;
    StartIsFresh(cfg, height, ts);
    FilledIsProposed(cfg, {}, TakeMail(ResetHeight(cfg, Blank(), height, ts)));
  }

  // ---- over every call ----

  /** No call broadcasts a PrepareResponse unless the application approved the block of its request in that call. */
  lemma AnswersAreApproved(cfg: Config, s: State, e: Event, i: nat)
    requires Ready(cfg, Input(e), s) && Proper(s, e)
    requires |s.core.sent| <= i < |Handle(cfg, s, e).core.sent|
    ensures var r := Handle(cfg, s, e);
      var p := r.core.sent[i];
      p.body.PrepareResponse? ==>
        && p.body.preparation.body.PrepareRequest?
        && exists k :: s.rest.calls <= k < r.rest.calls && cfg.verifyBlock(k, HeaderOf(p.body.preparation))
  {
    hide P.Inv, P.Unforged, P.Reaches, Coherent, Handle, Survives, Remembers, SparesSigned, P.Evolves, ListOK;
    HandleRefines(cfg, s, e);
  }

  /** No call loses a Commit or PreCommit of the height, unless it is known to sign another header than the one that the
      primary of its view proposed. */
  lemma SignaturesAreKept(cfg: Config, s: State, e: Event, i: int)
    requires Ready(cfg, Input(e), s) && Proper(s, e) && Handle(cfg, s, e).core.height == s.core.height
    ensures var c, r := s.core, Handle(cfg, s, e).core;
      && (i in c.commits ==> (i in r.commits && r.commits[i] == c.commits[i]) || Discredited(cfg, r, c.commits[i]))
      && (i in c.preCommits ==>
            (i in r.preCommits && r.preCommits[i] == c.preCommits[i]) || Discredited(cfg, r, c.preCommits[i]))
  {
    hide P.Inv, P.Unforged, P.Reaches, Coherent, Handle, Survives, Remembers, Vouches, P.Evolves, ListOK, Discredited;
    HandleRefines(cfg, s, e);
  }

  /** Whoever sent a message of the current view, or a ChangeView or recovery message of the height, does not count as
      failed after it, as long as the node stays in its view. */
  lemma SenderIsHeard(cfg: Config, s: State, m: Payload)
    requires Ready(cfg, Input(Received(m)), s) && !s.rest.crashed && m.from < s.core.n && !m.body.Malformed?
    requires m.height == s.core.height && m.view >= s.core.view && !FromFuture(s.core, m)
    ensures var r := OnReceive(cfg, s, m); r.core.view == s.core.view ==> !HasFailed(r, m.from)
  {
    hide P.Inv, P.Unforged, P.Reaches, Coherent, Dispatch, Cache, See, Survives, Vouches, SparesSigned, ListOK;
    var input := Input(Received(m));
    TakenDoes(cfg, input, s, m);
    SeenIsHeard(s, m);
    TakenIsSeen(s, m);
    if !s.core.blockProcessed || m.body.RecoveryRequest? {
      DispatchDoes(cfg, input, Taken(s, m), m);
    }
  }

  /** A transaction reported while the primary waits for one makes it propose; without a subscription it is ignored. */
  lemma NewTransactionProposes(cfg: Config, s: State)
    requires Ready(cfg, {}, s) && Active(cfg, s) && IsPrimary(s.core) && !RequestKnown(s.core)
    ensures var r := OnNewTransaction(cfg, s, s.core.height, s.core.view);
      if s.rest.txSubscription then Proposes(cfg, s, r, s.rest.calls) else r == s
  {
    hide P.Inv, P.Unforged, Coherent, OnTimeout, Proposes;
    TimeoutProposes(cfg, s, true);
  }

  // ---- view changes ----

  lemma AgreementGoesOut(cfg: Config, input: set<Payload>, s: State, view: byte)
    requires Ready(cfg, input, s) && !s.core.blockProcessed && !WatchOnly(cfg, s.core) && !Locked(cfg, s.core)
    requires view > s.core.view && |Voters(s.core.changeViews, s.core.n, AsksFor(view))| >= M(s.core.n)
    requires s.core.me in s.core.changeViews && s.core.changeViews[s.core.me].NewView() < view
    ensures AsksNext(s, CheckChangeView(cfg, s, view), CVChangeAgreement)
    ensures CheckChangeView(cfg, s, view).core.view >= view
  {
    hide P.Inv, P.Unforged, P.Reaches, Coherent, ResetView, CachedMail, TakeMail, ReceiveAll, Survives, ListOK;
    hide Approved;
    var t := MakeChangeView(s, CVChangeAgreement);
    AskViewDoes(cfg, input, s, CVChangeAgreement);
    SubsetSize(Voters(s.core.changeViews, s.core.n, AsksFor(view)),
               Voters(t.core.changeViews, s.core.n, AsksFor(view)));
    var u := ResetView(t, view, t.rest.lastTimestamp);
    EnterViewDoes(cfg, input, t, view);
    ReceiveAllDoes(cfg, input, TakeMail(u), CachedMail(cfg, u));
    FollowingAnswersNothing(cfg, input, s, view);
    var r := CheckChangeView(cfg, s, view);
    assert r == Initialize(cfg, u) == ReceiveAll(cfg, TakeMail(u), CachedMail(cfg, u));
    assert t.core.sent <= TakeMail(u).core.sent && TakeMail(u).core.sent <= r.core.sent;
    FirstStays(s, t, r, t.core.sent[|s.core.sent|]);
  }

  lemma VoteIsReady(cfg: Config, input: set<Payload>, s: State, m: Payload, r: State)
    requires Ready(cfg, input, s) && P.Enabled(cfg, input, s.core, P.StoreChangeView(m))
    requires r == s.(core := s.core.(changeViews := s.core.changeViews[m.from := m]))
    ensures Ready(cfg, input, r)
  {
    hide P.Inv, P.Unforged, P.Reaches, Coherent, P.Enabled;
    CoherenceCarries(s, r);
    P.StepKeepsInv(cfg, input, s.core, P.StoreChangeView(m), r.core);
  }

  /** A validator that has asked for less joins the others with a ChangeView of its own before it follows them. */
  lemma AgreementArrives(cfg: Config, s: State, m: Payload)
    requires Ready(cfg, {m}, s) && Active(cfg, s) && !Locked(cfg, s.core) && m.body.ChangeView?
    requires m.height == s.core.height && m.from < s.core.n && m.NewView() > s.core.view && m.from != s.core.me
    requires m.from in s.core.changeViews ==> s.core.changeViews[m.from].NewView() <= m.NewView()
    requires var votes := s.core.changeViews[m.from := m];
      |Voters(votes, s.core.n, AsksFor(m.body.newView))| >= M(s.core.n)
    requires s.core.me in s.core.changeViews && s.core.changeViews[s.core.me].NewView() < m.NewView()
    ensures AsksNext(s, OnReceive(cfg, s, m), CVChangeAgreement) && OnReceive(cfg, s, m).core.view >= m.NewView()
  {
    hide P.Inv, P.Unforged, P.Reaches, Coherent, Survives, Keeps, ListOK, CheckChangeView, Voters, Cache, See;
    hide OnPrepareRequest, OnPrepareResponse, OnPreCommit, OnCommit, OnRecoveryMessage, OnRecoveryRequest;
    var t := Taken(s, m);
    TakenDoes(cfg, {m}, s, m);
    var u := t.(core := t.core.(changeViews := t.core.changeViews[m.from := m]));
    VoteIsReady(cfg, {m}, t, m, u);
    AgreementGoesOut(cfg, {m}, u, m.body.newView);
    assert OnReceive(cfg, s, m) == OnChangeView(cfg, t, m) == CheckChangeView(cfg, u, m.body.newView);
  }
}
