/** The abstract protocol: the atomic steps a correct node takes, and the invariant they keep.
    Only the protocol part of a node's state matters here. */
module Protocol {
  import opened Quorum
  import opened Payloads
  import opened NodeState
  import Spec = NodeSpec

  datatype Act =
    | Receive(p: Payload)
    | StoreRequest(p: Payload)
    | StoreResponse(p: Payload)
    | StorePreCommit(p: Payload)
    | StoreCommit(p: Payload)
    | StoreChangeView(p: Payload)
    | KeepPreCommits(slots: Slots)
    | KeepCommits(slots: Slots)
    | Propose(p: Payload)
    | Answer(p: Payload)
    | SignPreCommit(p: Payload)
    | SignCommit(p: Payload)
    | AskView(p: Payload)
    | EnterView(view: byte)
    | MarkPreBlock(h: Header)
    | Accept(h: Header)
    | SendRecovery(p: Payload)
    | Resend(p: Payload)
    | NewHeight(height: nat)

  predicate AtCurrent(c: Core, p: Payload) {
    p.height == c.height && p.view == c.view
  }

  predicate Mine(c: Core, p: Payload) {
    c.me >= 0 && p.from == c.me && AtCurrent(c, p)
  }

  // The proposal of the current view that this node works on.
  predicate Proposed(c: Core) {
    c.primary in c.preps && c.preps[c.primary].body.PrepareRequest?
  }

  function ProposedHeader(c: Core): Header
    requires Proposed(c)
  {
    HeaderOf(c.preps[c.primary])
  }

  predicate Submap(a: Slots, b: Slots) {
    forall i :: i in a ==> i in b && a[i] == b[i]
  }

  predicate NewSlot(c: Core, slots: Slots, p: Payload) {
    p in c.delivered && p.from < c.n && p.height == c.height && p.from !in slots
  }

  // When a correct node may take a step; `input` holds the payloads that reach it in this call.
  predicate Enabled(cfg: Config, input: set<Payload>, c: Core, a: Act) {
    match a
    case Receive(p) => p in input || p in c.delivered
    case StoreRequest(p) =>
      && !c.blockProcessed && p.body.PrepareRequest? && NewSlot(c, c.preps, p)
      && p.view == c.view && p.from == c.primary
    case StoreResponse(p) =>
      && !c.blockProcessed && p.body.PrepareResponse? && NewSlot(c, c.preps, p)
      && p.view == c.view && p.from != c.primary
      && (c.primary in c.preps ==> p.body.preparation == c.preps[c.primary])
    case StorePreCommit(p) =>
      !c.blockProcessed && p.body.PreCommit? && NewSlot(c, c.preCommits, p) && p.view <= c.view
    case StoreCommit(p) =>
      !c.blockProcessed && p.body.Commit? && NewSlot(c, c.commits, p) && p.view <= c.view
    case StoreChangeView(p) =>
      && !c.blockProcessed && !Locked(cfg, c) && p.body.ChangeView? && NewSlot(c, map[], p)
      && p.NewView() > c.view
      && (p.from in c.changeViews ==> c.changeViews[p.from].NewView() <= p.NewView())
    case KeepPreCommits(slots) =>
      !c.blockProcessed && Submap(slots, c.preCommits) && (c.me in c.preCommits ==> c.me in slots)
    case KeepCommits(slots) =>
      !c.blockProcessed && Submap(slots, c.commits) && (c.me in c.commits ==> c.me in slots)
    case Propose(p) =>
      && !c.blockProcessed && c.me == c.primary && c.primary !in c.preps
      && Mine(c, p) && p.body.PrepareRequest?
    case Answer(p) =>
      && !c.blockProcessed && !WatchOnly(cfg, c) && c.me != c.primary && Proposed(c) && c.me !in c.preps
      && Mine(c, p) && p.body == PrepareResponse(c.preps[c.primary])
    case SignPreCommit(p) =>
      && !c.blockProcessed && (WatchOnly(cfg, c) ==> c.n == 1) && AntiMEV(cfg, c.height) && Proposed(c)
      && |Voters(c.preps, c.n, InView(c.view))| >= M(c.n)
      && c.me !in c.preCommits && Mine(c, p) && p.body == PreCommit(Signature(c.me, ProposedHeader(c)))
    case SignCommit(p) =>
      && !c.blockProcessed && (WatchOnly(cfg, c) ==> c.n == 1) && Proposed(c)
      && (if AntiMEV(cfg, c.height)
          then c.me in c.preCommits && |Voters(c.preCommits, c.n, InView(c.view))| >= M(c.n)
          else |Voters(c.preps, c.n, InView(c.view))| >= M(c.n))
      && c.me !in c.commits && Mine(c, p) && p.body == Commit(Signature(c.me, ProposedHeader(c)))
    case AskView(p) =>
      && !c.blockProcessed && !WatchOnly(cfg, c) && !Locked(cfg, c)
      && Mine(c, p) && p.body.ChangeView? && p.body.newView == Spec.NextView(c.view)
    case EnterView(v) =>
      && !c.blockProcessed && !Locked(cfg, c) && v > c.view
      && |Voters(c.changeViews, c.n, AsksFor(v))| >= M(c.n)
    case MarkPreBlock(h) =>
      && !c.blockProcessed && !c.preBlockProcessed && AntiMEV(cfg, c.height) && Proposed(c) && h == ProposedHeader(c)
      && |Voters(c.preCommits, c.n, InView(c.view))| >= M(c.n)
    case Accept(h) =>
      && !c.blockProcessed && Proposed(c) && h == ProposedHeader(c)
      && |Voters(c.commits, c.n, InView(c.view))| >= M(c.n)
    case SendRecovery(p) =>
      !WatchOnly(cfg, c) && Mine(c, p) && (p.body.RecoveryRequest? || p.body.Recovery?)
    case Resend(p) => p in c.sent
    case NewHeight(h) => h > c.height
  }

  function Apply(cfg: Config, c: Core, a: Act): Core {
    match a
    case Receive(p) => c.(delivered := c.delivered + {p})
    case StoreRequest(p) => c.(preps := Spec.Answering(c.preps, c.n, p)[p.from := p])
    case StoreResponse(p) => c.(preps := c.preps[p.from := p])
    case StorePreCommit(p) => c.(preCommits := c.preCommits[p.from := p])
    case StoreCommit(p) => c.(commits := c.commits[p.from := p])
    case StoreChangeView(p) => c.(changeViews := c.changeViews[p.from := p])
    case KeepPreCommits(slots) => c.(preCommits := slots)
    case KeepCommits(slots) => c.(commits := slots)
    case Propose(p) => c.(preps := c.preps[c.me := p], sent := c.sent + [p])
    case Answer(p) => c.(preps := c.preps[c.me := p], sent := c.sent + [p])
    case SignPreCommit(p) => c.(preCommits := c.preCommits[c.me := p], sent := c.sent + [p])
    case SignCommit(p) => c.(commits := c.commits[c.me := p], sent := c.sent + [p])
    case AskView(p) => c.(changeViews := c.changeViews[c.me := p], sent := c.sent + [p])
    case EnterView(v) =>
      c.(primary := GetPrimaryIndex(c.height, v, c.n), view := v, preps := map[],
         lastChangeViews := Spec.Asking(c.changeViews, c.n, v), changeViews := map[])
    case MarkPreBlock(h) =>
      c.(preBlockProcessed := true,
         preBlocks := c.preBlocks + [Acceptance(PreCommitType, c.height, c.view, h, c.preCommits)])
    case Accept(h) =>
      c.(blockProcessed := true, processed := c.processed + [Acceptance(CommitType, c.height, c.view, h, c.commits)])
    case SendRecovery(p) => c.(sent := c.sent + [p])
    case Resend(p) => c.(sent := c.sent + [p])
    case NewHeight(h) =>
      c.(height := h, n := cfg.validators(h), me := IndexAt(cfg, h),
         primary := GetPrimaryIndex(h, 0, cfg.validators(h)), view := 0,
         preps := map[], preCommits := map[], commits := map[], changeViews := map[], lastChangeViews := map[],
         preBlockProcessed := false, blockProcessed := false)
  }

  // ---- the invariant: the current epoch ----

  ghost predicate Known(c: Core, p: Payload) {
    p in c.delivered || p in c.sent
  }

  // The number of validators, the own index and the primary are those of the current height and view.
  ghost predicate Indexed(cfg: Config, c: Core) {
    && c.n == cfg.validators(c.height)
    && c.me == IndexAt(cfg, c.height)
    && c.primary == GetPrimaryIndex(c.height, c.view, c.n)
  }

  ghost predicate SlotOK(c: Core, i: int, p: Payload) {
    0 <= i < c.n && p.from == i && p.height == c.height && Known(c, p)
  }

  ghost predicate PrepsOK(c: Core) {
    && (forall i :: i in c.preps ==>
      && SlotOK(c, i, c.preps[i]) && c.preps[i].view == c.view
      && (if i == c.primary then c.preps[i].body.PrepareRequest? else c.preps[i].body.PrepareResponse?))
    && (c.me in c.preps ==> c.primary in c.preps)
  }

  // A backup keeps only the responses that answer the request it knows.
  ghost predicate MatchOK(c: Core) {
    c.primary in c.preps && c.me != c.primary ==>
      forall i :: i in c.preps ==> c.preps[i].Supports() == c.preps[c.primary]
  }

  ghost predicate PreCommitSlotsOK(c: Core) {
    forall i :: i in c.preCommits ==>
      SlotOK(c, i, c.preCommits[i]) && c.preCommits[i].body.PreCommit? && c.preCommits[i].view <= c.view
  }

  ghost predicate CommitSlotsOK(c: Core) {
    forall i :: i in c.commits ==>
      SlotOK(c, i, c.commits[i]) && c.commits[i].body.Commit? && c.commits[i].view <= c.view
  }

  ghost predicate CommitsOK(c: Core) {
    PreCommitSlotsOK(c) && CommitSlotsOK(c)
  }

  ghost predicate VoteSlotsOK(c: Core) {
    forall i :: i in c.changeViews ==> SlotOK(c, i, c.changeViews[i]) && c.changeViews[i].body.ChangeView?
  }

  // What led to the view asked for it or for a later one.
  ghost predicate LastVotesOK(c: Core) {
    forall i :: i in c.lastChangeViews ==>
      && SlotOK(c, i, c.lastChangeViews[i]) && c.lastChangeViews[i].body.ChangeView?
      && c.lastChangeViews[i].NewView() >= c.view
  }

  // A view above 0 is certified by M validators that asked for it or for a later one.
  ghost predicate ViewCertified(c: Core) {
    c.view > 0 ==> |Voters(c.lastChangeViews, c.n, AsksFor(c.view))| >= M(c.n)
  }

  ghost predicate ViewsOK(c: Core) {
    VoteSlotsOK(c) && LastVotesOK(c) && ViewCertified(c)
  }

  // A watch-only node that holds a validator's key proposes a block at most when it is started as the primary;
  // it signs only if it is the single validator, and it never asks for a view.
  ghost predicate WatchOK(cfg: Config, c: Core) {
    cfg.watchOnly ==>
      && (forall p :: p in c.sent ==> !p.body.ChangeView?)
      && (c.me in c.preCommits || c.me in c.commits ==> c.n == 1)
  }

  // Own PreCommits and Commits are for the current view and its proposal.
  ghost predicate Bound(c: Core, p: Payload) {
    p.view == c.view && Proposed(c) && p.Signed() == Signature(p.from, ProposedHeader(c))
  }

  ghost predicate LockOK(c: Core) {
    && (c.me in c.preCommits ==> Bound(c, c.preCommits[c.me]))
    && (c.me in c.commits ==> Bound(c, c.commits[c.me]))
  }

  // ---- the invariant: the history ----

  ghost predicate SentOK(cfg: Config, c: Core) {
    forall p :: p in c.sent ==>
      && p.from == IndexAt(cfg, p.height)
      && p.height <= c.height
      && (p.height == c.height ==> p.view <= c.view)
      && (p.body.ChangeView? ==> p.body.newView == Spec.NextView(p.view))
  }

  // Nobody forges a payload of this node.
  ghost predicate OwnGenuine(cfg: Config, c: Core) {
    forall p :: p in c.delivered && p.from == IndexAt(cfg, p.height) ==> p in c.sent
  }

  ghost predicate VoteOnce(c: Core) {
    forall p, q | p in c.sent && q in c.sent && p.height == q.height && p.view == q.view
      :: p.IsPreparation() && q.IsPreparation() ==> p == q
  }

  ghost predicate CommitOnce(c: Core) {
    forall p, q | p in c.sent && q in c.sent && p.height == q.height
      :: (p.body.Commit? && q.body.Commit?) || (p.body.PreCommit? && q.body.PreCommit?) ==> p == q
  }

  // Nothing of a later view is sent at a height once a Commit or PreCommit was sent.
  ghost predicate CommitLast(c: Core) {
    forall p, q | p in c.sent && q in c.sent && p.height == q.height :: p.IsSignature() ==> q.view <= p.view
  }

  // What was sent for the current epoch is still in the own slots.
  ghost predicate Remembered(c: Core) {
    forall p :: p in c.sent && p.height == c.height ==>
      && (p.IsPreparation() && p.view == c.view ==> c.me in c.preps && c.preps[c.me] == p)
      && (p.body.PreCommit? ==> c.me in c.preCommits && c.preCommits[c.me] == p)
      && (p.body.Commit? ==> c.me in c.commits && c.commits[c.me] == p)
  }

  ghost predicate FromPrimary(cfg: Config, req: Payload) {
    req.body.PrepareRequest? && req.from == GetPrimaryIndex(req.height, req.view, cfg.validators(req.height))
  }

  // Only the primary proposes, and a response answers a request of the primary of its view.
  ghost predicate AnswersOK(cfg: Config, c: Core) {
    forall p :: p in c.sent && p.IsPreparation() ==>
      var req := p.Supports();
      Known(c, req) && FromPrimary(cfg, req) && req.height == p.height && req.view == p.view
  }

  // Validator i prepared in the view of `req`; for `req` itself unless this node is its primary, which does
  // not compare the responses that came before its request.
  ghost predicate Backs(cfg: Config, c: Core, req: Payload, i: int, v: Payload) {
    && Known(c, v) && v.IsPreparation() && v.from == i && v.height == req.height && v.view == req.view
    && (v.Supports() == req || IndexAt(cfg, req.height) == req.from)
  }

  ghost predicate HasBacking(cfg: Config, c: Core, req: Payload, i: int) {
    exists v :: Backs(cfg, c, req, i, v)
  }

  ghost predicate Quorate(cfg: Config, c: Core, req: Payload, voters: set<int>) {
    && |voters| >= M(cfg.validators(req.height))
    && forall i :: i in voters ==> 0 <= i < cfg.validators(req.height) && HasBacking(cfg, c, req, i)
  }

  ghost predicate Certifies(cfg: Config, c: Core, p: Payload, req: Payload, voters: set<int>) {
    && Known(c, req) && FromPrimary(cfg, req) && req.height == p.height && req.view == p.view
    && p.Signed() == Signature(p.from, HeaderOf(req))
    && Quorate(cfg, c, req, voters)
  }

  // Every signature for a block rests on M preparations of its view.
  ghost predicate SignaturesOK(cfg: Config, c: Core) {
    forall p :: p in c.sent && p.IsSignature() ==>
      exists req, voters :: Certifies(cfg, c, p, req, voters)
  }

  // All blocks and pre-blocks that were processed.
  function Blocks(c: Core): seq<Acceptance> {
    c.processed + c.preBlocks
  }

  ghost predicate Counted(cfg: Config, c: Core, a: Acceptance) {
    && a.height <= c.height
    && |Voters(a.counted, cfg.validators(a.height), InView(a.view))| >= M(cfg.validators(a.height))
    && (forall i :: i in a.counted ==>
      && a.counted[i].from == i && a.counted[i].height == a.height && a.counted[i].Type() == a.kind
      && Known(c, a.counted[i]))
  }

  ghost predicate BuiltFrom(cfg: Config, c: Core, a: Acceptance, req: Payload) {
    && Known(c, req) && FromPrimary(cfg, req) && req.height == a.height && req.view == a.view
    && a.header == HeaderOf(req)
  }

  // Every processed block or pre-block counted M Commits or PreCommits of its view and was built from a request of
  // that view; it is what this node signed in that view, if it signed anything.
  ghost predicate CountedOK(cfg: Config, c: Core) {
    && (forall a :: a in c.processed ==> a.kind == CommitType && Counted(cfg, c, a))
    && (forall a :: a in c.preBlocks ==> a.kind == PreCommitType && Counted(cfg, c, a))
  }

  ghost predicate BuiltOK(cfg: Config, c: Core) {
    forall a :: a in c.processed || a in c.preBlocks ==> exists req :: BuiltFrom(cfg, c, a, req)
  }

  ghost predicate OwnFinalOK(c: Core) {
    forall a, p :: a in c.processed && p in c.sent && p.IsSignature() && p.height == a.height ==>
      p.view == a.view && p.Signed().header == a.header
  }

  ghost predicate OwnPreBlockOK(c: Core) {
    forall a, p :: a in c.preBlocks && p in c.sent && p.IsSignature() && p.height == a.height ==>
      p.view >= a.view && (p.view == a.view ==> p.Signed().header == a.header)
  }

  ghost predicate OwnBlockOK(c: Core) {
    OwnFinalOK(c) && OwnPreBlockOK(c)
  }

  ghost predicate CurrentBlockOK(c: Core) {
    && (forall a :: a in c.processed && a.height == c.height ==>
      && c.blockProcessed && a.view == c.view && Proposed(c) && a.header == ProposedHeader(c)
      && a.counted == c.commits)
    && (forall a :: a in c.preBlocks && a.height == c.height ==>
      && c.preBlockProcessed && a.view <= c.view
      && (a.view == c.view ==> Proposed(c) && a.header == ProposedHeader(c)))
  }

  // At most one block and one pre-block per height.
  ghost predicate ProcessedOnce(c: Core) {
    && (forall i, j :: 0 <= i < j < |c.processed| ==> c.processed[i].height < c.processed[j].height)
    && (c.blockProcessed ==> exists a :: a in c.processed && a.height == c.height)
    && (forall i, j :: 0 <= i < j < |c.preBlocks| ==> c.preBlocks[i].height < c.preBlocks[j].height)
  }

  ghost predicate History(cfg: Config, c: Core) {
    && SentOK(cfg, c) && OwnGenuine(cfg, c) && VoteOnce(c) && CommitOnce(c) && CommitLast(c)
    && AnswersOK(cfg, c) && SignaturesOK(cfg, c) && CountedOK(cfg, c) && BuiltOK(cfg, c) && OwnBlockOK(c)
    && CurrentBlockOK(c) && ProcessedOnce(c)
  }

  ghost predicate Epoch(cfg: Config, c: Core) {
    && Indexed(cfg, c) && PrepsOK(c) && MatchOK(c) && CommitsOK(c) && ViewsOK(c) && WatchOK(cfg, c) && LockOK(c)
    && Remembered(c)
  }

  ghost predicate Inv(cfg: Config, c: Core) {
    Epoch(cfg, c) && History(cfg, c)
  }

  // The payloads that reach a node do not forge its own.
  ghost predicate Unforged(cfg: Config, c: Core, input: set<Payload>) {
    forall p :: p in input && p.from == IndexAt(cfg, p.height) ==> p in c.sent
  }

  // ---- every step keeps the invariant ----

  ghost predicate Grows(c: Core, c': Core) {
    forall p :: Known(c, p) ==> Known(c', p)
  }

  lemma QuorateGrows(cfg: Config, c: Core, c': Core, req: Payload, voters: set<int>)
    requires Grows(c, c') && Quorate(cfg, c, req, voters)
    ensures Quorate(cfg, c', req, voters)
  {
    forall i | i in voters
      ensures HasBacking(cfg, c', req, i)
    {
      var v :| Backs(cfg, c, req, i, v);
      assert Backs(cfg, c', req, i, v);
    }
  }

  lemma CertificateGrows(cfg: Config, c: Core, c': Core, p: Payload)
    requires Grows(c, c') && exists req, voters :: Certifies(cfg, c, p, req, voters)
    ensures exists req, voters :: Certifies(cfg, c', p, req, voters)
  {
    var req, voters :| Certifies(cfg, c, p, req, voters);
    QuorateGrows(cfg, c, c', req, voters);
    assert Certifies(cfg, c', p, req, voters);
  }

  // M preparations in the slots certify a signature over the proposal.
  lemma QuorumCertifies(cfg: Config, c: Core, p: Payload)
    requires Epoch(cfg, c) && Proposed(c) && Mine(c, p)
    requires |Voters(c.preps, c.n, InView(c.view))| >= M(c.n)
    requires p.Signed() == Signature(c.me, ProposedHeader(c))
    ensures exists req, voters :: Certifies(cfg, c, p, req, voters)
  {
    hide GetPrimaryIndex;
    var req, voters := c.preps[c.primary], Voters(c.preps, c.n, InView(c.view));
    forall i | i in voters
      ensures HasBacking(cfg, c, req, i)
    {
      assert Backs(cfg, c, req, i, c.preps[i]);
    }
    assert Certifies(cfg, c, p, req, voters);
  }

  // The certificate of the own PreCommit serves the Commit that follows it.
  lemma PreCommitCertifies(cfg: Config, c: Core, p: Payload)
    requires Inv(cfg, c) && Proposed(c) && Mine(c, p) && c.me in c.preCommits
    requires p.Signed() == Signature(c.me, ProposedHeader(c))
    ensures exists req, voters :: Certifies(cfg, c, p, req, voters)
  {
    hide GetPrimaryIndex;
    var own := c.preCommits[c.me];
    var req, voters :| Certifies(cfg, c, own, req, voters);
    assert Certifies(cfg, c, p, req, voters);
  }

  lemma SignatureIsCertified(cfg: Config, input: set<Payload>, c: Core, a: Act, p: Payload)
    requires Inv(cfg, c) && Enabled(cfg, input, c, a)
    requires a == SignPreCommit(p) || a == SignCommit(p)
    ensures exists req, voters :: Certifies(cfg, c, p, req, voters)
  {
    if a.SignCommit? && AntiMEV(cfg, c.height) {
      PreCommitCertifies(cfg, c, p);
    } else {
      QuorumCertifies(cfg, c, p);
    }
  }

  lemma KeepsSignatures(cfg: Config, input: set<Payload>, c: Core, a: Act, c': Core)
    requires Inv(cfg, c) && Enabled(cfg, input, c, a) && c' == Apply(cfg, c, a)
    ensures SignaturesOK(cfg, c')
  {
    hide GetPrimaryIndex, Certifies, Epoch;
    assert Grows(c, c');
    forall p | p in c'.sent && p.IsSignature()
      ensures exists req, voters :: Certifies(cfg, c', p, req, voters)
    {
      if p !in c.sent {
        SignatureIsCertified(cfg, input, c, a, p);
      }
      CertificateGrows(cfg, c, c', p);
    }
  }

  lemma StepGrows(cfg: Config, input: set<Payload>, c: Core, a: Act)
    requires Enabled(cfg, input, c, a)
    ensures Grows(c, Apply(cfg, c, a)) && c.height <= Apply(cfg, c, a).height
  {
    hide GetPrimaryIndex, Voters, M, Locked, WatchOnly, IndexAt, AntiMEV, Proposed, NewSlot, Mine;
  }

  lemma BuiltGrows(cfg: Config, c: Core, c': Core, a: Acceptance)
    requires Grows(c, c') && exists req :: BuiltFrom(cfg, c, a, req)
    ensures exists req :: BuiltFrom(cfg, c', a, req)
  {
    hide Known, FromPrimary;
    var req :| BuiltFrom(cfg, c, a, req);
    assert BuiltFrom(cfg, c', a, req);
  }

  lemma KeepsBuilt(cfg: Config, input: set<Payload>, c: Core, a: Act, c': Core)
    requires Inv(cfg, c) && Enabled(cfg, input, c, a) && c' == Apply(cfg, c, a)
    ensures BuiltOK(cfg, c')
  {
    hide GetPrimaryIndex, MatchOK, ViewsOK, WatchOK, CommitsOK, LockOK, Remembered, SentOK, OwnGenuine, VoteOnce;
    hide CommitOnce, CommitLast, AnswersOK, SignaturesOK, CountedOK, OwnBlockOK, CurrentBlockOK, ProcessedOnce;
    hide Voters, M, Locked, WatchOnly, Grows;
    StepGrows(cfg, input, c, a);
    forall b | b in c'.processed || b in c'.preBlocks
      ensures exists req :: BuiltFrom(cfg, c', b, req)
    {
      if b in c.processed || b in c.preBlocks {
        BuiltGrows(cfg, c, c', b);
      } else {
        assert BuiltFrom(cfg, c', b, c.preps[c.primary]);
      }
    }
  }

  lemma KeepsCertificate(cfg: Config, input: set<Payload>, c: Core, a: Act, c': Core)
    requires Inv(cfg, c) && Enabled(cfg, input, c, a) && c' == Apply(cfg, c, a)
    ensures ViewCertified(c')
  {
    hide GetPrimaryIndex, History, PrepsOK, MatchOK, CommitsOK, WatchOK, LockOK, Remembered, VoteSlotsOK, LastVotesOK;
    if a.EnterView? {
      assert Voters(c'.lastChangeViews, c'.n, AsksFor(a.view)) == Voters(c.changeViews, c.n, AsksFor(a.view));
    }
  }

  lemma KeepsVoteSlots(cfg: Config, input: set<Payload>, c: Core, a: Act, c': Core)
    requires Inv(cfg, c) && Enabled(cfg, input, c, a) && c' == Apply(cfg, c, a)
    ensures VoteSlotsOK(c')
  {
    hide GetPrimaryIndex, History, PrepsOK, MatchOK, CommitsOK, WatchOK, LockOK, Remembered, ViewCertified;
    hide Voters, M, IndexAt, AntiMEV, Locked, Proposed, LastVotesOK;
  }

  lemma KeepsLastVotes(cfg: Config, input: set<Payload>, c: Core, a: Act, c': Core)
    requires Inv(cfg, c) && Enabled(cfg, input, c, a) && c' == Apply(cfg, c, a)
    ensures LastVotesOK(c')
  {
    hide GetPrimaryIndex, History, PrepsOK, MatchOK, CommitsOK, WatchOK, LockOK, Remembered, ViewCertified;
    hide Voters, M, IndexAt, AntiMEV, Locked, Proposed, NewSlot, Mine;
  }

  lemma KeepsViews(cfg: Config, input: set<Payload>, c: Core, a: Act, c': Core)
    requires Inv(cfg, c) && Enabled(cfg, input, c, a) && c' == Apply(cfg, c, a)
    ensures ViewsOK(c')
  {
    hide Inv, Enabled, Apply, VoteSlotsOK, LastVotesOK, ViewCertified;
    KeepsVoteSlots(cfg, input, c, a, c');
    KeepsLastVotes(cfg, input, c, a, c');
    KeepsCertificate(cfg, input, c, a, c');
  }

  lemma KeepsVotes(cfg: Config, input: set<Payload>, c: Core, a: Act, c': Core)
    requires Inv(cfg, c) && Unforged(cfg, c, input) && Enabled(cfg, input, c, a) && c' == Apply(cfg, c, a)
    ensures Indexed(cfg, c')
    ensures SentOK(cfg, c')
    ensures OwnGenuine(cfg, c')
  {
    hide GetPrimaryIndex, PrepsOK, MatchOK, ViewsOK, CommitsOK, LockOK, Remembered, WatchOK, VoteOnce;
    hide CommitOnce, CommitLast, AnswersOK, SignaturesOK, CountedOK, BuiltOK, OwnBlockOK, CurrentBlockOK;
    hide ProcessedOnce;
  }

  lemma KeepsVoteOnce(cfg: Config, input: set<Payload>, c: Core, a: Act, c': Core)
    requires Inv(cfg, c) && Unforged(cfg, c, input) && Enabled(cfg, input, c, a) && c' == Apply(cfg, c, a)
    ensures VoteOnce(c')
  {
    hide GetPrimaryIndex, PrepsOK, MatchOK, ViewsOK, CommitsOK, LockOK, WatchOK, CommitOnce, CommitLast;
    hide SignaturesOK, CountedOK, BuiltOK, OwnBlockOK, CurrentBlockOK, ProcessedOnce, AnswersOK;
  }

  lemma KeepsCommitOnce(cfg: Config, input: set<Payload>, c: Core, a: Act, c': Core)
    requires Inv(cfg, c) && Unforged(cfg, c, input) && Enabled(cfg, input, c, a) && c' == Apply(cfg, c, a)
    ensures CommitOnce(c')
  {
    hide GetPrimaryIndex, PrepsOK, MatchOK, ViewsOK, LockOK, WatchOK, VoteOnce, CommitLast, SignaturesOK;
    hide CountedOK, BuiltOK, OwnBlockOK, CurrentBlockOK, ProcessedOnce, AnswersOK;
  }

  lemma KeepsCommitLast(cfg: Config, input: set<Payload>, c: Core, a: Act, c': Core)
    requires Inv(cfg, c) && Unforged(cfg, c, input) && Enabled(cfg, input, c, a) && c' == Apply(cfg, c, a)
    ensures CommitLast(c')
  {
    hide GetPrimaryIndex, SignaturesOK, BuiltOK, VoteOnce, AnswersOK, OwnGenuine;
  }

  lemma KeepsAnswers(cfg: Config, input: set<Payload>, c: Core, a: Act, c': Core)
    requires Inv(cfg, c) && Unforged(cfg, c, input) && Enabled(cfg, input, c, a) && c' == Apply(cfg, c, a)
    ensures AnswersOK(cfg, c')
  {
    hide GetPrimaryIndex, SignaturesOK, BuiltOK;
  }

  lemma CountedGrows(cfg: Config, c: Core, c': Core, a: Acceptance)
    requires Counted(cfg, c, a) && Grows(c, c') && c.height <= c'.height
    ensures Counted(cfg, c', a)
  {
    hide Voters, M, Known;
  }

  lemma KeepsCounted(cfg: Config, input: set<Payload>, c: Core, a: Act, c': Core)
    requires Inv(cfg, c) && Unforged(cfg, c, input) && Enabled(cfg, input, c, a) && c' == Apply(cfg, c, a)
    ensures CountedOK(cfg, c')
  {
    hide GetPrimaryIndex, SignaturesOK, BuiltOK, MatchOK, ViewsOK, WatchOK, LockOK, Remembered, PrepsOK, SentOK;
    hide OwnGenuine, VoteOnce, CommitOnce, CommitLast, AnswersOK, OwnBlockOK, CurrentBlockOK, ProcessedOnce, M, Voters;
    hide Grows;
    StepGrows(cfg, input, c, a);
    forall b | b in c.processed || b in c.preBlocks
      ensures Counted(cfg, c', b)
    {
      CountedGrows(cfg, c, c', b);
    }
  }

  lemma KeepsOwnFinal(cfg: Config, input: set<Payload>, c: Core, a: Act, c': Core)
    requires Inv(cfg, c) && Unforged(cfg, c, input) && Enabled(cfg, input, c, a) && c' == Apply(cfg, c, a)
    ensures OwnFinalOK(c')
  {
    hide GetPrimaryIndex, MatchOK, ViewsOK, WatchOK, VoteOnce, CommitLast, AnswersOK, SignaturesOK, CountedOK;
    hide BuiltOK, ProcessedOnce, OwnPreBlockOK, OwnGenuine, CommitOnce, Voters, M;
  }

  lemma KeepsOwnPreBlock(cfg: Config, input: set<Payload>, c: Core, a: Act, c': Core)
    requires Inv(cfg, c) && Unforged(cfg, c, input) && Enabled(cfg, input, c, a) && c' == Apply(cfg, c, a)
    ensures OwnPreBlockOK(c')
  {
    hide GetPrimaryIndex, MatchOK, ViewsOK, WatchOK, VoteOnce, CommitLast, AnswersOK, SignaturesOK;
    hide BuiltOK, ProcessedOnce, OwnFinalOK, OwnGenuine, CommitOnce, Voters, M;
  }

  lemma KeepsCurrentBlock(cfg: Config, input: set<Payload>, c: Core, a: Act, c': Core)
    requires Inv(cfg, c) && Unforged(cfg, c, input) && Enabled(cfg, input, c, a) && c' == Apply(cfg, c, a)
    ensures CurrentBlockOK(c')
  {
    hide GetPrimaryIndex, MatchOK, ViewsOK, WatchOK, CommitsOK, VoteOnce, CommitOnce, CommitLast, AnswersOK;
    hide SignaturesOK, BuiltOK, OwnBlockOK, SentOK, OwnGenuine, LockOK, Remembered, ProcessedOnce, Voters, M, Locked;
    hide PrepsOK, WatchOnly;
  }

  lemma KeepsProcessedOnce(cfg: Config, input: set<Payload>, c: Core, a: Act, c': Core)
    requires Inv(cfg, c) && Unforged(cfg, c, input) && Enabled(cfg, input, c, a) && c' == Apply(cfg, c, a)
    ensures ProcessedOnce(c')
  {
    hide GetPrimaryIndex, PrepsOK, MatchOK, ViewsOK, WatchOK, LockOK, CommitsOK, Remembered, VoteOnce;
    hide CommitOnce, CommitLast, AnswersOK, SignaturesOK, BuiltOK, OwnBlockOK, SentOK, OwnGenuine, Voters, M, Locked;
    hide NewSlot, Mine, WatchOnly, AntiMEV;
    if a.Accept? {
      assert forall b :: b in c.processed ==> b.height < c.height;
      assert c'.processed[|c.processed|] in c'.processed;
    }
    if a.MarkPreBlock? {
      assert forall b :: b in c.preBlocks ==> b.height < c.height;
    }
  }

  lemma KeepsPreps(cfg: Config, input: set<Payload>, c: Core, a: Act, c': Core)
    requires Inv(cfg, c) && Unforged(cfg, c, input) && Enabled(cfg, input, c, a) && c' == Apply(cfg, c, a)
    ensures PrepsOK(c')
  {
    hide GetPrimaryIndex, MatchOK, ViewsOK, WatchOK, CommitsOK, LockOK, VoteOnce, CommitOnce, CommitLast;
    hide AnswersOK, SignaturesOK, CountedOK, BuiltOK, OwnBlockOK, CurrentBlockOK, ProcessedOnce;
  }

  lemma KeepsMatch(cfg: Config, input: set<Payload>, c: Core, a: Act, c': Core)
    requires Inv(cfg, c) && Unforged(cfg, c, input) && Enabled(cfg, input, c, a) && c' == Apply(cfg, c, a)
    ensures MatchOK(c')
  {
    hide GetPrimaryIndex, ViewsOK, WatchOK, CommitsOK, LockOK, VoteOnce, CommitOnce, CommitLast, AnswersOK;
    hide SignaturesOK, CountedOK, BuiltOK, OwnBlockOK, CurrentBlockOK, ProcessedOnce;
  }

  lemma KeepsPreCommitSlots(cfg: Config, input: set<Payload>, c: Core, a: Act, c': Core)
    requires Inv(cfg, c) && Unforged(cfg, c, input) && Enabled(cfg, input, c, a) && c' == Apply(cfg, c, a)
    ensures PreCommitSlotsOK(c')
  {
    hide GetPrimaryIndex, History, PrepsOK, MatchOK, ViewsOK, WatchOK, LockOK, Remembered, CommitSlotsOK;
  }

  lemma KeepsCommitSlots(cfg: Config, input: set<Payload>, c: Core, a: Act, c': Core)
    requires Inv(cfg, c) && Unforged(cfg, c, input) && Enabled(cfg, input, c, a) && c' == Apply(cfg, c, a)
    ensures CommitSlotsOK(c')
  {
    hide GetPrimaryIndex, History, PrepsOK, MatchOK, ViewsOK, WatchOK, LockOK, Remembered, PreCommitSlotsOK;
  }

  lemma KeepsWatch(cfg: Config, input: set<Payload>, c: Core, a: Act, c': Core)
    requires Inv(cfg, c) && Unforged(cfg, c, input) && Enabled(cfg, input, c, a) && c' == Apply(cfg, c, a)
    ensures WatchOK(cfg, c')
  {
    hide GetPrimaryIndex, MatchOK, LockOK, VoteOnce, CommitOnce, CommitLast, AnswersOK, SignaturesOK, CountedOK;
    hide BuiltOK, OwnBlockOK, CurrentBlockOK, ProcessedOnce;
  }

  // Whoever signed stays in the view; a watch-only node is bound as well, since it never asks for a view.
  lemma SignerStays(cfg: Config, c: Core, v: byte)
    requires Inv(cfg, c) && !Locked(cfg, c) && |Voters(c.changeViews, c.n, AsksFor(v))| >= M(c.n)
    ensures c.me !in c.preCommits && c.me !in c.commits
  {
    hide GetPrimaryIndex, MatchOK, ViewCertified, AntiMEV, VoteOnce, CommitOnce, CommitLast, AnswersOK, LastVotesOK;
    hide SignaturesOK, CountedOK, BuiltOK, OwnBlockOK, CurrentBlockOK, ProcessedOnce, LockOK, Remembered, PrepsOK;
  }

  lemma KeepsLock(cfg: Config, input: set<Payload>, c: Core, a: Act, c': Core)
    requires Inv(cfg, c) && Unforged(cfg, c, input) && Enabled(cfg, input, c, a) && c' == Apply(cfg, c, a)
    ensures LockOK(c')
  {
    hide GetPrimaryIndex, MatchOK, ViewsOK, AntiMEV, VoteOnce, CommitOnce, CommitLast, AnswersOK, WatchOK, Voters, M;
    hide SignaturesOK, CountedOK, BuiltOK, OwnBlockOK, CurrentBlockOK, ProcessedOnce, SentOK, Locked;
    if a.EnterView? {
      SignerStays(cfg, c, a.view);
    }
  }

  lemma KeepsRemembered(cfg: Config, input: set<Payload>, c: Core, a: Act, c': Core)
    requires Inv(cfg, c) && Unforged(cfg, c, input) && Enabled(cfg, input, c, a) && c' == Apply(cfg, c, a)
    ensures Remembered(c')
  {
    hide GetPrimaryIndex, MatchOK, ViewCertified, Voters, M, VoteOnce, CommitOnce, CommitLast, AnswersOK;
    hide SignaturesOK, CountedOK, BuiltOK, OwnBlockOK, CurrentBlockOK, ProcessedOnce;
  }

  lemma StaysUnforged(cfg: Config, input: set<Payload>, c: Core, a: Act)
    requires Unforged(cfg, c, input)
    ensures Unforged(cfg, Apply(cfg, c, a), input)
  {
    hide GetPrimaryIndex, IndexAt;
  }

  lemma StepKeepsInv(cfg: Config, input: set<Payload>, c: Core, a: Act, c': Core)
    requires Inv(cfg, c) && Unforged(cfg, c, input) && Enabled(cfg, input, c, a) && c' == Apply(cfg, c, a)
    ensures Inv(cfg, c') && Unforged(cfg, c', input)
  {
    hide GetPrimaryIndex, Enabled, SentOK, OwnGenuine, VoteOnce, CommitOnce, CommitLast, AnswersOK, SignaturesOK;
    hide CountedOK, BuiltOK, OwnFinalOK, OwnPreBlockOK, CurrentBlockOK, ProcessedOnce, PrepsOK, MatchOK, ViewsOK;
    hide WatchOK;
    hide LockOK, Remembered, PreCommitSlotsOK, CommitSlotsOK, Apply, Unforged;
    StaysUnforged(cfg, input, c, a);
    KeepsVotes(cfg, input, c, a, c');
    KeepsVoteOnce(cfg, input, c, a, c');
    KeepsCommitOnce(cfg, input, c, a, c');
    KeepsCommitLast(cfg, input, c, a, c');
    KeepsAnswers(cfg, input, c, a, c');
    KeepsCounted(cfg, input, c, a, c');
    KeepsBuilt(cfg, input, c, a, c');
    KeepsOwnFinal(cfg, input, c, a, c');
    KeepsOwnPreBlock(cfg, input, c, a, c');
    KeepsCurrentBlock(cfg, input, c, a, c');
    KeepsProcessedOnce(cfg, input, c, a, c');
    KeepsSignatures(cfg, input, c, a, c');
    KeepsPreps(cfg, input, c, a, c');
    KeepsMatch(cfg, input, c, a, c');
    KeepsPreCommitSlots(cfg, input, c, a, c');
    KeepsCommitSlots(cfg, input, c, a, c');
    KeepsViews(cfg, input, c, a, c');
    KeepsWatch(cfg, input, c, a, c');
    KeepsLock(cfg, input, c, a, c');
    KeepsRemembered(cfg, input, c, a, c');
  }

  // ---- runs: finite sequences of steps ----

  predicate Legal(cfg: Config, input: set<Payload>, c: Core, acts: seq<Act>)
    decreases acts
  {
    acts == [] ||
    (Enabled(cfg, input, c, acts[0]) && Legal(cfg, input, Apply(cfg, c, acts[0]), acts[1..]))
  }

  function Execute(cfg: Config, c: Core, acts: seq<Act>): Core
    decreases acts
  {
    if acts == [] then c else Execute(cfg, Apply(cfg, c, acts[0]), acts[1..])
  }

  ghost predicate Reaches(cfg: Config, input: set<Payload>, c: Core, c': Core) {
    exists acts :: Legal(cfg, input, c, acts) && Execute(cfg, c, acts) == c'
  }

  lemma {:induction false} RunsCompose(cfg: Config, input: set<Payload>, c: Core, acts: seq<Act>, more: seq<Act>)
    requires Legal(cfg, input, c, acts) && Legal(cfg, input, Execute(cfg, c, acts), more)
    ensures Legal(cfg, input, c, acts + more)
    ensures Execute(cfg, c, acts + more) == Execute(cfg, Execute(cfg, c, acts), more)
    decreases acts
  {
    hide Enabled, Apply;
    if acts == [] {
      assert acts + more == more;
    } else {
      RunsCompose(cfg, input, Apply(cfg, c, acts[0]), acts[1..], more);
      assert (acts + more)[1..] == acts[1..] + more;
    }
  }

  lemma ReachesTransitive(cfg: Config, input: set<Payload>, a: Core, b: Core, c: Core)
    requires Reaches(cfg, input, a, b) && Reaches(cfg, input, b, c)
    ensures Reaches(cfg, input, a, c)
  {
    hide Enabled, Apply;
    var p :| Legal(cfg, input, a, p) && Execute(cfg, a, p) == b;
    var q :| Legal(cfg, input, b, q) && Execute(cfg, b, q) == c;
    RunsCompose(cfg, input, a, p, q);
  }

  lemma StepReaches(cfg: Config, input: set<Payload>, c: Core, a: Act)
    requires Enabled(cfg, input, c, a)
    ensures Reaches(cfg, input, c, Apply(cfg, c, a))
  {
    hide Enabled, Apply;
    var acts, c' := [a], Apply(cfg, c, a);
    assert acts[0] == a && acts[1..] == [];
    assert Legal(cfg, input, c', []) && Execute(cfg, c', []) == c';
    assert Legal(cfg, input, c, acts) && Execute(cfg, c, acts) == c';
  }

  lemma StutterReaches(cfg: Config, input: set<Payload>, c: Core)
    ensures Reaches(cfg, input, c, c)
  {
    assert Legal(cfg, input, c, []) && Execute(cfg, c, []) == c;
  }

  // ---- what no run undoes ----

  // A node that signed is bound to its view, its proposal and its signature.
  ghost predicate LockKept(c: Core, c': Core) {
    c.me in c.preCommits || c.me in c.commits ==>
      && c'.view == c.view
      && (c.primary in c.preps ==> c.primary in c'.preps && c'.preps[c.primary] == c.preps[c.primary])
      && c'.primary == c.primary
      && (c.me in c.preCommits ==> c.me in c'.preCommits && c'.preCommits[c.me] == c.preCommits[c.me])
      && (c.me in c.commits ==> c.me in c'.commits && c'.commits[c.me] == c.commits[c.me])
  }

  // After a block was processed nothing changes any more but what is delivered and re-sent.
  ghost predicate Settled(c: Core, c': Core) {
    c.blockProcessed ==>
      c' == c.(sent := c'.sent, delivered := c'.delivered)
  }

  // The ChangeViews that led to a view stay until the next view.
  ghost predicate EvidenceKept(c: Core, c': Core) {
    && c'.view >= c.view
    && (c'.view == c.view ==> c'.lastChangeViews == c.lastChangeViews)
  }

  ghost predicate Evolves(c: Core, c': Core) {
    && c.sent <= c'.sent && c.delivered <= c'.delivered
    && c.processed <= c'.processed && c.preBlocks <= c'.preBlocks
    && c.height <= c'.height
    && (c.height == c'.height ==>
          c'.n == c.n && c'.me == c.me && LockKept(c, c') && Settled(c, c') && EvidenceKept(c, c'))
  }

  lemma StepEvolves(cfg: Config, input: set<Payload>, c: Core, a: Act)
    requires Inv(cfg, c) && Unforged(cfg, c, input) && Enabled(cfg, input, c, a)
    ensures Evolves(c, Apply(cfg, c, a))
    ensures Apply(cfg, c, a).delivered <= c.delivered + input
  {
    hide GetPrimaryIndex, SignaturesOK, BuiltOK, AnswersOK, CountedOK, VoteOnce, CommitOnce, CommitLast, MatchOK;
    hide OwnBlockOK, CurrentBlockOK, ProcessedOnce, Remembered;
  }

  lemma EvolvesReflexive(c: Core)
    ensures Evolves(c, c)
  {
  }

  lemma EvolvesTransitive(a: Core, b: Core, c: Core)
    requires Evolves(a, b) && Evolves(b, c)
    ensures Evolves(a, c)
  {
  }

  /** Every run keeps the invariant, and undoes neither a lock nor a processed block. */
  lemma {:induction false} RunKeeps(cfg: Config, input: set<Payload>, c: Core, acts: seq<Act>)
    requires Inv(cfg, c) && Unforged(cfg, c, input) && Legal(cfg, input, c, acts)
    ensures Inv(cfg, Execute(cfg, c, acts)) && Unforged(cfg, Execute(cfg, c, acts), input)
    ensures Evolves(c, Execute(cfg, c, acts)) && Execute(cfg, c, acts).delivered <= c.delivered + input
    decreases acts
  {
    hide Enabled, Apply, Inv, Unforged;
    if acts != [] {
      var c1 := Apply(cfg, c, acts[0]);
      StepKeepsInv(cfg, input, c, acts[0], c1);
      StepEvolves(cfg, input, c, acts[0]);
      RunKeeps(cfg, input, c1, acts[1..]);
      EvolvesTransitive(c, c1, Execute(cfg, c, acts));
    }
  }

  lemma ReachesKeeps(cfg: Config, input: set<Payload>, c: Core, c': Core)
    requires Inv(cfg, c) && Unforged(cfg, c, input) && Reaches(cfg, input, c, c')
    ensures Inv(cfg, c') && Unforged(cfg, c', input) && Evolves(c, c') && c'.delivered <= c.delivered + input
  {
    hide Enabled, Apply, Inv, Unforged, Evolves;
    var acts :| Legal(cfg, input, c, acts) && Execute(cfg, c, acts) == c';
    RunKeeps(cfg, input, c, acts);
  }
}
