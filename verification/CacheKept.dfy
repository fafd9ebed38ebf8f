/** The cache of future messages: none is lost through nested view changes and replays, each that leaves it is handled
    exactly once, and what is left in it belongs to the future. */
module CacheKept {
  import opened Quorum
  import opened Payloads
  import opened NodeState
  import opened Mailbox
  import opened NodeSpec
  import opened Refinement
  import P = Protocol

  // The types that the cache keeps.
  predicate Cacheable(p: Payload) {
    p.IsPreparation() || p.body.ChangeView? || p.body.PreCommit? || p.body.Commit?
  }

  // Requests and responses share one place.
  predicate SameKind(p: Payload, q: Payload) {
    p.Type() == q.Type() || (p.IsPreparation() && q.IsPreparation())
  }

  // q belongs to the place of p.
  predicate Contends(p: Payload, q: Payload) {
    q.height == p.height && q.from == p.from && SameKind(p, q)
  }

  // p is at its place; the cache keeps preparations, ChangeViews, PreCommits and Commits.
  predicate Placed(box: Inbox, p: Payload) {
    || (p.IsPreparation() && p.from in box.prepare && box.prepare[p.from] == p)
    || (p.body.ChangeView? && p.from in box.chViews && box.chViews[p.from] == p)
    || (p.body.PreCommit? && p.from in box.preCommit && box.preCommit[p.from] == p)
    || (p.body.Commit? && p.from in box.commit && box.commit[p.from] == p)
  }

  predicate InPlace(s: State, p: Payload) {
    p.height in s.rest.mail && Placed(s.rest.mail[p.height], p)
  }

  // Nothing but p is at the place of p.
  ghost predicate Alone(mail: map<nat, Inbox>, p: Payload) {
    p.height in mail ==> forall q :: InBox(mail[p.height], q) && Contends(p, q) ==> q == p
  }

  ghost predicate Tidy(s: State, p: Payload) {
    Filed(s.rest.mail) && Alone(s.rest.mail, p)
  }

  // p belongs to the future of the node.
  predicate Awaited(c: Core, p: Payload) {
    p.height >= c.height && FromFuture(c, p)
  }

  // Nobody handles p any more: the process is dead, the block is there, or p is from no validator of its height.
  predicate Excused(s: State, p: Payload) {
    s.rest.crashed || s.core.blockProcessed || (p.height == s.core.height && p.from >= s.core.n)
  }

  // How often p was handed to a handler so far.
  function Times(s: State, p: Payload): nat {
    multiset(s.rest.handled)[p]
  }

  // p left the cache: its time has come and it was handled once, or nobody handles it any more.
  predicate Gone(s: State, r: State, p: Payload) {
    || (!Awaited(r.core, p) && Times(r, p) == Times(s, p) + 1)
    || (Excused(r, p) && Times(r, p) == Times(s, p))
  }

  // What happens to p between two states, if it is not received itself.
  predicate Fate(s: State, r: State, p: Payload) {
    if InPlace(s, p) then if InPlace(r, p) then Times(r, p) == Times(s, p) else Gone(s, r, p)
    else !InPlace(r, p) && Times(r, p) == Times(s, p)
  }

  // What happens to p when it is received once and was not cached.
  predicate Arrives(s: State, r: State, p: Payload) {
    if InPlace(r, p) then Times(r, p) == Times(s, p) else Gone(s, r, p)
  }

  // What is over stays over.
  predicate Ages(s: State, r: State, p: Payload) {
    && s.rest.handled <= r.rest.handled
    && (Excused(s, p) ==> Excused(r, p)) && (!Awaited(s.core, p) ==> !Awaited(r.core, p))
  }

  ghost predicate Tracks(s: State, r: State, p: Payload) {
    Tidy(s, p) ==> Tidy(r, p) && Ages(s, r, p) && Fate(s, r, p)
  }

  // None of the messages belongs to the place of p.
  ghost predicate Aside(p: Payload, msgs: seq<Payload>) {
    forall m :: m in msgs ==> !Contends(p, m)
  }

  lemma EpochTracks(s: State, r: State, p: Payload)
    requires SameEpoch(s, r)
    ensures Tracks(s, r, p)
  {
    hide Filed, Alone, Placed;
  }

  lemma TracksBoth(s: State, t: State, r: State, p: Payload)
    requires Tracks(s, t, p) && Tracks(t, r, p)
    ensures Tracks(s, r, p)
  {
    hide Tidy, InPlace, Awaited, Excused, Times;
  }

  lemma AddedSpares(mail: map<nat, Inbox>, msg: Payload, p: Payload)
    requires !Contends(p, msg)
    ensures var mail' := AddMessage(mail, msg);
      (p.height in mail && Placed(mail[p.height], p)) <==> (p.height in mail' && Placed(mail'[p.height], p))
  {
  }

  lemma CacheTracks(s: State, msg: Payload, p: Payload)
    requires !Contends(p, msg)
    ensures Tracks(s, Cache(s, msg), p)
  {
    hide InBox, Filed, Contends, Placed, AddMessage;
    var r := Cache(s, msg);
    AddedFields(s.rest.mail, msg);
    AddedSpares(s.rest.mail, msg, p);
    if Tidy(s, p) {
      AddedIsFiled(s.rest.mail, msg);
      if p.height == msg.height {
        forall q | InBox(r.rest.mail[p.height], q) && Contends(p, q)
          ensures q == p
        {
          AddedMail(s.rest.mail, msg, q);
        }
      }
    }
  }

  // ---- replays ----

  lemma ReplayedMail(cfg: Config, s: State, m: Payload)
    requires m in CachedMail(cfg, s)
    ensures s.core.height in s.rest.mail && InBox(s.rest.mail[s.core.height], m)
  {
    hide Replay;
  }

  lemma FiledMessage(h: nat, box: Inbox, m: Payload)
    requires BoxFiled(h, box) && InBox(box, m)
    ensures m.height == h && Placed(box, m) && !m.body.Recovery?
  {
  }

  lemma PlacedIsBoxed(box: Inbox, p: Payload)
    requires Placed(box, p)
    ensures InBox(box, p)
  {
  }

  predicate Distinct(s: seq<Payload>) {
    forall i, j :: 0 <= i < j < |s| ==> s[i] != s[j]
  }

  lemma NothingReplayed(cfg: Config, s: State)
    requires s.core.height !in s.rest.mail
    ensures CachedMail(cfg, s) == [] && Distinct([])
  {
  }

  lemma DistinctParts(a: seq<Payload>, b: seq<Payload>)
    requires Distinct(a) && Distinct(b) && forall p :: p in a ==> p !in b
    ensures Distinct(a + b)
  {
    forall i, j | 0 <= i < j < |a + b|
      ensures (a + b)[i] != (a + b)[j]
    {
      assert i < |a| ==> a[i] in a;
      assert j >= |a| ==> b[j - |a|] in b;
    }
  }

  lemma PartIsDistinct(m: map<nat, Payload>, order: set<nat> -> seq<nat>)
    requires forall k :: k in m ==> m[k].from == k
    ensures Distinct(Part(m, order))
  {
    PartSenders(m, order);
  }

  lemma BoxReplaysOnce(h: nat, box: Inbox, order: (nat, set<nat>) -> seq<nat>)
    requires BoxFiled(h, box)
    ensures Distinct(Replay(box, order)) && forall p :: p in Replay(box, order) <==> InBox(box, p)
  {
    hide Part, Distinct, InBox;
    PartIsDistinct(box.prepare, OrderOf(order, 0));
    PartIsDistinct(box.chViews, OrderOf(order, 1));
    PartIsDistinct(box.preCommit, OrderOf(order, 2));
    PartIsDistinct(box.commit, OrderOf(order, 3));
    var a, b := Part(box.prepare, OrderOf(order, 0)), Part(box.chViews, OrderOf(order, 1));
    var c, d := Part(box.preCommit, OrderOf(order, 2)), Part(box.commit, OrderOf(order, 3));
    DistinctParts(a, b);
    DistinctParts(a + b, c);
    DistinctParts(a + b + c, d);
  }

  // A replay hands out p, if it is at its place, and no other message that belongs there.
  lemma MailOf(cfg: Config, s: State, p: Payload)
    requires Tidy(s, p)
    ensures Distinct(CachedMail(cfg, s)) && forall m :: m in CachedMail(cfg, s) ==> !m.body.Recovery?
    ensures forall m :: m in CachedMail(cfg, s) && Contends(p, m) ==> m == p
    ensures p in CachedMail(cfg, s) <==> p.height == s.core.height && InPlace(s, p)
  {
    hide InBox, Placed, BoxFiled, Replay, Distinct;
    var h, mail := s.core.height, CachedMail(cfg, s);
    if h in s.rest.mail {
      BoxReplaysOnce(h, s.rest.mail[h], MapOrder(cfg, s.rest.calls));
      if p.height == h && InPlace(s, p) {
        PlacedIsBoxed(s.rest.mail[h], p);
      }
    } else {
      NothingReplayed(cfg, s);
    }
    forall m | m in mail
      ensures !m.body.Recovery? && (Contends(p, m) ==> m == p) && (m == p ==> p.height == h && InPlace(s, p))
    {
      ReplayedMail(cfg, s, m);
      FiledMessage(h, s.rest.mail[h], m);
    }
  }

  lemma InPlaceIsCacheable(s: State, p: Payload)
    requires InPlace(s, p)
    ensures Cacheable(p)
  {
  }

  // The mail of the height is taken; all other mail stays.
  lemma TakenMail(s: State, p: Payload)
    requires Tidy(s, p)
    ensures var u := TakeMail(s);
      && Tidy(u, p) && Times(u, p) == Times(s, p) && Ages(s, u, p)
      && (InPlace(u, p) <==> p.height != s.core.height && InPlace(s, p))
  {
    hide InBox, Contends, Placed, BoxFiled;
  }

  // The replay after a reset: t is the reset state.
  lemma InitializeTracks(cfg: Config, t: State, p: Payload)
    ensures Tracks(t, Initialize(cfg, t), p)
    decreases 256 - t.core.view, 2, 0, 0
  {
    hide Placed, Filed, Alone, CachedMail, ReceiveAll, Contends, InPlace, Distinct, Tidy, Awaited, Excused, Times;
    var u, mail := TakeMail(t), CachedMail(cfg, t);
    if Tidy(t, p) {
      TakenMail(t, p);
      MailOf(cfg, t, p);
      if p.height == t.core.height && InPlace(t, p) {
        InPlaceIsCacheable(t, p);
        ReceiveAllTakes(cfg, u, mail, p);
      } else {
        ReceiveAllTracks(cfg, u, mail, p);
      }
    }
  }

  lemma TracksItself(s: State, p: Payload)
    ensures Tracks(s, s, p)
  {
  }

  lemma {:induction false} ReceiveAllTracks(cfg: Config, s: State, msgs: seq<Payload>, p: Payload)
    requires Aside(p, msgs) && forall m :: m in msgs ==> !m.body.Recovery?
    ensures Tracks(s, ReceiveAll(cfg, s, msgs), p)
    decreases 256 - s.core.view, 0, 11, |msgs|
  {
    hide OnReceive, Tracks, Contends, SameEpoch;
    if msgs == [] {
      TracksItself(s, p);
    } else {
      var t := OnReceive(cfg, s, msgs[0]);
      assert forall m :: m in msgs[1..] ==> m in msgs;
      OnReceiveTracks(cfg, s, msgs[0], p);
      ReceiveAllTracks(cfg, t, msgs[1..], p);
      TracksBoth(s, t, ReceiveAll(cfg, s, msgs), p);
    }
  }

  // A replay that hands out p once handles it once or caches it again.
  lemma {:induction false} ReceiveAllTakes(cfg: Config, s: State, msgs: seq<Payload>, p: Payload)
    requires p in msgs && Distinct(msgs) && forall m :: m in msgs ==> !m.body.Recovery? && (Contends(p, m) ==> m == p)
    requires Tidy(s, p) && !InPlace(s, p) && p.height == s.core.height && Cacheable(p)
    ensures var r := ReceiveAll(cfg, s, msgs); Tidy(r, p) && Ages(s, r, p) && Arrives(s, r, p)
    decreases 256 - s.core.view, 0, 11, |msgs|
  {
    hide OnReceive, Tidy, InPlace, Contends, Awaited, Excused, Times;
    var r, m, rest := ReceiveAll(cfg, s, msgs), msgs[0], msgs[1..];
    var t := OnReceive(cfg, s, m);
    assert forall q :: q in rest ==> q in msgs;
    if m == p {
      OnReceiveTakes(cfg, s, p);
      forall q | q in rest
        ensures !Contends(p, q)
      {
        var i :| 0 <= i < |rest| && rest[i] == q;
        assert msgs[i + 1] == q && msgs[0] != q;
      }
      ReceiveAllTracks(cfg, t, rest, p);
    } else {
      assert !Contends(p, m);
      OnReceiveTracks(cfg, s, m, p);
      assert p in rest;
      ReceiveAllTakes(cfg, t, rest, p);
    }
  }

  // ---- the handlers ----

  // What a recovery message packs does not belong to the place of p.
  ghost predicate Harmless(msg: Payload, p: Payload) {
    msg.body.Recovery? ==> Aside(p, msg.body.items)
  }

  lemma SeenTracks(s: State, msg: Payload, p: Payload)
    ensures Tracks(s, Seen(s, msg), p)
    ensures !Contends(p, msg) ==> Tracks(s, Taken(s, msg), p)
  {
    hide Filed, Alone, Placed, See;
  }

  lemma OnReceiveTracks(cfg: Config, s: State, msg: Payload, p: Payload)
    requires Harmless(msg, p) && !Contends(p, msg)
    ensures Tracks(s, OnReceive(cfg, s, msg), p)
    decreases 256 - s.core.view, if msg.body.Recovery? then 1 else 0, 10, 1
  {
    hide Contends, Cache, Seen, Taken, Dispatch, Tracks;
    var r, s1 := OnReceive(cfg, s, msg), Deliver(s, msg);
    EpochTracks(s, s1, p);
    if s.rest.crashed || msg.from >= s.core.n || msg.body.Malformed? || msg.height < s.core.height {
    } else if FromFuture(s.core, msg) {
      CacheTracks(s1, msg, p);
      TracksBoth(s, s1, r, p);
    } else {
      SeenTracks(s, msg, p);
      if !s.core.blockProcessed || msg.body.RecoveryRequest? {
        DispatchTracks(cfg, Taken(s, msg), msg, p);
        TracksBoth(s, Taken(s, msg), r, p);
      }
    }
  }

  lemma CachePlaces(s: State, p: Payload)
    requires Tidy(s, p) && Cacheable(p)
    ensures var r := Cache(s, p);
      Tidy(r, p) && InPlace(r, p) && r.core == s.core && Times(r, p) == Times(s, p) && Ages(s, r, p)
  {
    hide InBox, Filed, AddMessage, Contends;
    AddedFields(s.rest.mail, p);
    AddedIsFiled(s.rest.mail, p);
    forall q | InBox(Cache(s, p).rest.mail[p.height], q) && Contends(p, q)
      ensures q == p
    {
      AddedMail(s.rest.mail, p, q);
    }
  }

  // p itself is received: cached for later, handed to its handler, or ignored by a node that handles it no more.
  lemma OnReceiveTakes(cfg: Config, s: State, p: Payload)
    requires Tidy(s, p) && !InPlace(s, p) && p.height == s.core.height && Cacheable(p)
    ensures var r := OnReceive(cfg, s, p); Tidy(r, p) && Ages(s, r, p) && Arrives(s, r, p)
    decreases 256 - s.core.view, 0, 10, 1
  {
    hide Placed, Filed, Alone, Dispatch, See, Cache;
    if s.rest.crashed || p.from >= s.core.n {
    } else if FromFuture(s.core, p) {
      CachePlaces(Deliver(s, p), p);
    } else if !s.core.blockProcessed {
      var v := Taken(s, p);
      DispatchTracks(cfg, v, p, p);
      assert Times(v, p) == Times(s, p) + 1;
    }
  }

  lemma SameEpochReflexive(s: State)
    ensures SameEpoch(s, s)
  {
  }

  lemma SendsTrack(s: State, r: State, p: Payload)
    requires r == s.(core := s.core.(sent := r.core.sent), rest := r.rest) && SameCache(s, r)
    ensures Tracks(s, r, p)
  {
    EpochTracks(s, r, p);
  }

  lemma RecoveryRequestTracks(cfg: Config, s: State, msg: Payload, p: Payload)
    ensures Tracks(s, OnRecoveryRequest(cfg, s, msg), p)
  {
    SendsTrack(s, OnRecoveryRequest(cfg, s, msg), p);
  }

  lemma DispatchTracks(cfg: Config, s: State, msg: Payload, p: Payload)
    requires Harmless(msg, p)
    ensures Tracks(s, Dispatch(cfg, s, msg), p)
    decreases 256 - s.core.view, if msg.body.Recovery? then 1 else 0, 10, 0
  {
    hide Tracks, SameEpoch;
    hide OnPrepareRequest, OnPrepareResponse, OnPreCommit, OnCommit, OnChangeView, OnRecoveryRequest, OnRecoveryMessage;
    EpochTracks(s, s, p) by {
      SameEpochReflexive(s);
    }
    match msg.body {
      case ChangeView(_, _) => OnChangeViewTracks(cfg, s, msg, p);
      case PrepareRequest(_, _, _) => OnPrepareRequestTracks(cfg, s, msg, p);
      case PrepareResponse(_) => EpochTracks(s, OnPrepareResponse(cfg, s, msg), p);
      case Commit(_) => EpochTracks(s, OnCommit(cfg, s, msg), p);
      case PreCommit(_) => EpochTracks(s, OnPreCommit(cfg, s, msg), p);
      case RecoveryRequest => RecoveryRequestTracks(cfg, s, msg, p);
      case Recovery(_) => OnRecoveryMessageTracks(cfg, s, msg, p);
      case Malformed =>
    }
  }

  lemma ResetTracks(s: State, view: byte, ts: nat, p: Payload)
    requires view >= s.core.view
    ensures Tracks(s, ResetView(s, view, ts), p)
  {
    hide Filed, Alone, Placed, Asking;
  }

  lemma SameViewIn(s: State, r: State)
    requires SameEpoch(s, r)
    ensures r.core.view == s.core.view
  {
  }

  lemma CheckChangeViewTracks(cfg: Config, s: State, view: byte, p: Payload)
    ensures Tracks(s, CheckChangeView(cfg, s, view), p)
    decreases 256 - s.core.view, 0, 6, 0
  {
    hide Tracks, Initialize, ResetView, Voters, MakeChangeView, SameEpoch;
    var c := s.core;
    EpochTracks(s, s, p) by {
      SameEpochReflexive(s);
    }
    if c.view < view && |Voters(c.changeViews, c.n, AsksFor(view))| >= M(c.n) {
      var s1 :=
        if !WatchOnly(cfg, c) && c.me in c.changeViews && c.changeViews[c.me].NewView() < view
        then MakeChangeView(s, CVChangeAgreement) else s;
      EpochTracks(s, s1, p) by {
        SameEpochReflexive(s);
      }
      SameViewIn(s, s1) by {
        SameEpochReflexive(s);
      }
      var t := ResetView(s1, view, s1.rest.lastTimestamp);
      ResetTracks(s1, view, s1.rest.lastTimestamp, p);
      TracksBoth(s, s1, t, p);
      InitializeTracks(cfg, t, p);
      TracksBoth(s, t, Initialize(cfg, t), p);
    }
  }

  lemma AskingRecoveryTracks(cfg: Config, s: State, p: Payload)
    requires s.core.me >= 0
    ensures Tracks(s, SendRecoveryRequest(cfg, s), p)
  {
    hide ProcessMissingTx, Tracks;
    MissingTxKeepsCore(cfg, s, s.rest.txs);
    EpochTracks(s, SendRecoveryRequest(cfg, s), p);
  }

  lemma SendChangeViewTracks(cfg: Config, s: State, reason: Reason, p: Payload)
    ensures Tracks(s, SendChangeView(cfg, s, reason), p)
    decreases 256 - s.core.view, 0, 7, 0
  {
    hide Tracks, CheckChangeView, MakeChangeView, SameEpoch, MoreThanFNodesCommittedOrLost, SendRecoveryRequest;
    EpochTracks(s, s, p) by {
      SameEpochReflexive(s);
    }
    if WatchOnly(cfg, s.core) {
    } else if reason == CVTimeout && MoreThanFNodesCommittedOrLost(s) {
      AskingRecoveryTracks(cfg, s, p);
    } else {
      var reason' := if !HasAllTransactions(s) && reason == CVTimeout then CVTxNotFound else reason;
      var t := MakeChangeView(s, reason');
      EpochTracks(s, t, p);
      CheckChangeViewTracks(cfg, t, NextView(s.core.view), p) by {
        assert t.core.view == s.core.view by {
          SameViewIn(s, t);
        }
      }
      TracksBoth(s, t, SendChangeView(cfg, s, reason), p);
    }
  }

  lemma CreateAndCheckBlockTracks(cfg: Config, s: State, p: Payload)
    ensures Tracks(s, CreateAndCheckBlock(cfg, s), p)
    decreases 256 - s.core.view, 0, 8, 0
  {
    hide Tracks, CreateBlock, CreatePreBlock, SendChangeView, BlockOK;
    var t := Tick(BuildBlock(cfg, s));
    EpochTracks(s, t, p);
    if !BlockOK(cfg, s) {
      SendChangeViewTracks(cfg, t, CVTxInvalid, p);
      TracksBoth(s, t, CreateAndCheckBlock(cfg, s), p);
    }
  }

  lemma OnPrepareRequestTracks(cfg: Config, s: State, msg: Payload, p: Payload)
    requires msg.body.PrepareRequest?
    ensures Tracks(s, OnPrepareRequest(cfg, s, msg), p)
    decreases 256 - s.core.view, 0, 9, 0
  {
    hide Tracks, SendChangeView, AdoptRequest, CreateAndCheckBlock, BlockOK, Respond, GetPrimaryIndex;
    hide HasAllTransactions;
    var c, r, s1 := s.core, OnPrepareRequest(cfg, s, msg), Tick(s);
    EpochTracks(s, s, p);
    if RequestKnown(c) || c.view != msg.view || msg.from != GetPrimaryIndex(c.height, c.view, c.n) {
      return;
    }
    EpochTracks(s, s1, p);
    if !cfg.verifyPayload(s.rest.calls, msg) {
      SendChangeViewTracks(cfg, s1, CVBlockRejectedByPolicy, p);
      TracksBoth(s, s1, r, p);
      return;
    }
    var s2 := AdoptRequest(cfg, s1, msg);
    EpochTracks(s1, s2, p);
    TracksBoth(s, s1, s2, p);
    if HasAllTransactions(s2) {
      var s3 := CreateAndCheckBlock(cfg, s2);
      CreateAndCheckBlockTracks(cfg, s2, p);
      TracksBoth(s, s2, s3, p);
      if BlockOK(cfg, s2) && !WatchOnly(cfg, s3.core) {
        EpochTracks(s3, Respond(cfg, s3), p);
        TracksBoth(s, s3, r, p);
      }
    }
  }

  lemma OnChangeViewTracks(cfg: Config, s: State, msg: Payload, p: Payload)
    requires msg.body.ChangeView?
    ensures Tracks(s, OnChangeView(cfg, s, msg), p)
    decreases 256 - s.core.view, 0, 9, 0
  {
    hide Tracks, CheckChangeView, OnRecoveryRequest, RecoveryItems;
    EpochTracks(s, s, p);
    RecoveryRequestTracks(cfg, s, msg, p);
    if msg.NewView() > s.core.view {
      if Locked(cfg, s.core) {
        SendsTrack(s, SendRecoveryMessage(cfg, s), p);
      } else {
        var t := s.(core := s.core.(changeViews := s.core.changeViews[msg.from := msg]));
        EpochTracks(s, t, p);
        CheckChangeViewTracks(cfg, t, msg.body.newView, p);
        TracksBoth(s, t, CheckChangeView(cfg, t, msg.body.newView), p);
      }
    }
  }

  lemma UnpackedIsHarmless(msg: Payload, t: Kind, p: Payload)
    requires msg.body.Recovery? && Harmless(msg, p) && t != RecoveryMessageType
    ensures Aside(p, Unpack(msg.body.items, t))
    ensures forall m :: m in Unpack(msg.body.items, t) ==> !m.body.Recovery?
  {
    hide Contends;
  }

  lemma OnRecoveryMessageTracks(cfg: Config, s: State, msg: Payload, p: Payload)
    requires msg.body.Recovery? && Harmless(msg, p)
    ensures Tracks(s, OnRecoveryMessage(cfg, s, msg), p)
    decreases 256 - s.core.view, 1, 9, 0
  {
    hide Tracks, ReceiveAll, RecoverPreparations, Harmless, Aside;
    var r, items := OnRecoveryMessage(cfg, s, msg), msg.body.items;
    EpochTracks(s, s, p);
    if msg.view > s.core.view && Locked(cfg, s.core) {
      return;
    }
    var s1 := s;
    if msg.view > s.core.view {
      s1 := ReceiveAll(cfg, s, Unpack(items, ChangeViewType));
      UnpackedIsHarmless(msg, ChangeViewType, p);
      ReceiveAllTracks(cfg, s, Unpack(items, ChangeViewType), p);
    }
    var s2 := RecoverPreparations(cfg, s1, msg);
    RecoverPreparationsTrack(cfg, s1, msg, p);
    TracksBoth(s, s1, s2, p);
    if msg.view <= s2.core.view {
      var s3 := ReceiveAll(cfg, s2, Unpack(items, PreCommitType));
      UnpackedIsHarmless(msg, PreCommitType, p);
      UnpackedIsHarmless(msg, CommitType, p);
      ReceiveAllTracks(cfg, s2, Unpack(items, PreCommitType), p);
      ReceiveAllTracks(cfg, s3, Unpack(items, CommitType), p);
      TracksBoth(s, s2, s3, p);
      TracksBoth(s, s3, r, p);
    }
  }

  lemma RecoverPreparationsTrack(cfg: Config, s: State, msg: Payload, p: Payload)
    requires msg.body.Recovery? && Harmless(msg, p)
    ensures Tracks(s, RecoverPreparations(cfg, s, msg), p)
    decreases 256 - s.core.view, 1, 8, 0
  {
    hide Tracks, ReceiveAll, OnReceive, MoreThanFNodesCommittedOrLost, Contends;
    var r, requests := RecoverPreparations(cfg, s, msg), Unpack(msg.body.items, PrepareRequestType);
    EpochTracks(s, s, p);
    if r != s {
      var s1 := s;
      UnpackedIsHarmless(msg, PrepareRequestType, p);
      UnpackedIsHarmless(msg, PrepareResponseType, p);
      if !RequestKnown(s.core) && requests != [] {
        assert requests[0] in requests;
        s1 := OnReceive(cfg, s, requests[0]);
        OnReceiveTracks(cfg, s, requests[0], p);
      }
      ReceiveAllTracks(cfg, s1, Unpack(msg.body.items, PrepareResponseType), p);
      TracksBoth(s, s1, r, p);
    }
  }

  // ---- the other entry points ----

  lemma SendingTracks(cfg: Config, s: State, force: bool, p: Payload)
    requires s.core.me >= 0
    ensures Tracks(s, SendRecoveryMessage(cfg, s), p)
    ensures Tracks(s, SendPrepareRequest(cfg, s, force), p)
  {
    hide Tracks, RecoveryItems, SendPrepareRequest;
    SendsTrack(s, SendRecoveryMessage(cfg, s), p);
    EpochTracks(s, SendPrepareRequest(cfg, s, force), p);
  }

  lemma SubscribingTracks(s: State, p: Payload)
    ensures forall b: bool :: Tracks(s, s.(rest := s.rest.(txSubscription := b)), p)
    ensures forall b: bool :: Tracks(s, Tick(s).(rest := Tick(s).rest.(txSubscription := b)), p)
  {
    hide Filed, Alone, Placed;
  }

  lemma OnTimeoutTracks(cfg: Config, s: State, height: nat, view: byte, force: bool, p: Payload)
    ensures Tracks(s, OnTimeout(cfg, s, height, view, force), p)
  {
    hide Tracks, SendPrepareRequest, SendChangeView, SendRecoveryMessage;
    var c := s.core;
    EpochTracks(s, s, p);
    if s.rest.crashed || WatchOnly(cfg, c) || c.blockProcessed || height != c.height || view != c.view {
      return;
    }
    SendChangeViewTracks(cfg, s, CVTimeout, p);
    EpochTracks(s, Tick(s), p);
    SendChangeViewTracks(cfg, Tick(s), CVTimeout, p);
    TracksBoth(s, Tick(s), SendChangeView(cfg, Tick(s), CVTimeout), p);
    SendingTracks(cfg, s, c.view != 0 || s.rest.txSubscription || force, p);
    SubscribingTracks(s, p);
  }

  lemma AddTransactionTracks(cfg: Config, s: State, tx: Hash, p: Payload)
    ensures Tracks(s, AddTransaction(cfg, s, tx), p)
  {
    hide Tracks, CreateAndCheckBlock, BlockOK, VerifyPreCommits, Respond, HasAllTransactions;
    var r, s1 := AddTransaction(cfg, s, tx), s.(rest := s.rest.(transactions := s.rest.transactions + {tx}));
    EpochTracks(s, s1, p);
    if HasAllTransactions(s1) && !IsPrimary(s1.core) && !WatchOnly(cfg, s1.core) {
      var s2 := CreateAndCheckBlock(cfg, s1);
      CreateAndCheckBlockTracks(cfg, s1, p);
      TracksBoth(s, s1, s2, p);
      if BlockOK(cfg, s1) {
        var s3 := VerifyPreCommits(s2);
        EpochTracks(s2, s3, p);
        TracksBoth(s, s2, s3, p);
        EpochTracks(s3, Respond(cfg, s3), p);
        TracksBoth(s, s3, r, p);
      }
    }
  }

  lemma OnTransactionTracks(cfg: Config, s: State, tx: Hash, p: Payload)
    ensures Tracks(s, OnTransaction(cfg, s, tx), p)
  {
    hide Tracks, AddTransaction, AwaitsTransactions, IndexOf;
    var r, t := OnTransaction(cfg, s, tx), AddTransaction(cfg, s, tx);
    EpochTracks(s, s, p);
    if r != s {
      AddTransactionTracks(cfg, s, tx, p);
      EpochTracks(t, r, p);
      TracksBoth(s, t, r, p);
    }
  }

  // No payload of the event belongs to the place of p.
  ghost predicate Spared(e: Event, p: Payload) {
    forall m :: m in Input(e) ==> !Contends(p, m)
  }

  // A new height keeps the cache and the log.
  lemma NextHeightTracks(cfg: Config, s: State, height: nat, ts: nat, p: Payload)
    requires Tidy(s, p) && InPlace(s, p) && !s.rest.crashed
    ensures var r := Reset(cfg, s, height, ts); s.rest.handled <= r.rest.handled && Fate(s, r, p)
  {
    hide Initialize, Placed, Filed, Alone, GetPrimaryIndex, IndexAt;
    InitializeTracks(cfg, ResetHeight(cfg, s, height, ts), p);
  }

  lemma PlacedIsAlone(s: State, p: Payload)
    requires Coherent(s) && InPlace(s, p)
    ensures Tidy(s, p)
  {
    hide ProposalOK, BlocksOK, TransactionsOK, CompleteOK, MailOK;
    assert BoxFiled(p.height, s.rest.mail[p.height]);
  }

  /** Whatever nested view changes and replays a call causes: afterwards every cached message of the current height
      belongs to a later view, and no ChangeView or recovery message is among them. */
  lemma CacheIsFuture(cfg: Config, s: State, e: Event, p: Payload)
    requires Ready(cfg, Input(e), s) && Proper(s, e)
    ensures var r := Handle(cfg, s, e);
      r.core.height in r.rest.mail && InBox(r.rest.mail[r.core.height], p) ==>
        p.height == r.core.height && p.view > r.core.view && !p.body.ChangeView? && !p.body.Recovery?
  {
    hide P.Inv, P.Unforged, P.Reaches, Handle, ProposalOK, BlocksOK, TransactionsOK, CompleteOK, P.Evolves;
    HandleRefines(cfg, s, e);
    var r := Handle(cfg, s, e);
    assert Coherent(r);
    if r.core.height in r.rest.mail && InBox(r.rest.mail[r.core.height], p) {
      assert MailItemOK(r, r.core.height, p);
    }
  }

  lemma InPlaceIsFuture(cfg: Config, s: State, e: Event, p: Payload)
    requires Ready(cfg, Input(e), s) && Proper(s, e) && InPlace(Handle(cfg, s, e), p)
    ensures var r := Handle(cfg, s, e); p.height == r.core.height ==> Awaited(r.core, p)
  {
    hide P.Inv, P.Unforged, P.Reaches, Handle, Ready, Placed;
    PlacedIsBoxed(Handle(cfg, s, e).rest.mail[p.height], p);
    CacheIsFuture(cfg, s, e, p);
  }

  /** Through every call, with all its nested view changes and replays, a cached message stays cached and is not
      handled, or it leaves the cache and is handed to its handler exactly once, when its time has come. The exceptions:
      the process is dead, the block of the height is there, or the sender is no validator of the height. */
  lemma NothingIsLost(cfg: Config, s: State, e: Event, p: Payload)
    requires Ready(cfg, Input(e), s) && Proper(s, e) && Spared(e, p) && !s.rest.crashed && InPlace(s, p)
    ensures var r := Handle(cfg, s, e);
      && s.rest.handled <= r.rest.handled
      && (if InPlace(r, p)
          then multiset(r.rest.handled)[p] == multiset(s.rest.handled)[p]
               && (p.height == r.core.height ==> Awaited(r.core, p))
          else || (!Awaited(r.core, p) && multiset(r.rest.handled)[p] == multiset(s.rest.handled)[p] + 1)
               || (Excused(r, p) && multiset(r.rest.handled)[p] == multiset(s.rest.handled)[p]))
  {
    hide P.Inv, P.Unforged, P.Reaches, OnReceive, OnTimeout, OnTransaction, Reset, Contends, InPlace, Awaited, Excused;
    hide ProposalOK, BlocksOK, TransactionsOK, CompleteOK, MailOK, P.Evolves, Follows, Does;
    PlacedIsAlone(s, p);
    match e {
      case Received(msg) => OnReceiveTracks(cfg, s, msg, p);
      case Timeout(h, v) => OnTimeoutTracks(cfg, s, h, v, false, p);
      case NewTransaction(h, v) =>
        OnTimeoutTracks(cfg, s, h, v, true, p);
        TracksItself(s, p);
      case ProposedTransaction(tx) => OnTransactionTracks(cfg, s, tx, p);
      case NextHeight(h, ts) => NextHeightTracks(cfg, s, h, ts, p);
    }
    if InPlace(Handle(cfg, s, e), p) {
      InPlaceIsFuture(cfg, s, e, p);
    }
  }

  // ---- what is in the cache, and what a replay hands out ----

  /** A replay hands out every cached message of the height exactly once, in whatever order the map iteration takes. */
  lemma ReplayedOnce(cfg: Config, s: State)
    requires Coherent(s)
    ensures var mail, h := CachedMail(cfg, s), s.core.height;
      Distinct(mail) && forall p :: p in mail <==> h in s.rest.mail && InBox(s.rest.mail[h], p)
  {
    hide ProposalOK, BlocksOK, TransactionsOK, CompleteOK, MailOK, Replay, Distinct, BoxFiled, InBox;
    if s.core.height in s.rest.mail {
      BoxReplaysOnce(s.core.height, s.rest.mail[s.core.height], MapOrder(cfg, s.rest.calls));
    } else {
      NothingReplayed(cfg, s);
    }
  }

  /** A start forgets what was cached: nothing of it is handled any more. */
  lemma StartForgets(cfg: Config, s: State, height: nat, ts: nat)
    ensures var r := Start(cfg, s, height, ts); r.rest.mail == map[] && r.rest.handled == s.rest.handled
  {
    hide SendPrepareRequest, GetPrimaryIndex;
    var t := ResetHeight(cfg, s.(rest := s.rest.(mail := map[])), height, ts);
    assert CachedMail(cfg, t) == [] && Initialize(cfg, t) == TakeMail(t);
  }
}
