/** Who answers a recovery request, and what a recovery message does for a node that fell behind. */
module CatchUp {
  import opened Quorum
  import opened Payloads
  import opened NodeState
  import opened Mailbox
  import opened NodeSpec
  import P = Protocol

  // ---- who answers ----

  // The k-th validator after the sender.
  function After(from: nat, k: nat, n: pos): (i: int)
    requires from < n && k < n
    ensures 0 <= i < n
  {
    if from + 1 + k < n then from + 1 + k else from + 1 + k - n
  }

  function Gap(from: nat, i: int, n: pos): int {
    TruncMod(i - from + n - 1, n)
  }

  function Within(from: nat, k: int, n: pos): set<int> {
    set i | 0 <= i < n && Gap(from, i, n) <= k
  }

  lemma Distance(from: nat, i: nat, k: nat, n: pos)
    requires from < n && i < n && k < n
    ensures Gap(from, i, n) >= 0
    ensures Gap(from, i, n) == k <==> i == After(from, k, n)
  {
    var d := i - from + n - 1;
    if d < n {
      ModUnique(d, n, 0, d);
    } else {
      ModUnique(d, n, 1, d - n);
    }
  }

  lemma {:induction false} WithinSize(from: nat, k: int, n: pos)
    requires from < n && -1 <= k < n
    ensures |Within(from, k, n)| == k + 1
    decreases k + 1
  {
    if k == -1 {
      forall i | 0 <= i < n
        ensures Gap(from, i, n) >= 0
      {
        Distance(from, i, 0, n);
      }
      assert Within(from, k, n) == {};
    } else {
      WithinSize(from, k - 1, n);
      var i := After(from, k, n);
      forall j | 0 <= j < n
        ensures j in Within(from, k, n) <==> j in Within(from, k - 1, n) || j == i
      {
        Distance(from, j, k, n);
      }
      Distance(from, i, k, n);
      assert i !in Within(from, k - 1, n);
      assert Within(from, k, n) == Within(from, k - 1, n) + {i};
    }
  }

  /** Of two or more validators that have not committed, exactly F+1 answer a recovery request, and the sender is not
      one of them. */
  lemma FPlusOneAnswer(from: nat, n: pos)
    requires n >= 2 && from < n
    ensures |set i | 0 <= i < n && Answers(i, from, n)| == F(n) + 1
    ensures !Answers(from, from, n)
  {
    WithinSize(from, F(n), n);
    forall i | 0 <= i < n
      ensures Answers(i, from, n) <==> i in Within(from, F(n), n)
    {
    }
    assert (set i | 0 <= i < n && Answers(i, from, n)) == Within(from, F(n), n);
    Distance(from, from, n - 1, n);
  }

  // An active validator that has not signed anything at its height.
  ghost predicate Uncommitted(cfg: Config, s: State, height: nat, n: pos, i: int) {
    && !s.rest.crashed && !cfg.watchOnly && s.core.height == height && s.core.n == n && s.core.me == i
    && !Locked(cfg, s.core)
  }

  ghost predicate Replies(cfg: Config, s: State, msg: Payload) {
    && s.core.me >= 0
    && OnReceive(cfg, s, msg).core.sent == s.core.sent + [Own(s.core, Recovery(RecoveryItems(cfg, s.core)))]
  }

  lemma ReplyIffAnswers(cfg: Config, s: State, msg: Payload, n: pos, i: nat)
    requires Uncommitted(cfg, s, msg.height, n, i) && i < n && msg.from < n
    requires msg.body.RecoveryRequest? && msg.view <= s.core.view
    ensures Replies(cfg, s, msg) <==> Answers(i, msg.from, n)
    ensures !Answers(i, msg.from, n) ==> OnReceive(cfg, s, msg).core.sent == s.core.sent
  {
    hide Answers, Filled, Cache;
    var s1 := Taken(s, msg);
    assert OnReceive(cfg, s, msg) == OnRecoveryRequest(cfg, s1, msg);
    assert RecoveryItems(cfg, s1.core) == RecoveryItems(cfg, s.core);
    assert |OnReceive(cfg, s, msg).core.sent| == |s.core.sent| + if Answers(i, msg.from, n) then 1 else 0;
  }

  /** The whole path of a recovery request: when nobody has committed, F+1 validators broadcast their state, all
      others stay silent, and at least one of those who speak is correct. */
  lemma RequestIsAnswered(cfgs: seq<Config>, nodes: seq<State>, msg: Payload, n: pos, faulty: set<int>)
    returns (speaker: int)
    requires n >= 2 && |cfgs| == |nodes| == n && msg.from < n && msg.body.RecoveryRequest? && |faulty| <= F(n)
    requires forall i :: 0 <= i < n ==>
      Uncommitted(cfgs[i], nodes[i], msg.height, n, i) && msg.view <= nodes[i].core.view
    ensures |set i | 0 <= i < n && Replies(cfgs[i], nodes[i], msg)| == F(n) + 1
    ensures forall i | 0 <= i < n :: !Replies(cfgs[i], nodes[i], msg) ==>
      OnReceive(cfgs[i], nodes[i], msg).core.sent == nodes[i].core.sent
    ensures 0 <= speaker < n && speaker !in faulty && speaker != msg.from && Replies(cfgs[speaker], nodes[speaker], msg)
  {
    hide Uncommitted, Replies, Answers, OnReceive;
    forall i | 0 <= i < n
      ensures Replies(cfgs[i], nodes[i], msg) <==> Answers(i, msg.from, n)
      ensures !Replies(cfgs[i], nodes[i], msg) ==> OnReceive(cfgs[i], nodes[i], msg).core.sent == nodes[i].core.sent
    {
      ReplyIffAnswers(cfgs[i], nodes[i], msg, n, i);
    }
    FPlusOneAnswer(msg.from, n);
    var speakers := set i | 0 <= i < n && Replies(cfgs[i], nodes[i], msg);
    assert speakers == set i | 0 <= i < n && Answers(i, msg.from, n);
    speaker := PickOutside(speakers, faulty);
  }

  /** Who sent a Commit, or a PreCommit at an anti-MEV height, answers every recovery request, whatever its index. */
  lemma BoundReplies(cfg: Config, s: State, msg: Payload)
    requires !s.rest.crashed && msg.body.RecoveryRequest? && msg.height == s.core.height && msg.from < s.core.n
    requires msg.view <= s.core.view
    requires CommitSent(cfg, s.core) || (AntiMEV(cfg, s.core.height) && PreCommitSent(cfg, s.core))
    ensures Replies(cfg, s, msg)
  {
    hide Answers, Filled, Cache, See;
    var s1 := Taken(s, msg);
    assert OnReceive(cfg, s, msg) == OnRecoveryRequest(cfg, s1, msg);
    assert RecoveryItems(cfg, s1.core) == RecoveryItems(cfg, s.core);
  }

  /** A bound node does not follow a ChangeView; it answers with what it knows. */
  lemma BoundAnswersChangeView(cfg: Config, s: State, msg: Payload)
    requires !s.rest.crashed && !s.core.blockProcessed && Locked(cfg, s.core)
    requires msg.body.ChangeView? && msg.height == s.core.height && msg.from < s.core.n && msg.NewView() > s.core.view
    ensures Replies(cfg, s, msg) && OnReceive(cfg, s, msg).core.view == s.core.view
    ensures OnReceive(cfg, s, msg).core.changeViews == s.core.changeViews
  {
    hide Filled, Cache, See, OnPrepareRequest, OnPrepareResponse, OnPreCommit, OnCommit, OnRecoveryMessage;
    hide OnRecoveryRequest, CheckChangeView;
    var s1 := Taken(s, msg);
    assert OnReceive(cfg, s, msg) == OnChangeView(cfg, s1, msg);
    assert RecoveryItems(cfg, s1.core) == RecoveryItems(cfg, s.core);
  }

  // ---- when ChangeViews move a node ----

  // What decides about a view change: the stored ChangeViews of an epoch.
  datatype Poll = Poll(height: nat, n: pos, view: byte, votes: Slots)

  function PollOf(c: Core): Poll {
    Poll(c.height, c.n, c.view, c.changeViews)
  }

  // The ChangeView is stored, and the votes for its view are counted.
  predicate Counts(b: Poll, p: Payload) {
    && p.body.ChangeView? && p.height == b.height && p.from < b.n && p.NewView() > b.view
    && (p.from in b.votes ==> b.votes[p.from].NewView() <= p.NewView())
  }

  function Noted(b: Poll, p: Payload): Poll {
    if Counts(b, p) then b.(votes := b.votes[p.from := p]) else b
  }

  function NotedAll(b: Poll, msgs: seq<Payload>): Poll
    decreases |msgs|
  {
    if msgs == [] then b else NotedAll(Noted(b, msgs[0]), msgs[1..])
  }

  // With this ChangeView, M stored ones ask for its view or a later one.
  predicate Decides(b: Poll, p: Payload) {
    Counts(b, p) && |Voters(Noted(b, p).votes, b.n, AsksFor(p.body.newView))| >= M(b.n)
  }

  // Some ChangeView of the list decides when it comes.
  predicate SomeDecides(b: Poll, msgs: seq<Payload>) {
    exists i :: 0 <= i < |msgs| && Decides(NotedAll(b, msgs[..i]), msgs[i])
  }

  lemma NotedEpoch(b: Poll, msgs: seq<Payload>)
    ensures NotedAll(b, msgs) == b.(votes := NotedAll(b, msgs).votes)
    decreases |msgs|
  {
  }

  // A node that may change its view.
  ghost predicate Free(cfg: Config, s: State) {
    !s.rest.crashed && !s.core.blockProcessed && !Locked(cfg, s.core)
  }

  lemma AnswersOnly(cfg: Config, s: State, p: Payload)
    ensures var r := OnRecoveryRequest(cfg, s, p); r == s.(core := s.core.(sent := r.core.sent))
  {
    hide Answers, RecoveryItems, Locked, CommitSent, PreCommitSent;
  }

  // A ChangeView of another epoch or of no validator is dropped or cached.
  lemma IsElsewhere(cfg: Config, s: State, p: Payload)
    requires Free(cfg, s) && p.body.ChangeView? && !(p.height == s.core.height && p.from < s.core.n)
    ensures var r := OnReceive(cfg, s, p); r.core == s.core.(delivered := r.core.delivered) && Free(cfg, r)
  {
    hide Dispatch, See, AddMessage;
  }

  lemma IsHandled(cfg: Config, s: State, p: Payload)
    requires Free(cfg, s) && p.body.ChangeView? && p.height == s.core.height && p.from < s.core.n
    ensures OnReceive(cfg, s, p) == OnChangeView(cfg, Taken(s, p), p)
  {
    hide Cache, See, OnChangeView, OnPrepareRequest, OnPrepareResponse, OnPreCommit, OnCommit, OnRecoveryMessage;
    hide OnRecoveryRequest;
  }

  lemma OneDecides(cfg: Config, s: State, p: Payload)
    requires Free(cfg, s) && p.body.ChangeView?
    ensures var r := OnReceive(cfg, s, p);
      if Decides(PollOf(s.core), p) then r.core.view >= p.body.newView > s.core.view
      else Free(cfg, r) && PollOf(r.core) == Noted(PollOf(s.core), p)
  {
    hide Initialize, Voters, OnReceive, OnRecoveryRequest, MakeChangeView, ResetView, Taken;
    if p.height == s.core.height && p.from < s.core.n {
      IsHandled(cfg, s, p);
      AnswersOnly(cfg, Taken(s, p), p);
    } else {
      IsElsewhere(cfg, s, p);
    }
  }

  // What is decided by a list is decided by its first ChangeView or by the rest.
  lemma RestDecides(b: Poll, msgs: seq<Payload>)
    requires msgs != []
    ensures SomeDecides(b, msgs) <==> Decides(b, msgs[0]) || SomeDecides(Noted(b, msgs[0]), msgs[1..])
  {
    hide Decides, Noted;
    var first, rest := Noted(b, msgs[0]), msgs[1..];
    assert NotedAll(b, msgs[..0]) == b;
    forall i | 0 <= i < |rest|
      ensures NotedAll(b, msgs[..i + 1]) == NotedAll(first, rest[..i]) && msgs[i + 1] == rest[i]
    {
      assert msgs[..i + 1][1..] == rest[..i];
    }
    if i :| 0 <= i < |msgs| && Decides(NotedAll(b, msgs[..i]), msgs[i]) {
      assert i > 0 ==> Decides(NotedAll(first, rest[..i - 1]), rest[i - 1]);
    }
    if i :| 0 <= i < |rest| && Decides(NotedAll(first, rest[..i]), rest[i]) {
      assert Decides(NotedAll(b, msgs[..i + 1]), msgs[i + 1]);
    }
    assert Decides(b, msgs[0]) ==> Decides(NotedAll(b, msgs[..0]), msgs[0]);
  }

  lemma Undecided(b: Poll)
    ensures !SomeDecides(b, [])
  {
  }

  /** A node leaves its view over a list of ChangeViews exactly when one of them, taken in order, asks for a view for
      which M stored ones ask by then, or for a later one. That M ask to leave is not enough: votes are counted for the
      view of the message that comes. */
  lemma {:induction false} ListDecides(cfg: Config, s: State, msgs: seq<Payload>, v: nat)
    requires Free(cfg, s) && forall p :: p in msgs ==> p.body.ChangeView? && p.NewView() >= v
    ensures var r := ReceiveAll(cfg, s, msgs);
      if SomeDecides(PollOf(s.core), msgs) then r.core.view > s.core.view && r.core.view >= v
      else Free(cfg, r) && PollOf(r.core) == NotedAll(PollOf(s.core), msgs)
    decreases |msgs|
  {
    hide OnReceive, SomeDecides, Decides, Counts, Noted, Free;
    if msgs == [] {
      Undecided(PollOf(s.core));
    } else {
      var t := OnReceive(cfg, s, msgs[0]);
      OneDecides(cfg, s, msgs[0]);
      RestDecides(PollOf(s.core), msgs);
      assert forall p :: p in msgs[1..] ==> p in msgs;
      if !Decides(PollOf(s.core), msgs[0]) {
        ListDecides(cfg, t, msgs[1..], v);
      }
    }
  }

  // ---- catching up ----

  lemma RecoveryIsHandled(cfg: Config, s: State, msg: Payload)
    requires msg.body.Recovery? && msg.height == s.core.height && msg.from < s.core.n
    requires !s.rest.crashed && !s.core.blockProcessed
    ensures OnReceive(cfg, s, msg) == OnRecoveryMessage(cfg, Taken(s, msg), msg)
  {
    hide OnPrepareRequest, OnPrepareResponse, OnPreCommit, OnCommit, OnChangeView, OnRecoveryRequest, Cache;
    hide OnRecoveryMessage, See;
  }

  predicate AllAskFrom(msgs: seq<Payload>, v: nat) {
    forall p :: p in msgs ==> p.NewView() >= v
  }

  /** What a recovery message of a later view does for an uncommitted node: it leaves its view exactly when one of the
      packed ChangeViews decides, and if all of them ask for the view of the sender or a later one, it then reaches
      that view. Otherwise it stays and only notes the ChangeViews. */
  lemma RecoveryDecides(cfg: Config, s: State, msg: Payload)
    requires msg.body.Recovery? && msg.height == s.core.height && msg.from < s.core.n
    requires Free(cfg, s) && s.core.view < msg.view
    ensures var r, cvs, b := OnReceive(cfg, s, msg), Unpack(msg.body.items, ChangeViewType), PollOf(s.core);
      && (r.core.view > s.core.view <==> SomeDecides(b, cvs))
      && (AllAskFrom(cvs, msg.view) ==> (r.core.view >= msg.view <==> SomeDecides(b, cvs)))
      && (!SomeDecides(b, cvs) ==> Free(cfg, r) && PollOf(r.core) == NotedAll(b, cvs))
  {
    hide ReceiveAll, OnReceive, Taken, Unpack, SomeDecides, NotedAll;
    var s1, cvs := Taken(s, msg), Unpack(msg.body.items, ChangeViewType);
    RecoveryIsHandled(cfg, s, msg);
    NotedEpoch(PollOf(s.core), cvs);
    ListDecides(cfg, s1, cvs, 0);
    if AllAskFrom(cvs, msg.view) {
      ListDecides(cfg, s1, cvs, msg.view);
    }
  }

  function Senders(msgs: seq<Payload>): set<int> {
    set p | p in msgs :: p.from as int
  }

  // What a node packs into a recovery message are ChangeViews of M validators for its view or a later one.
  lemma PackedCertificate(cfg: Config, c: Core)
    requires P.Inv(cfg, c) && c.view > 0
    ensures var cvs := Unpack(RecoveryItems(cfg, c), ChangeViewType);
      && AllAskFrom(cvs, c.view) && |Senders(cvs)| >= M(c.n)
      && forall p :: p in cvs ==> p.body.ChangeView? && p.height == c.height && p.from < c.n
  {
    hide P.History, P.MatchOK, P.WatchOK, P.LockOK, P.Remembered, M, CommitSent, PreCommitSent;
    var cvs, voters := Unpack(RecoveryItems(cfg, c), ChangeViewType), Voters(c.lastChangeViews, c.n, AsksFor(c.view));
    forall p | p in cvs
      ensures p in c.lastChangeViews.Values && p.NewView() >= c.view && p.height == c.height && p.from < c.n
    {
      assert p in RecoveryItems(cfg, c);
    }
    forall i | i in voters
      ensures i in Senders(cvs)
    {
      assert c.lastChangeViews[i] in Filled(c.lastChangeViews, c.n);
      assert c.lastChangeViews[i] in RecoveryItems(cfg, c);
    }
    SubsetSize(voters, Senders(cvs));
  }

  /** Recovery between two correct nodes: the one behind reaches the view of the other exactly when one of the packed
      ChangeViews decides, and stays in its view otherwise. */
  lemma CorrectRecovery(cfg: Config, s: State, cfg': Config, sender: State)
    requires Free(cfg, s) && P.Inv(cfg', sender.core) && sender.core.me >= 0
    requires sender.core.height == s.core.height && sender.core.n == s.core.n && s.core.view < sender.core.view
    ensures var items := RecoveryItems(cfg', sender.core);
      var r, cvs := OnReceive(cfg, s, Own(sender.core, Recovery(items))), Unpack(items, ChangeViewType);
      if SomeDecides(PollOf(s.core), cvs) then r.core.view >= sender.core.view else r.core.view == s.core.view
  {
    hide OnReceive, RecoveryItems, Unpack, SomeDecides, NotedAll, P.History;
    hide P.PrepsOK, P.MatchOK, P.CommitsOK, P.ViewsOK, P.WatchOK, P.LockOK, P.Remembered;
    PackedCertificate(cfg', sender.core);
    RecoveryDecides(cfg, s, Own(sender.core, Recovery(RecoveryItems(cfg', sender.core))));
  }

  // ---- ChangeViews for one view ----

  // A ChangeView of the current height that asks for view v.
  predicate AsksForView(b: Poll, v: byte, p: Payload) {
    p.body.ChangeView? && p.body.newView == v && p.height == b.height && p.from < b.n
  }

  // When nobody asks for more than view v, the votes for v are counted with every ChangeView for v.
  lemma {:induction false} AllVote(b: Poll, v: byte, msgs: seq<Payload>, senders: set<int>)
    requires b.view < v && !SomeDecides(b, msgs) && senders <= Voters(b.votes, b.n, AsksFor(v))
    requires forall i :: i in b.votes ==> b.votes[i].NewView() <= v
    requires forall p :: p in msgs ==> AsksForView(b, v, p)
    ensures var voters := Voters(NotedAll(b, msgs).votes, b.n, AsksFor(v));
      senders + Senders(msgs) <= voters && (msgs != [] ==> |voters| < M(b.n))
    decreases |msgs|
  {
    hide SomeDecides;
    if msgs != [] {
      var p, rest := msgs[0], msgs[1..];
      RestDecides(b, msgs);
      assert p in msgs;
      assert forall q :: q in rest ==> q in msgs;
      assert msgs == [p] + rest;
      assert Counts(b, p);
      AllVote(Noted(b, p), v, rest, senders + {p.from as int});
      assert senders + {p.from as int} + Senders(rest) == senders + Senders(msgs);
      assert rest == [] ==> NotedAll(b, msgs) == Noted(b, p);
    }
  }

  /** An uncommitted node that holds no ChangeView above v and receives a recovery message of a node in view v, above
      its own, with M validators' ChangeViews for exactly v, ends in view v or a later one. */
  lemma RecoveryCatchesUp(cfg: Config, s: State, msg: Payload)
    requires msg.body.Recovery? && msg.height == s.core.height && msg.from < s.core.n
    requires Free(cfg, s) && s.core.view < msg.view
    requires forall i :: i in s.core.changeViews ==> s.core.changeViews[i].NewView() <= msg.view
    requires forall p :: p in msg.body.items && p.body.ChangeView? ==> AsksForView(PollOf(s.core), msg.view, p)
    requires |Senders(Unpack(msg.body.items, ChangeViewType))| >= M(s.core.n)
    ensures OnReceive(cfg, s, msg).core.view >= msg.view
  {
    hide OnReceive, SomeDecides, NotedAll;
    var b, cvs := PollOf(s.core), Unpack(msg.body.items, ChangeViewType);
    RecoveryDecides(cfg, s, msg);
    assert cvs != [];
    if !SomeDecides(b, cvs) {
      AllVote(b, msg.view, cvs, {});
      var senders, voters := Senders(cvs), Voters(NotedAll(b, cvs).votes, b.n, AsksFor(msg.view));
      assert {} + senders == senders;
      SubsetSize(senders, voters);
      assert false;
    }
  }
}
