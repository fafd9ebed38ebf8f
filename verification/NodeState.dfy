/** The state of one dBFT node (context.go) and the answers of its environment (config.go). */
module NodeState {
  import opened Quorum
  import opened Payloads

  // One slot per validator; a slot that holds nil has no entry.
  type Slots = map<int, Payload>

  // A block or pre-block that was processed, with the slots of Commits or PreCommits that were counted for it.
  datatype Acceptance = Acceptance(kind: Kind, height: nat, view: byte, header: Header, counted: Slots)

  /** The protocol part of the context: payload slots, one per validator, and the history of the node:
      what it broadcast, what was delivered to it and which blocks and pre-blocks it processed. */
  datatype Core = Core(
    height: nat,
    n: pos,
    me: int,
    primary: nat,
    view: byte,
    preps: Slots,
    preCommits: Slots,
    commits: Slots,
    changeViews: Slots,
    lastChangeViews: Slots,
    preBlockProcessed: bool,
    blockProcessed: bool,
    sent: seq<Payload>,
    delivered: set<Payload>,
    processed: seq<Acceptance>,
    preBlocks: seq<Acceptance>
  )

  datatype HeightView = HeightView(height: nat, view: byte)

  datatype Inbox = Inbox(
    prepare: map<nat, Payload>,
    chViews: map<nat, Payload>,
    preCommit: map<nat, Payload>,
    commit: map<nat, Payload>
  )

  // A block that the ledger was asked to process, and the number of that callback.
  datatype Offer = Offer(call: nat, header: Header)

  /** The rest of the context: the proposal being assembled, cached headers, the cache of future
      messages. `handled` lists the messages handed to a handler and `offered` the blocks handed to the ledger; `calls`
      numbers the callback invocations; `crashed` is set when the process dies. */
  datatype Rest = Rest(
    lastSeen: map<int, HeightView>,
    timestamp: nat,
    nonce: nat,
    txs: seq<Hash>,
    transactions: set<Hash>,
    missing: seq<Hash>,
    preHeader: Option<Header>,
    preBlock: Option<Header>,
    header: Option<Header>,
    block: Option<Header>,
    mail: map<nat, Inbox>,
    handled: seq<Payload>,
    offered: seq<Offer>,
    lastTimestamp: nat,
    txSubscription: bool,
    calls: nat,
    crashed: bool
  )

  datatype State = State(core: Core, rest: Rest)

  /** The environment. A callback is a function of the number of callbacks answered before it, so it may
      answer the same question differently every time. */
  datatype Config = Config(
    validators: nat -> pos,
    keyIndex: nat -> int,
    watchOnly: bool,
    antiMEVHeight: int,
    dynamicBlockTime: bool,
    timestampIncrement: nat,
    verifyPayload: (nat, Payload) -> bool,
    verifyBlock: (nat, Header) -> bool,
    processPreBlock: (nat, Header) -> bool,
    processBlock: (nat, Header) -> bool,
    sign: nat -> bool,
    getTx: (nat, Hash) -> bool,
    getVerified: nat -> seq<Hash>,
    random: nat -> nat,
    now: nat -> nat,
    mapOrder: (nat, nat, set<nat>) -> seq<nat>
  )

  // A node before it is started.
  function Blank(): State {
    State(Core(0, 1, -1, 0, 0, map[], map[], map[], map[], map[], false, false, [], {}, [], []),
          Rest(map[], 0, 0, [], {}, [], None, None, None, None, map[], [], [], 0, false, 0, false))
  }

  // The index that GetKeyPair finds for this node among the validators of a height, or -1.
  function IndexAt(cfg: Config, height: nat): (i: int)
    ensures -1 <= i < cfg.validators(height)
  {
    if 0 <= cfg.keyIndex(height) < cfg.validators(height) then cfg.keyIndex(height) else -1
  }

  predicate AntiMEV(cfg: Config, height: nat) {
    0 <= cfg.antiMEVHeight <= height
  }

  // ---- counting over slots ----

  datatype Criterion = InView(view: byte) | AsksFor(view: byte)

  predicate Fits(p: Payload, k: Criterion) {
    match k
    case InView(v) => p.view == v
    case AsksFor(v) => p.NewView() >= v
  }

  predicate Votes(slots: Slots, i: int, k: Criterion) {
    i in slots && Fits(slots[i], k)
  }

  function Voters(slots: Slots, n: nat, k: Criterion): set<int> {
    set i | 0 <= i < n && Votes(slots, i, k)
  }

  predicate HasCommitted(c: Core, i: int) {
    i in c.commits || i in c.preCommits
  }

  function Committed(c: Core): set<int> {
    set i | 0 <= i < c.n && HasCommitted(c, i)
  }

  predicate HasFailed(s: State, i: int) {
    && !HasCommitted(s.core, i)
    && (i !in s.rest.lastSeen || s.rest.lastSeen[i].height < s.core.height || s.rest.lastSeen[i].view < s.core.view)
  }

  function Failed(s: State): set<int> {
    set i | 0 <= i < s.core.n && HasFailed(s, i)
  }

  // ---- the predicates of context.go ----

  predicate WatchOnly(cfg: Config, c: Core) {
    c.me < 0 || cfg.watchOnly
  }

  predicate IsPrimary(c: Core) {
    c.me == c.primary
  }

  predicate IsBackup(c: Core) {
    c.me >= 0 && !IsPrimary(c)
  }

  predicate RequestKnown(c: Core) {
    c.primary in c.preps
  }

  predicate ResponseSent(cfg: Config, c: Core) {
    !WatchOnly(cfg, c) && c.me in c.preps
  }

  predicate PreCommitSent(cfg: Config, c: Core) {
    !WatchOnly(cfg, c) && c.me in c.preCommits
  }

  predicate CommitSent(cfg: Config, c: Core) {
    !WatchOnly(cfg, c) && c.me in c.commits
  }

  // A node that sent its PreCommit or Commit is bound to its view.
  predicate Locked(cfg: Config, c: Core) {
    PreCommitSent(cfg, c) || CommitSent(cfg, c)
  }

  predicate ViewChanging(cfg: Config, c: Core) {
    !WatchOnly(cfg, c) && c.me in c.changeViews && c.changeViews[c.me].NewView() > c.view
  }

  predicate MoreThanFNodesCommittedOrLost(s: State) {
    |Committed(s.core)| + |Failed(s)| > F(s.core.n)
  }

  predicate HasAllTransactions(s: State) {
    |s.rest.txs| == |s.rest.transactions|
  }

  // A payload of this node for its current height and view.
  function Own(c: Core, b: Body): Payload
    requires c.me >= 0
  {
    Payload(c.height, c.view, c.me, b)
  }
}
