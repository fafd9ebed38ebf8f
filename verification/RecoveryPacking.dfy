/** How the sample implementation packs payloads into a recovery message and rebuilds them from it
    (internal/consensus/recovery_message.go). */
module RecoveryPacking {
  import opened Payloads
  import opened NodeState
  import Spec = NodeSpec
  import P = Protocol

  const NANO := 1_000_000_000

  const UINT32 := 0x1_0000_0000

  function SecToNanoSec(s: nat): nat {
    s * NANO
  }

  function NanoSecToSec(ns: nat): nat {
    ns / NANO % UINT32
  }

  // A timestamp that a 32-bit number of seconds can hold.
  predicate WholeSeconds(ns: nat) {
    ns % NANO == 0 && ns / NANO < UINT32
  }

  datatype Compact = Compact(view: byte, from: nat, signature: Signature)

  datatype Asker = Asker(from: nat, originalView: byte)

  datatype Packed = Packed(
    preparationHash: Option<Payload>,
    prepareRequest: Option<Body>,
    preparations: seq<nat>,
    preCommits: seq<Compact>,
    commits: seq<Compact>,
    changeViews: seq<Asker>
  )

  const NOTHING := Packed(None, None, [], [], [], [])

  // ---- packing ----

  function Add(m: Packed, p: Payload): Packed {
    match p.body
    case PrepareRequest(_, _, _) => m.(prepareRequest := Some(p.body), preparationHash := Some(p))
    case PrepareResponse(_) => m.(preparations := m.preparations + [p.from])
    case ChangeView(_, _) => m.(changeViews := m.changeViews + [Asker(p.from, p.view)])
    case PreCommit(data) => m.(preCommits := m.preCommits + [Compact(p.view, p.from, data)])
    case Commit(signature) => m.(commits := m.commits + [Compact(p.view, p.from, signature)])
    case _ => m
  }

  // The payloads are added in order to an empty message.
  function Pack(ps: seq<Payload>): Packed {
    if ps == [] then NOTHING else Add(Pack(ps[..|ps| - 1]), ps[|ps| - 1])
  }

  // ---- unpacking: what is rebuilt carries the height and view of the recovery message ----

  function Rebuilt(rec: Payload, from: nat, b: Body): Payload {
    Payload(rec.height, rec.view, from, b)
  }

  function GetPrepareRequest(m: Packed, rec: Payload, index: nat): Option<Payload> {
    if m.prepareRequest.None? || !m.prepareRequest.value.PrepareRequest? then None
    else
      var q := m.prepareRequest.value;
      Some(Rebuilt(rec, index, PrepareRequest(SecToNanoSec(NanoSecToSec(q.timestamp)), q.nonce, q.txs)))
  }

  function GetPrepareResponses(m: Packed, rec: Payload): seq<Payload> {
    if m.preparationHash.None? then []
    else
      seq(|m.preparations|, i requires 0 <= i < |m.preparations| =>
        Rebuilt(rec, m.preparations[i], PrepareResponse(m.preparationHash.value)))
  }

  function GetChangeViews(m: Packed, rec: Payload): seq<Payload> {
    seq(|m.changeViews|, i requires 0 <= i < |m.changeViews| =>
      Rebuilt(rec, m.changeViews[i].from, ChangeView(Spec.NextView(m.changeViews[i].originalView), CVUnknown)))
  }

  function GetPreCommits(m: Packed, rec: Payload): seq<Payload> {
    seq(|m.preCommits|, i requires 0 <= i < |m.preCommits| =>
      Rebuilt(rec, m.preCommits[i].from, PreCommit(m.preCommits[i].signature)))
  }

  function GetCommits(m: Packed, rec: Payload): seq<Payload> {
    seq(|m.commits|, i requires 0 <= i < |m.commits| =>
      Rebuilt(rec, m.commits[i].from, Commit(m.commits[i].signature)))
  }

  // ---- the message object ----

  class RecoveryMessage {
    var preparationHash: Option<Payload>
    var prepareRequest: Option<Body>
    var preparationPayloads: seq<nat>
    var preCommitPayloads: seq<Compact>
    var commitPayloads: seq<Compact>
    var changeViewPayloads: seq<Asker>

    function Abs(): Packed
      reads this
    {
      Packed(preparationHash, prepareRequest, preparationPayloads, preCommitPayloads, commitPayloads,
             changeViewPayloads)
    }

    constructor ()
      ensures Abs() == NOTHING
    {
      preparationHash, prepareRequest, preparationPayloads := None, None, [];
      preCommitPayloads, commitPayloads, changeViewPayloads := [], [], [];
    }

    method AddPayload(p: Payload)
      modifies this
      ensures Abs() == Add(old(Abs()), p)
    {
      match p.body {
        case PrepareRequest(_, _, _) =>
          prepareRequest := Some(p.body);
          preparationHash := Some(p);
        case PrepareResponse(_) =>
          preparationPayloads := preparationPayloads + [p.from];
        case ChangeView(_, _) =>
          changeViewPayloads := changeViewPayloads + [Asker(p.from, p.view)];
        case PreCommit(data) =>
          preCommitPayloads := preCommitPayloads + [Compact(p.view, p.from, data)];
        case Commit(signature) =>
          commitPayloads := commitPayloads + [Compact(p.view, p.from, signature)];
        case _ =>
      }
    }

    // What makeRecoveryMessage does with a slot list.
    method AddAll(ps: seq<Payload>)
      requires Abs() == NOTHING
      modifies this
      ensures Abs() == Pack(ps)
    {
      for i := 0 to |ps|
        invariant Abs() == Pack(ps[..i])
      {
        AddPayload(ps[i]);
        assert ps[..i + 1][..i] == ps[..i];
      }
      assert ps[..|ps|] == ps;
    }

    method RebuildResponses(rec: Payload) returns (payloads: seq<Payload>)
      ensures payloads == GetPrepareResponses(Abs(), rec)
    {
      payloads := [];
      if preparationHash.None? {
        return;
      }
      for i := 0 to |preparationPayloads|
        invariant payloads == GetPrepareResponses(Abs(), rec)[..i]
      {
        payloads := payloads + [Rebuilt(rec, preparationPayloads[i], PrepareResponse(preparationHash.value))];
      }
    }

    method RebuildChangeViews(rec: Payload) returns (payloads: seq<Payload>)
      ensures payloads == GetChangeViews(Abs(), rec)
    {
      payloads := [];
      for i := 0 to |changeViewPayloads|
        invariant payloads == GetChangeViews(Abs(), rec)[..i]
      {
        var cv := changeViewPayloads[i];
        payloads := payloads + [Rebuilt(rec, cv.from, ChangeView((cv.originalView + 1) % 256, CVUnknown))];
      }
    }

    method RebuildPreCommits(rec: Payload) returns (payloads: seq<Payload>)
      ensures payloads == GetPreCommits(Abs(), rec)
    {
      payloads := [];
      for i := 0 to |preCommitPayloads|
        invariant payloads == GetPreCommits(Abs(), rec)[..i]
      {
        var c := preCommitPayloads[i];
        payloads := payloads + [Rebuilt(rec, c.from, PreCommit(c.signature))];
      }
    }

    method RebuildCommits(rec: Payload) returns (payloads: seq<Payload>)
      ensures payloads == GetCommits(Abs(), rec)
    {
      payloads := [];
      for i := 0 to |commitPayloads|
        invariant payloads == GetCommits(Abs(), rec)[..i]
      {
        var c := commitPayloads[i];
        payloads := payloads + [Rebuilt(rec, c.from, Commit(c.signature))];
      }
    }
  }

  // ---- round trips ----

  predicate SameEpoch(rec: Payload, p: Payload) {
    p.height == rec.height && p.view == rec.view
  }

  lemma {:induction false} UnpackLast(ps: seq<Payload>, p: Payload, t: Kind)
    ensures Unpack(ps + [p], t) == Unpack(ps, t) + if p.Type() == t then [p] else []
  {
    if ps == [] {
      assert [p][1..] == [];
    } else {
      assert (ps + [p])[1..] == ps[1..] + [p];
      UnpackLast(ps[1..], p, t);
    }
  }

  lemma PackLast(ps: seq<Payload>)
    requires ps != []
    ensures var init, p := ps[..|ps| - 1], ps[|ps| - 1];
      forall t :: Unpack(ps, t) == Unpack(init, t) + if p.Type() == t then [p] else []
  {
    var init, p := ps[..|ps| - 1], ps[|ps| - 1];
    assert ps == init + [p];
    forall t: Kind
      ensures Unpack(ps, t) == Unpack(init, t) + if p.Type() == t then [p] else []
    {
      UnpackLast(init, p, t);
    }
  }

  // Each payload comes back at its place, with the height and view of the recovery message.
  ghost predicate Mirrors(us: seq<Payload>, rs: seq<Payload>, rec: Payload) {
    |rs| == |us| && forall i :: 0 <= i < |us| ==> rs[i] == us[i].(height := rec.height, view := rec.view)
  }

  lemma NothingUnpacks()
    ensures forall t :: Unpack([], t) == []
  {
  }

  lemma {:induction false} CommitsMirror(ps: seq<Payload>, rec: Payload)
    ensures Mirrors(Unpack(ps, CommitType), GetCommits(Pack(ps), rec), rec)
    ensures Mirrors(Unpack(ps, PreCommitType), GetPreCommits(Pack(ps), rec), rec)
  {
    hide Unpack;
    if ps == [] {
      NothingUnpacks();
    } else {
      CommitsMirror(ps[..|ps| - 1], rec);
      PackLast(ps);
    }
  }

  lemma MirrorIsEqual(us: seq<Payload>, rs: seq<Payload>, rec: Payload)
    requires Mirrors(us, rs, rec)
    ensures rs == us <==> forall p :: p in us ==> SameEpoch(rec, p)
  {
    if rs == us {
      forall p | p in us
        ensures SameEpoch(rec, p)
      {
        var i :| 0 <= i < |us| && us[i] == p;
        assert rs[i] == p;
      }
    } else if forall p :: p in us ==> SameEpoch(rec, p) {
      assert forall i :: 0 <= i < |us| ==> us[i] in us;
    }
  }

  lemma CommitsBack(ps: seq<Payload>, rec: Payload)
    ensures GetCommits(Pack(ps), rec) == Unpack(ps, CommitType)
       <==> forall p :: p in ps && p.body.Commit? ==> SameEpoch(rec, p)
  {
    hide SameEpoch, Pack;
    CommitsMirror(ps, rec);
    MirrorIsEqual(Unpack(ps, CommitType), GetCommits(Pack(ps), rec), rec);
  }

  lemma PreCommitsBack(ps: seq<Payload>, rec: Payload)
    ensures GetPreCommits(Pack(ps), rec) == Unpack(ps, PreCommitType)
       <==> forall p :: p in ps && p.body.PreCommit? ==> SameEpoch(rec, p)
  {
    hide SameEpoch, Pack;
    CommitsMirror(ps, rec);
    MirrorIsEqual(Unpack(ps, PreCommitType), GetPreCommits(Pack(ps), rec), rec);
  }

  /** Commits and PreCommits come back unchanged and in order exactly when they all belong to the height and view of
      the recovery message. Those of an earlier view come back relabelled. */
  lemma CommitsRoundTrip(ps: seq<Payload>, rec: Payload)
    ensures GetCommits(Pack(ps), rec) == Unpack(ps, CommitType)
       <==> forall p :: p in ps && p.body.Commit? ==> SameEpoch(rec, p)
    ensures GetPreCommits(Pack(ps), rec) == Unpack(ps, PreCommitType)
       <==> forall p :: p in ps && p.body.PreCommit? ==> SameEpoch(rec, p)
  {
    hide SameEpoch, GetCommits, GetPreCommits, Unpack, Pack;
    CommitsBack(ps, rec);
    PreCommitsBack(ps, rec);
  }

  lemma {:induction false} ChangeViewsMirror(ps: seq<Payload>, rec: Payload)
    ensures var us, rs := Unpack(ps, ChangeViewType), GetChangeViews(Pack(ps), rec);
      |rs| == |us| && forall i :: 0 <= i < |us| ==>
        rs[i] == Rebuilt(rec, us[i].from, ChangeView(Spec.NextView(us[i].view), CVUnknown))
  {
    if ps != [] {
      ChangeViewsMirror(ps[..|ps| - 1], rec);
      PackLast(ps);
    }
  }

  /** A packed ChangeView keeps its sender, and it keeps its new view exactly when that is its own view plus one. */
  lemma ChangeViewsRoundTrip(ps: seq<Payload>, rec: Payload, i: nat)
    requires i < |Unpack(ps, ChangeViewType)|
    ensures |GetChangeViews(Pack(ps), rec)| == |Unpack(ps, ChangeViewType)|
    ensures var p, r := Unpack(ps, ChangeViewType)[i], GetChangeViews(Pack(ps), rec)[i];
      && r.from == p.from && r.body.ChangeView? && SameEpoch(rec, r)
      && (r.NewView() == p.NewView() <==> p.NewView() == Spec.NextView(p.view))
  {
    ChangeViewsMirror(ps, rec);
    assert Unpack(ps, ChangeViewType)[i] in Unpack(ps, ChangeViewType);
  }

  // The last request that was added is the one that is kept.
  lemma {:induction false} RequestMirror(ps: seq<Payload>)
    ensures var qs, m := Unpack(ps, PrepareRequestType), Pack(ps);
      if qs == [] then m.preparationHash == None && m.prepareRequest == None
      else m.preparationHash == Some(qs[|qs| - 1]) && m.prepareRequest == Some(qs[|qs| - 1].body)
  {
    if ps != [] {
      RequestMirror(ps[..|ps| - 1]);
      PackLast(ps);
    }
  }

  lemma {:induction false} ResponsesMirror(ps: seq<Payload>)
    ensures var us, m := Unpack(ps, PrepareResponseType), Pack(ps);
      |m.preparations| == |us| && forall i :: 0 <= i < |us| ==> m.preparations[i] == us[i].from
  {
    if ps != [] {
      ResponsesMirror(ps[..|ps| - 1]);
      PackLast(ps);
    }
  }

  /** The request comes back unchanged exactly when it is one of this epoch, of the expected primary, and its time is a
      32-bit number of whole seconds. */
  lemma RequestRoundTrip(ps: seq<Payload>, rec: Payload, index: nat, q: Payload)
    requires q.body.PrepareRequest? && Unpack(ps, PrepareRequestType) == [q]
    ensures GetPrepareRequest(Pack(ps), rec, index) == Some(q)
       <==> SameEpoch(rec, q) && q.from == index && WholeSeconds(q.body.timestamp)
  {
    RequestMirror(ps);
    var ns := q.body.timestamp;
    assert ns == ns / NANO * NANO + ns % NANO;
  }

  lemma ResponseBack(rec: Payload, p: Payload, q: Payload)
    requires p.Type() == PrepareResponseType
    ensures Rebuilt(rec, p.from, PrepareResponse(q)) == p <==> SameEpoch(rec, p) && p.Supports() == q
  {
  }

  /** The responses come back unchanged and in order exactly when they belong to this epoch and answer the packed
      request; without a request they are lost. */
  lemma ResponsesRoundTrip(ps: seq<Payload>, rec: Payload)
    ensures var qs, us := Unpack(ps, PrepareRequestType), Unpack(ps, PrepareResponseType);
      GetPrepareResponses(Pack(ps), rec) == us <==>
        forall p :: p in us ==> SameEpoch(rec, p) && qs != [] && p.Supports() == qs[|qs| - 1]
  {
    hide Pack, Rebuilt, SameEpoch;
    RequestMirror(ps);
    ResponsesMirror(ps);
    var qs, us := Unpack(ps, PrepareRequestType), Unpack(ps, PrepareResponseType);
    var rs := GetPrepareResponses(Pack(ps), rec);
    if qs == [] {
      assert us != [] ==> us[0] in us;
      return;
    }
    var q := qs[|qs| - 1];
    forall i | 0 <= i < |us|
      ensures us[i] in us && (rs[i] == us[i] <==> SameEpoch(rec, us[i]) && us[i].Supports() == q)
    {
      assert us[i] in us;
      ResponseBack(rec, us[i], q);
    }
    if forall p :: p in us ==> SameEpoch(rec, p) && qs != [] && p.Supports() == q {
      assert rs == us;
    }
  }

  // ---- what a node packs ----

  lemma {:induction false} UnpackBoth(a: seq<Payload>, b: seq<Payload>, t: Kind)
    ensures Unpack(a + b, t) == Unpack(a, t) + Unpack(b, t)
  {
    if a == [] {
      assert a + b == b;
    } else {
      assert (a + b)[1..] == a[1..] + b;
      UnpackBoth(a[1..], b, t);
    }
  }

  lemma {:induction false} NoneOf(ps: seq<Payload>, t: Kind)
    requires forall p :: p in ps ==> p.Type() != t
    ensures Unpack(ps, t) == []
  {
    if ps != [] {
      assert ps[0] in ps && forall p :: p in ps[1..] ==> p in ps;
      NoneOf(ps[1..], t);
    }
  }

  lemma {:induction false} OneRequest(c: Core, n: nat)
    requires P.PrepsOK(c)
    ensures Unpack(Spec.Filled(c.preps, n), PrepareRequestType)
         == if c.primary < n && c.primary in c.preps then [c.preps[c.primary]] else []
  {
    if n > 0 {
      OneRequest(c, n - 1);
      if n - 1 in c.preps {
        UnpackLast(Spec.Filled(c.preps, n - 1), c.preps[n - 1], PrepareRequestType);
      }
    }
  }

  function Others(cfg: Config, c: Core): seq<Payload> {
    Spec.Filled(c.lastChangeViews, c.n)
    + (if PreCommitSent(cfg, c) then Spec.Filled(c.preCommits, c.n) else [])
    + (if CommitSent(cfg, c) then Spec.Filled(c.commits, c.n) else [])
  }

  lemma OthersAreNoPreparations(cfg: Config, c: Core)
    requires P.ViewsOK(c) && P.CommitsOK(c)
    ensures forall p :: p in Others(cfg, c) ==> !p.IsPreparation()
  {
  }

  /** The preparations that a backup packs come back unchanged from its recovery message. */
  lemma BackupPreparationsComeBack(cfg: Config, c: Core, rec: Payload)
    requires P.PrepsOK(c) && P.MatchOK(c) && P.ViewsOK(c) && P.CommitsOK(c) && c.primary < c.n
    requires c.me != c.primary && P.Proposed(c) && WholeSeconds(c.preps[c.primary].body.timestamp)
    requires rec.height == c.height && rec.view == c.view
    ensures var ps := Spec.RecoveryItems(cfg, c); var m := Pack(ps);
      && GetPrepareRequest(m, rec, c.primary) == Some(c.preps[c.primary])
      && GetPrepareResponses(m, rec) == Unpack(ps, PrepareResponseType)
      && (forall i :: 0 <= i < c.n && i in c.preps && i != c.primary ==> c.preps[i] in GetPrepareResponses(m, rec))
  {
    hide P.ViewsOK, P.CommitsOK, Unpack, Pack, GetPrepareRequest, GetPrepareResponses, PreCommitSent, CommitSent;
    var preps, others := Spec.Filled(c.preps, c.n), Others(cfg, c);
    var ps, q := Spec.RecoveryItems(cfg, c), c.preps[c.primary];
    assert ps == preps + others;
    OthersAreNoPreparations(cfg, c);
    UnpackBoth(preps, others, PrepareRequestType);
    UnpackBoth(preps, others, PrepareResponseType);
    NoneOf(others, PrepareRequestType);
    NoneOf(others, PrepareResponseType);
    OneRequest(c, c.n);
    assert Unpack(ps, PrepareRequestType) == [q];
    RequestRoundTrip(ps, rec, c.primary, q);
    forall p | p in Unpack(ps, PrepareResponseType)
      ensures SameEpoch(rec, p) && p.Supports() == q
    {
      assert p in preps;
    }
    ResponsesRoundTrip(ps, rec);
  }
}
