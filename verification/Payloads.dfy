/** Consensus payloads and the symbolic cryptography they carry. */
module Payloads {

  datatype Option<+T> = None | Some(value: T)

  type byte = x: int | 0 <= x < 256

  // A transaction is identified with its hash.
  type Hash = int

  // The hashable fields of a block, as fixed by one PrepareRequest.
  datatype Header = Header(height: nat, timestamp: nat, nonce: nat, txs: seq<Hash>)

  // A sound signature: it verifies for its own signer and header only.
  datatype Signature = Signature(signer: nat, header: Header)

  datatype Reason =
    | CVTimeout | CVChangeAgreement | CVTxNotFound | CVTxRejectedByPolicy
    | CVTxInvalid | CVBlockRejectedByPolicy | CVUnknown

  datatype Kind =
    | PrepareRequestType | PrepareResponseType | ChangeViewType | PreCommitType
    | CommitType | RecoveryRequestType | RecoveryMessageType | NoType

  /** A PrepareResponse names the request it answers by the request itself: a payload stands for its
      own hash, which makes hashes injective. `Malformed` is a payload without contents. */
  datatype Body =
    | PrepareRequest(timestamp: nat, nonce: nat, txs: seq<Hash>)
    | PrepareResponse(preparation: Payload)
    | ChangeView(newView: byte, reason: Reason)
    | PreCommit(data: Signature)
    | Commit(signature: Signature)
    | RecoveryRequest
    | Recovery(items: seq<Payload>)
    | Malformed

  datatype Payload = Payload(height: nat, view: byte, from: nat, body: Body) {
    function Type(): Kind {
      match body
      case PrepareRequest(_, _, _) => PrepareRequestType
      case PrepareResponse(_) => PrepareResponseType
      case ChangeView(_, _) => ChangeViewType
      case PreCommit(_) => PreCommitType
      case Commit(_) => CommitType
      case RecoveryRequest => RecoveryRequestType
      case Recovery(_) => RecoveryMessageType
      case Malformed => NoType
    }

    predicate IsPreparation() {
      body.PrepareRequest? || body.PrepareResponse?
    }

    predicate IsSignature() {
      body.Commit? || body.PreCommit?
    }

    // The view a ChangeView asks for.
    function NewView(): nat {
      if body.ChangeView? then body.newView else 0
    }

    // What a Commit or a PreCommit signs.
    function Signed(): Signature {
      match body
      case PreCommit(d) => d
      case Commit(g) => g
      case _ => Signature(0, Header(0, 0, 0, []))
    }

    // The PrepareRequest that a preparation supports.
    function Supports(): Payload {
      if body.PrepareResponse? then body.preparation else this
    }
  }

  function HeaderOf(req: Payload): Header
    requires req.body.PrepareRequest?
  {
    Header(req.height, req.body.timestamp, req.body.nonce, req.body.txs)
  }

  // Block.Verify and PreBlock.Verify: the signature of validator `from` over `h`.
  predicate Verifies(h: Header, from: nat, sig: Signature) {
    sig == Signature(from, h)
  }

  /** Unpacking of a recovery message: the payloads of one type, in the order they were added. */
  function Unpack(items: seq<Payload>, t: Kind): (r: seq<Payload>)
    ensures forall p :: p in r <==> p in items && p.Type() == t
  {
    if items == [] then []
    else if items[0].Type() == t then [items[0]] + Unpack(items[1..], t)
    else Unpack(items[1..], t)
  }
}
