/** The loop around one node (internal/simulation/main.go): it starts the object and hands it one event after the
    other. */
module EventLoop {
  import opened Quorum
  import opened Payloads
  import opened NodeState
  import opened Refinement
  import opened NodeObject
  import Spec = NodeSpec
  import P = Protocol

  // Each event, when it comes, is one that the library allows, and forges nothing of this node.
  ghost predicate Fair(cfg: Config, s: State, events: seq<Event>)
    decreases |events|
  {
    events == [] ||
    (&& Proper(s, events[0])
     && P.Unforged(cfg, s.core, Input(events[0]))
     && Fair(cfg, Handle(cfg, s, events[0]), events[1..]))
  }

  function HandleAll(cfg: Config, s: State, events: seq<Event>): State
    decreases |events|
  {
    if events == [] then s else HandleAll(cfg, Handle(cfg, s, events[0]), events[1..])
  }

  lemma EventKeeps(cfg: Config, s: State, e: Event)
    requires Ready(cfg, {}, s) && Proper(s, e) && P.Unforged(cfg, s.core, Input(e))
    ensures Ready(cfg, {}, Handle(cfg, s, e)) && P.Evolves(s.core, Handle(cfg, s, e).core)
  {
    hide P.Inv, Coherent, Handle, Input, Proper, P.Reaches, P.Evolves;
    HandleRefines(cfg, s, e);
  }

  lemma {:induction false} EventsKeep(cfg: Config, s: State, events: seq<Event>)
    requires Ready(cfg, {}, s) && Fair(cfg, s, events)
    ensures Ready(cfg, {}, HandleAll(cfg, s, events)) && P.Evolves(s.core, HandleAll(cfg, s, events).core)
    decreases |events|
  {
    hide Ready, Handle, Input, Proper, P.Evolves, P.Unforged;
    P.EvolvesReflexive(s.core);
    if events != [] {
      var t := Handle(cfg, s, events[0]);
      EventKeeps(cfg, s, events[0]);
      EventsKeep(cfg, t, events[1..]);
      P.EvolvesTransitive(s.core, t.core, HandleAll(cfg, s, events).core);
    }
  }

  // The entry point that an event belongs to.
  method Deliver(node: Node, e: Event)
    modifies node
    ensures node.Abs() == Handle(node.cfg, old(node.Abs()), e)
  {
    hide Spec.OnReceive, Spec.OnTimeout, Spec.OnNewTransaction, Spec.OnTransaction, Spec.Reset;
    match e {
      case Received(msg) => node.OnReceive(msg);
      case Timeout(h, v) => node.OnTimeout(h, v, false);
      case NewTransaction(h, v) => node.OnNewTransaction(h, v);
      case ProposedTransaction(tx) => node.OnTransaction(tx);
      case NextHeight(h, ts) => node.Reset(h, ts);
    }
  }

  lemma ReadyVotesOnce(cfg: Config, s: State)
    requires Ready(cfg, {}, s)
    ensures P.VoteOnce(s.core) && P.CommitOnce(s.core)
  {
  }

  /** Whatever events a fresh node is handed, it is left orderly, it prepared once in a view and signed once at a
      height, and nothing it signed, saw or processed since it was started is undone. */
  method Run(node: Node, height: nat, ts: nat, events: seq<Event>)
    requires node.Abs() == Blank() && Fair(node.cfg, Spec.Start(node.cfg, Blank(), height, ts), events)
    modifies node
    ensures node.Abs() == HandleAll(node.cfg, Spec.Start(node.cfg, Blank(), height, ts), events)
    ensures Ready(node.cfg, {}, node.Abs()) && P.VoteOnce(node.Abs().core) && P.CommitOnce(node.Abs().core)
    ensures P.Evolves(Spec.Start(node.cfg, Blank(), height, ts).core, node.Abs().core)
  {
    hide Handle, Input, Proper, Ready, P.Evolves, P.Unforged, P.Inv, Spec.Start, P.VoteOnce, P.CommitOnce;
    node.Start(height, ts);
    ghost var start := node.Abs();
    StartIsReady(node.cfg, height, ts);
    var i := 0;
    while i < |events|
      invariant 0 <= i <= |events|
      invariant Fair(node.cfg, node.Abs(), events[i..])
      invariant HandleAll(node.cfg, node.Abs(), events[i..]) == HandleAll(node.cfg, start, events)
    {
      Deliver(node, events[i]);
      i := i + 1;
    }
    EventsKeep(node.cfg, start, events);
    ReadyVotesOnce(node.cfg, node.Abs());
  }
}
