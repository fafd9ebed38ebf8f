/** The cache of messages from future epochs (helpers.go). */
module Mailbox {
  import opened Payloads
  import opened NodeState

  const EMPTY_INBOX := Inbox(map[], map[], map[], map[])

  function BoxAt(mail: map<nat, Inbox>, height: nat): Inbox {
    if height in mail then mail[height] else EMPTY_INBOX
  }

  ghost predicate BoxFiled(h: nat, box: Inbox) {
    && (forall k :: k in box.prepare ==>
          box.prepare[k].from == k && box.prepare[k].height == h && box.prepare[k].IsPreparation())
    && (forall k :: k in box.chViews ==>
          box.chViews[k].from == k && box.chViews[k].height == h && box.chViews[k].body.ChangeView?)
    && (forall k :: k in box.preCommit ==>
          box.preCommit[k].from == k && box.preCommit[k].height == h && box.preCommit[k].body.PreCommit?)
    && (forall k :: k in box.commit ==>
          box.commit[k].from == k && box.commit[k].height == h && box.commit[k].body.Commit?)
  }

  // Every message is filed under its height, its type and its sender.
  ghost predicate Filed(mail: map<nat, Inbox>) {
    forall h :: h in mail ==> BoxFiled(h, mail[h])
  }

  // Stores a message under its height, type and sender; recovery messages are not kept.
  function AddMessage(mail: map<nat, Inbox>, p: Payload): map<nat, Inbox> {
    var box := BoxAt(mail, p.height);
    var box' :=
      match p.Type()
      case PrepareRequestType => box.(prepare := box.prepare[p.from := p])
      case PrepareResponseType => box.(prepare := box.prepare[p.from := p])
      case ChangeViewType => box.(chViews := box.chViews[p.from := p])
      case PreCommitType => box.(preCommit := box.preCommit[p.from := p])
      case CommitType => box.(commit := box.commit[p.from := p])
      case _ => box;
    mail[p.height := box']
  }

  lemma AddedFields(mail: map<nat, Inbox>, msg: Payload)
    ensures var box, mail' := BoxAt(mail, msg.height), AddMessage(mail, msg);
      var box' := mail'[msg.height];
      && mail' == mail[msg.height := box']
      && box'.prepare == (if msg.IsPreparation() then box.prepare[msg.from := msg] else box.prepare)
      && box'.chViews == (if msg.body.ChangeView? then box.chViews[msg.from := msg] else box.chViews)
      && box'.preCommit == (if msg.body.PreCommit? then box.preCommit[msg.from := msg] else box.preCommit)
      && box'.commit == (if msg.body.Commit? then box.commit[msg.from := msg] else box.commit)
  {
  }

  lemma AddedIsFiled(mail: map<nat, Inbox>, msg: Payload)
    requires Filed(mail)
    ensures Filed(AddMessage(mail, msg))
  {
    hide AddMessage;
    AddedFields(mail, msg);
    assert BoxFiled(msg.height, BoxAt(mail, msg.height));
    assert BoxFiled(msg.height, AddMessage(mail, msg)[msg.height]);
  }

  function Listed(m: map<nat, Payload>, keys: seq<nat>): (r: seq<Payload>)
    requires forall k :: k in keys ==> k in m
    ensures |r| == |keys| && forall i :: 0 <= i < |r| ==> r[i] == m[keys[i]]
    ensures forall p :: p in r <==> exists k :: k in keys && m[k] == p
  {
    if keys == [] then []
    else
      var r := [m[keys[0]]] + Listed(m, keys[1..]);
      assert forall k :: k in keys <==> k == keys[0] || k in keys[1..];
      r
  }

  lemma {:induction false} LeastExists(keys: set<nat>)
    requires keys != {}
    ensures exists m :: m in keys && forall k :: k in keys ==> m <= k
  {
    var k :| k in keys;
    var rest := keys - {k};
    if rest == {} {
      assert keys == {k};
    } else {
      LeastExists(rest);
      var m :| m in rest && forall j :: j in rest ==> m <= j;
      assert forall j :: j in keys ==> j == k || j in rest;
      var least := if k <= m then k else m;
      assert least in keys && forall j :: j in keys ==> least <= j;
    }
  }

  function Least(keys: set<nat>): (m: nat)
    requires keys != {}
    ensures m in keys && forall k :: k in keys ==> m <= k
  {
    LeastExists(keys);
    var m :| m in keys && forall k :: k in keys ==> m <= k;
    m
  }

  /** Map iteration visits every key once, in an order of the runtime's choosing: the preferred order
      first, then whatever keys it did not name. */
  function Arrange(pref: seq<nat>, keys: set<nat>): (r: seq<nat>)
    ensures forall k :: k in r <==> k in keys
    ensures |r| == |keys|
    decreases |keys|, |pref|
  {
    if keys == {} then []
    else if pref == [] then
      var k := Least(keys);
      [k] + Arrange([], keys - {k})
    else if pref[0] in keys then [pref[0]] + Arrange(pref[1..], keys - {pref[0]})
    else Arrange(pref[1..], keys)
  }

  function Part(m: map<nat, Payload>, order: set<nat> -> seq<nat>): (r: seq<Payload>)
    ensures forall p :: p in r <==> p in m.Values
  {
    Listed(m, Arrange(order(m.Keys), m.Keys))
  }

  predicate InBox(box: Inbox, p: Payload) {
    p in box.prepare.Values || p in box.chViews.Values || p in box.preCommit.Values || p in box.commit.Values
  }

  // The order in which the j-th of several maps is iterated.
  function OrderOf(order: (nat, set<nat>) -> seq<nat>, j: nat): set<nat> -> seq<nat> {
    keys => order(j, keys)
  }

  // The messages of an inbox in the order in which Go's map iteration delivers them, each map in an order of its own.
  function Replay(box: Inbox, order: (nat, set<nat>) -> seq<nat>): (r: seq<Payload>)
    ensures forall p :: p in r <==> InBox(box, p)
  {
    Part(box.prepare, OrderOf(order, 0)) + Part(box.chViews, OrderOf(order, 1))
    + Part(box.preCommit, OrderOf(order, 2)) + Part(box.commit, OrderOf(order, 3))
  }

  predicate Once(keys: seq<nat>) {
    forall i, j :: 0 <= i < j < |keys| ==> keys[i] != keys[j]
  }

  lemma OnceMore(k: nat, keys: seq<nat>)
    requires Once(keys) && k !in keys
    ensures Once([k] + keys)
  {
  }

  lemma NoKeys()
    ensures Once([])
  {
  }

  lemma {:induction false} ArrangedOnce(pref: seq<nat>, keys: set<nat>)
    ensures Once(Arrange(pref, keys))
    decreases |keys|, |pref|
  {
    hide Once;
    if keys == {} {
      assert Once([]) by {
        NoKeys();
      }
    } else if pref == [] || pref[0] in keys {
      var k := if pref == [] then Least(keys) else pref[0];
      var pref' := if pref == [] then [] else pref[1..];
      ArrangedOnce(pref', keys - {k});
      OnceMore(k, Arrange(pref', keys - {k}));
    } else {
      ArrangedOnce(pref[1..], keys);
    }
  }

  // The senders of one part of a replay are all different.
  lemma PartSenders(m: map<nat, Payload>, order: set<nat> -> seq<nat>)
    requires forall k :: k in m ==> m[k].from == k
    ensures var r := Part(m, order); forall i, j :: 0 <= i < j < |r| ==> r[i].from != r[j].from
  {
    var keys, r := Arrange(order(m.Keys), m.Keys), Part(m, order);
    ArrangedOnce(order(m.Keys), m.Keys);
    forall i, j | 0 <= i < j < |r|
      ensures r[i].from != r[j].from
    {
      assert keys[i] in keys && keys[j] in keys && keys[i] != keys[j];
      assert r[i].from == keys[i] && r[j].from == keys[j];
    }
  }
}
