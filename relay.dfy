/** The relay hub of server/server.js: every message that arrives on one
    connection is forwarded, unchanged, to every other client whose
    connection is OPEN.

    Membership (`wss.clients`) and each client's ready-state belong to the
    `ws` library; the model takes them as given. Sending to a client is
    appending to that client's outbox. The hub is generic in the message
    type `M`, so nothing here can look inside a message: it is relayed as
    an opaque value. */
module Relay {
  import opened Socket

  /** The identity of one connection (the object compared with `!==`). */
  type ClientId = nat

  /** One member of `wss.clients`: its identity, its ready-state and the
      messages sent to it so far, oldest first. */
  datatype Peer<M> = Peer(id: ClientId, state: ReadyState, outbox: seq<M>)

  /** One inbound message: the connection it arrived on and its payload. */
  datatype Inbound<M> = Inbound(sender: ClientId, msg: M)

  /** The guard of the broadcast loop: not the sender, and OPEN. */
  predicate Eligible<M>(p: Peer<M>, sender: ClientId) {
    p.id != sender && p.state == OPEN
  }

  /** The loop body for one client: `client.send(message)` when eligible. */
  function Deliver<M>(p: Peer<M>, sender: ClientId, msg: M): Peer<M> {
    if Eligible(p, sender) then p.(outbox := p.outbox + [msg]) else p
  }

  /** `wss.clients.forEach(...)` for one inbound message, over the clients in
      their iteration order. */
  function FanOut<M>(cs: seq<Peer<M>>, sender: ClientId, msg: M): (r: seq<Peer<M>>)
    ensures |r| == |cs|
  {
    if cs == [] then [] else [Deliver(cs[0], sender, msg)] + FanOut(cs[1..], sender, msg)
  }

  /** The same clients, in the same order, with the same ready-states. */
  ghost predicate SameMembers<M>(a: seq<Peer<M>>, b: seq<Peer<M>>) {
    |a| == |b| && forall i :: 0 <= i < |a| ==> a[i].id == b[i].id && a[i].state == b[i].state
  }

  /** `wss.clients` is a set: no connection appears twice. */
  ghost predicate DistinctIds<M>(cs: seq<Peer<M>>) {
    forall i, j :: 0 <= i < j < |cs| ==> cs[i].id != cs[j].id
  }

  /** A broadcast treats every client on its own: client `i` ends up as the
      loop body leaves it. */
  lemma {:induction false} FanOutAt<M>(cs: seq<Peer<M>>, sender: ClientId, msg: M, i: nat)
    requires i < |cs|
    ensures FanOut(cs, sender, msg)[i] == Deliver(cs[i], sender, msg)
  {
    if i > 0 {
      FanOutAt(cs[1..], sender, msg, i - 1);
    }
  }

  /** Exactly the clients that are not the sender and are OPEN receive the
      message, each exactly one copy, appended after what it already had;
      every other client's outbox is untouched. */
  lemma DeliversExactlyToEligible<M>(cs: seq<Peer<M>>, sender: ClientId, msg: M, i: nat)
    requires i < |cs|
    ensures FanOut(cs, sender, msg)[i].outbox
              == if cs[i].id != sender && cs[i].state == OPEN
                 then cs[i].outbox + [msg]
                 else cs[i].outbox
  {
    FanOutAt(cs, sender, msg, i);
  }

  /** The sender never receives its own message. */
  lemma SenderExcluded<M>(cs: seq<Peer<M>>, sender: ClientId, msg: M)
    ensures forall i :: 0 <= i < |cs| && cs[i].id == sender ==>
              FanOut(cs, sender, msg)[i].outbox == cs[i].outbox
  {
  }

  /** A client that is CONNECTING, CLOSING or CLOSED receives nothing. */
  lemma NonOpenSkipped<M>(cs: seq<Peer<M>>, sender: ClientId, msg: M)
    ensures forall i :: 0 <= i < |cs| && cs[i].state != OPEN ==>
              FanOut(cs, sender, msg)[i].outbox == cs[i].outbox
  {
  }

  /** A broadcast changes only outboxes: the members, their order and their
      ready-states are as before. */
  lemma MembershipUnchanged<M>(cs: seq<Peer<M>>, sender: ClientId, msg: M)
    ensures SameMembers(FanOut(cs, sender, msg), cs)
  {
  }

  /** Several inbound messages, handled one after another in arrival order. */
  function RelayAll<M>(cs: seq<Peer<M>>, ins: seq<Inbound<M>>): (r: seq<Peer<M>>)
    ensures |r| == |cs|
    decreases |ins|
  {
    if ins == [] then cs
    else RelayAll(FanOut(cs, ins[0].sender, ins[0].msg), ins[1..])
  }

  /** The messages among `ins` that a client with identity `id` did not send,
      in arrival order. */
  function ForeignTo<M>(ins: seq<Inbound<M>>, id: ClientId): seq<M> {
    if ins == [] then []
    else (if ins[0].sender != id then [ins[0].msg] else []) + ForeignTo(ins[1..], id)
  }

  /** After any run of broadcasts, an OPEN client has received exactly the
      messages other clients sent, one copy each, in the order they arrived
      at the hub (so two messages from one sender reach a given receiver in
      send order); a client that is not OPEN has received nothing; and the
      membership is unchanged. */
  lemma {:induction false} RelayAllDelivers<M>(cs: seq<Peer<M>>, ins: seq<Inbound<M>>, i: nat)
    requires i < |cs|
    ensures RelayAll(cs, ins)[i].id == cs[i].id
    ensures RelayAll(cs, ins)[i].state == cs[i].state
    ensures RelayAll(cs, ins)[i].outbox
              == cs[i].outbox + (if cs[i].state == OPEN then ForeignTo(ins, cs[i].id) else [])
    decreases |ins|
  {
    if ins != [] {
      var id := cs[i].id;
      var head := if ins[0].sender != id then [ins[0].msg] else [];
      var next := FanOut(cs, ins[0].sender, ins[0].msg);
      FanOutAt(cs, ins[0].sender, ins[0].msg, i);
      assert next[i].outbox == cs[i].outbox + (if cs[i].state == OPEN then head else []);
      RelayAllDelivers(next, ins[1..], i);
      assert RelayAll(cs, ins) == RelayAll(next, ins[1..]);
      assert ForeignTo(ins, id) == head + ForeignTo(ins[1..], id);
    }
  }

  /** Per sender-receiver order: two messages from one sender reach every
      other OPEN client in the order they were sent, one copy each. */
  lemma SameSenderInOrder<M>(cs: seq<Peer<M>>, sender: ClientId, first: M, second: M, i: nat)
    requires i < |cs| && cs[i].id != sender && cs[i].state == OPEN
    ensures RelayAll(cs, [Inbound(sender, first), Inbound(sender, second)])[i].outbox
              == cs[i].outbox + [first, second]
  {
    var ins := [Inbound(sender, first), Inbound(sender, second)];
    RelayAllDelivers(cs, ins, i);
    assert ForeignTo(ins, cs[i].id) == [first, second] by {
      var id := cs[i].id;
      assert ins[1..] == [Inbound(sender, second)];
      assert ins[1..][1..] == [];
      assert ForeignTo(ins[1..][1..], id) == [];
      assert ForeignTo(ins[1..], id) == [second] + ForeignTo(ins[1..][1..], id);
      assert ForeignTo(ins, id) == [first] + ForeignTo(ins[1..], id);
    }
  }

  /** Three open clients A, B and C. A sends `play`: B and C each receive one
      copy, A none. Then B leaves the membership and A sends `pause`: only C
      receives it. */
  lemma ThreeClientsScenario<M>(a: ClientId, b: ClientId, c: ClientId, play: M, pause: M)
    requires a != b && b != c && a != c
    ensures var start := [Peer(a, OPEN, []), Peer(b, OPEN, []), Peer(c, OPEN, [])];
            var afterPlay := FanOut(start, a, play);
            && afterPlay[0].outbox == [] && afterPlay[1].outbox == [play] && afterPlay[2].outbox == [play]
            && var afterPause := FanOut([afterPlay[0], afterPlay[2]], a, pause);
               afterPause[0].outbox == [] && afterPause[1].outbox == [play, pause]
  {
    var start := [Peer(a, OPEN, []), Peer(b, OPEN, []), Peer(c, OPEN, [])];
    DeliversExactlyToEligible(start, a, play, 0);
    DeliversExactlyToEligible(start, a, play, 1);
    DeliversExactlyToEligible(start, a, play, 2);
    MembershipUnchanged(start, a, play);
    var afterPlay := FanOut(start, a, play);
    var remaining := [afterPlay[0], afterPlay[2]];
    DeliversExactlyToEligible(remaining, a, pause, 0);
    DeliversExactlyToEligible(remaining, a, pause, 1);
  }

  /** The hub: the clients the `ws` server currently tracks. */
  class Hub<M> {
    var clients: seq<Peer<M>>

    /** Records that `wss.clients` is a set: no connection appears twice, so
        a position in `clients` and a connection identify each other. The
        broadcast keeps it; no property of the broadcast depends on it. */
    ghost predicate Valid()
      reads this
    {
      DistinctIds(clients)
    }

    constructor (members: seq<Peer<M>>)
      requires DistinctIds(members)
      ensures Valid() && clients == members
    {
      clients := members;
    }

    /** The `message` handler of connection `sender` (server/server.js:21-28). */
    method OnMessage(sender: ClientId, msg: M)
      requires Valid()
      modifies this
      ensures Valid()
      ensures clients == FanOut(old(clients), sender, msg)
    {
      ghost var before := clients;
      var i := 0;
      while i < |clients|
        invariant |clients| == |before|
        invariant 0 <= i <= |clients|
        invariant forall k :: 0 <= k < i ==> clients[k] == Deliver(before[k], sender, msg)
        invariant forall k :: i <= k < |clients| ==> clients[k] == before[k]
      {
        var client := clients[i];
        if client.id != sender && client.state == OPEN {
          clients := clients[i := client.(outbox := client.outbox + [msg])];
        }
        i := i + 1;
      }
      forall k | 0 <= k < |before|
        ensures clients[k] == FanOut(before, sender, msg)[k]
      {
        FanOutAt(before, sender, msg, k);
      }
    }
  }
}
