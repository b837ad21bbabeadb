/** internal/signaling/hub.go as objects: bounded channels, peers, and the hub whose handlers
    update its map and push to its channels. The handlers' effects are the functions of
    module HubEffects, to which the transition system is tied as well. */
module HubClasses {
  import opened Messages
  import opened HubLog
  import opened HubEffects

  class Chan {
    const cap: nat
    var buf: seq<Message>
    var closed: bool

    constructor (cap: nat)
      ensures this.cap == cap && buf == [] && !closed
    {
      this.cap := cap;
      buf, closed := [], false;
    }

    /** `select { case ch <- m: default: }`: a send on a closed channel would panic. */
    method TrySend(m: Message) returns (ok: bool)
      requires !closed
      modifies this`buf
      ensures ok <==> |old(buf)| < cap
      ensures buf == Offer(old(buf), m, cap)
    {
      ok := |buf| < cap;
      if ok {
        buf := buf + [m];
      }
    }

    /** `close(ch)`: closing twice would panic. */
    method Close()
      requires !closed
      modifies this`closed
      ensures closed
    {
      closed := true;
    }
  }

  class Peer {
    const id: Id
    const send: Chan

    constructor (id: Id, send: Chan)
      ensures this.id == id && this.send == send
    {
      this.id, this.send := id, send;
    }
  }

  class Hub {
    var peers: map<Id, Peer>
    ghost const cap: nat

    ghost function Channels(): set<Chan>
      reads this, peers.Values
    {
      set x | x in peers :: peers[x].send
    }

    /** Separation: entries are stored under their own ID, distinct entries have distinct
        channels, and every channel in the map is open and within capacity. */
    ghost predicate Valid()
      reads this, peers.Values, Channels()
    {
      && (forall x :: x in peers ==>
            && peers[x].id == x && peers[x].send.cap == cap
            && !peers[x].send.closed && |peers[x].send.buf| <= cap)
      && (forall x, y :: x in peers && y in peers && x != y ==> peers[x].send != peers[y].send)
    }

    ghost function Buffers(): map<Id, seq<Message>>
      reads this, peers.Values, Channels()
    {
      map x | x in peers :: peers[x].send.buf
    }

    constructor (ghost cap: nat)
      ensures Valid() && peers == map[] && this.cap == cap
    {
      peers := map[];
      this.cap := cap;
    }

    /** One lossy send to each target; the map's order does not matter. */
    method BroadcastTo(msg: Message, targets: set<Id>)
      requires Valid() && targets <= peers.Keys
      modifies Channels()`buf
      ensures Valid()
      ensures forall x :: x in peers ==> peers[x].send.buf == OfferIf(x in targets, old(peers[x].send.buf), msg, cap)
    {
      var rest := targets;
      while rest != {}
        invariant rest <= targets
        invariant forall x :: x in peers ==>
          peers[x].send.buf == OfferIf(x in targets - rest, old(peers[x].send.buf), msg, cap)
        decreases rest
      {
        var id :| id in rest;
        rest := rest - {id};
        var _ := peers[id].send.TrySend(msg);
      }
    }

    /** `broadcastToAll` */
    method BroadcastToAll(msg: Message)
      requires Valid()
      modifies Channels()`buf
      ensures Valid()
      ensures forall x :: x in peers ==> peers[x].send.buf == Offer(old(peers[x].send.buf), msg, cap)
    {
      BroadcastTo(msg, peers.Keys);
    }

    /** `broadcastToOthers` */
    method BroadcastToOthers(msg: Message, excludeId: Id)
      requires Valid()
      modifies Channels()`buf
      ensures Valid()
      ensures forall x :: x in peers ==>
        peers[x].send.buf == OfferIf(x != excludeId, old(peers[x].send.buf), msg, cap)
    {
      BroadcastTo(msg, peers.Keys - {excludeId});
    }

    /** The snapshot of `sendPeerList`: every other ID once, in map iteration order. */
    method ListOthers(id: Id) returns (ids: seq<Id>)
      ensures IsListing(ids, peers.Keys - {id})
    {
      ids := [];
      var rest := peers.Keys;
      while rest != {}
        invariant rest <= peers.Keys
        invariant IsListing(ids, peers.Keys - rest - {id})
        decreases rest
      {
        var x :| x in rest;
        rest := rest - {x};
        if x != id {
          assert x !in ids;
          ids := ids + [x];
        }
      }
      assert peers.Keys - rest - {id} == peers.Keys - {id};
    }

    /** The map update of a registration; an entry with the same ID is overwritten. */
    method Insert(peer: Peer)
      requires Valid()
      requires peer.send.cap == cap && |peer.send.buf| <= cap && !peer.send.closed
      requires peer.send !in Channels()
      modifies this`peers
      ensures Valid() && peers == old(peers)[peer.id := peer]
      ensures Channels() <= old(Channels()) + {peer.send}
    {
      assert forall x :: x in peers ==> peers[x].send in Channels();
      peers := peers[peer.id := peer];
    }

    /** The map update of an unregistration: the entry is deleted by ID, the channel closed is the peer's own. */
    method Remove(peer: Peer)
      requires Valid()
      requires peer.id in peers ==> !peer.send.closed
      requires forall x :: x in peers && peers[x].send == peer.send ==> x == peer.id
      modifies this`peers, peer.send`closed
      ensures Valid() && peers == old(peers) - {peer.id}
      ensures peer.send.closed <==> old(peer.send.closed) || peer.id in old(peers)
      ensures Channels() <= old(Channels())
    {
      if peer.id in peers {
        peers := peers - {peer.id};
        peer.send.Close();
      } else {
        assert peers == peers - {peer.id};
      }
    }

    /** The map update and the two blocking sends of a registration: the fresh channel has room. */
    method WelcomePeer(peer: Peer) returns (listing: seq<Id>)
      requires Valid() && cap >= 2
      requires peer.send.cap == cap && peer.send.buf == [] && !peer.send.closed
      requires peer.send !in Channels()
      modifies this`peers, peer.send`buf
      ensures Valid() && peers == old(peers)[peer.id := peer]
      ensures Channels() <= old(Channels()) + {peer.send}
      ensures IsListing(listing, old(peers).Keys - {peer.id})
      ensures peer.send.buf == Welcome(peer.id, listing)
    {
      Insert(peer);
      var _ := peer.send.TrySend(Registered(peer.id));
      listing := ListOthers(peer.id);
      var _ := peer.send.TrySend(PeerList(listing));
    }

    method WelcomeAndAnnounce(peer: Peer) returns (listing: seq<Id>)
      requires Valid() && cap >= 2
      requires peer.send.cap == cap && peer.send.buf == [] && !peer.send.closed
      requires peer.send !in Channels()
      modifies this`peers, Channels()`buf, peer.send`buf
      ensures Valid()
      ensures peers == old(peers)[peer.id := peer]
      ensures IsListing(listing, old(peers).Keys - {peer.id})
      ensures peer.send.buf == Welcome(peer.id, listing)
      ensures forall x :: x in peers && x != peer.id ==>
        peers[x].send.buf == Offer(old(peers[x].send.buf), Joined(peer.id), cap)
    {
      listing := WelcomePeer(peer);
      assert peers[peer.id] == peer;
      BroadcastToOthers(Joined(peer.id), peer.id);
    }

    /** `handleRegister`, for a peer whose channel was just made. An overwritten entry's channel stays
        open and is not written to. */
    method HandleRegister(peer: Peer) returns (listing: seq<Id>)
      requires Valid() && cap >= 2
      requires peer.send.cap == cap && peer.send.buf == [] && !peer.send.closed
      requires peer.send !in Channels()
      modifies this`peers, Channels()`buf, peer.send`buf
      ensures Valid()
      ensures peers == old(peers)[peer.id := peer]
      ensures IsListing(listing, old(peers).Keys - {peer.id})
      ensures Buffers() == RegisterEffect(old(Buffers()), peer.id, [], listing, cap)
    {
      ghost var before := Buffers();
      listing := WelcomeAndAnnounce(peer);
      RegisterPointwise(before, Buffers(), peer.id, listing, cap);
    }

    /** `handleUnregister` */
    method HandleUnregister(peer: Peer)
      requires Valid()
      requires peer.id in peers ==> !peer.send.closed
      requires forall x :: x in peers && peers[x].send == peer.send ==> x == peer.id
      modifies this`peers, Channels()`buf, peer.send`closed
      ensures Valid()
      ensures peers == old(peers) - {peer.id}
      ensures peer.send.closed <==> old(peer.send.closed) || peer.id in old(peers)
      ensures peer.send.buf == old(peer.send.buf)
      ensures Buffers() == UnregisterEffect(old(Buffers()), peer.id, cap)
    {
      ghost var before := Buffers();
      Remove(peer);
      BroadcastToAll(Left(peer.id));
      UnregisterPointwise(before, Buffers(), peer.id, cap);
    }

    /** One direct send to an entry of the map. */
    method SendTo(id: Id, msg: Message) returns (ok: bool)
      requires Valid() && id in peers
      modifies Channels()`buf
      ensures Valid()
      ensures ok <==> |old(Buffers())[id]| < cap
      ensures Buffers() == OfferAll(old(Buffers()), {id}, msg, cap)
    {
      ghost var before := Buffers();
      ok := peers[id].send.TrySend(msg);
      OfferPointwise(before, Buffers(), {id}, msg, cap);
    }

    /** The error reply to an unknown target, a blocking send: `blocked` is reported, and nothing has
        changed, exactly when that send would wait. */
    method ReplyNotFound(from: Id, to: Id) returns (blocked: bool)
      requires Valid() && from in peers
      modifies Channels()`buf
      ensures Valid()
      ensures blocked <==> |old(Buffers())[from]| >= cap
      ensures Buffers() ==
              if blocked then old(Buffers()) else OfferAll(old(Buffers()), {from}, PeerNotFound(from, to), cap)
    {
      var sender := peers[from].send;
      blocked := |sender.buf| >= sender.cap;
      if !blocked {
        var _ := SendTo(from, PeerNotFound(from, to));
      }
    }

    /** The targeted half of `handleBroadcast`. */
    method HandleTargeted(msg: Message) returns (blocked: bool)
      requires Valid() && msg.Signal? && msg.to != ""
      modifies Channels()`buf
      ensures Valid()
      ensures blocked <==> ReplyBlocks(old(Buffers()), msg, cap)
      ensures Buffers() == if blocked then old(Buffers()) else SubmitEffect(old(Buffers()), msg, cap)
    {
      blocked := false;
      if msg.to in peers {
        var _ := SendTo(msg.to, msg);
      } else if msg.from in peers {
        blocked := ReplyNotFound(msg.from, msg.to);
      }
    }

    /** `handleBroadcast` */
    method HandleBroadcast(msg: Message) returns (blocked: bool)
      requires Valid() && msg.Signal?
      modifies Channels()`buf
      ensures Valid()
      ensures blocked <==> ReplyBlocks(old(Buffers()), msg, cap)
      ensures Buffers() == if blocked then old(Buffers()) else SubmitEffect(old(Buffers()), msg, cap)
    {
      if msg.to != "" {
        blocked := HandleTargeted(msg);
        return;
      }
      ghost var before := Buffers();
      blocked := false;
      BroadcastToAll(msg);
      OfferPointwise(before, Buffers(), peers.Keys, msg, cap);
    }
  }

  lemma OfferPointwise(before: Buffers, after: Buffers, targets: set<Id>, msg: Message, cap: nat)
    requires after.Keys == before.Keys
    requires forall x :: x in after ==> after[x] == OfferIf(x in targets, before[x], msg, cap)
    ensures after == OfferAll(before, targets, msg, cap)
  {
  }

  lemma RegisterPointwise(before: Buffers, after: Buffers, id: Id, listing: seq<Id>, cap: nat)
    requires after.Keys == before.Keys + {id} && after[id] == Welcome(id, listing)
    requires forall x :: x in after && x != id ==> after[x] == Offer(before[x], Joined(id), cap)
    ensures after == RegisterEffect(before, id, [], listing, cap)
  {
    assert [] + Welcome(id, listing) == Welcome(id, listing);
  }

  lemma UnregisterPointwise(before: Buffers, after: Buffers, id: Id, cap: nat)
    requires after.Keys == before.Keys - {id}
    requires forall x :: x in after ==> after[x] == Offer(before[x], Left(id), cap)
    ensures after == UnregisterEffect(before, id, cap)
  {
  }
}
