/** What one undisturbed run of a handler does to the channel buffers, as functions; and the
    proof that the transition system's fine-grained steps amount to them. */
module HubEffects {
  import opened Messages
  import opened HubLog
  import opened HubSystem
  import opened HubInvariant
  import opened HubTheorems
  import opened HubProgress

  type Buffers = map<Id, seq<Message>>

  function OfferIf(targeted: bool, queue: seq<Message>, msg: Message, cap: nat): seq<Message> {
    if targeted then Offer(queue, msg, cap) else queue
  }

  /** A lossy send to every target: append where there is room, drop elsewhere. */
  function OfferAll(qs: Buffers, targets: set<Id>, msg: Message, cap: nat): Buffers {
    map x | x in qs :: OfferIf(x in targets, qs[x], msg, cap)
  }

  function RegisterEffect(qs: Buffers, id: Id, queue: seq<Message>, listing: seq<Id>, cap: nat): Buffers {
    OfferAll(qs, qs.Keys - {id}, Joined(id), cap)[id := queue + Welcome(id, listing)]
  }

  function UnregisterEffect(qs: Buffers, id: Id, cap: nat): Buffers {
    OfferAll(qs - {id}, qs.Keys, Left(id), cap)
  }

  /** The error reply would have to wait for the sender's full channel. */
  predicate ReplyBlocks(qs: Buffers, msg: Message, cap: nat)
    requires msg.Signal?
  {
    msg.to != "" && msg.to !in qs && msg.from in qs && |qs[msg.from]| >= cap
  }

  function SubmitEffect(qs: Buffers, msg: Message, cap: nat): Buffers
    requires msg.Signal?
  {
    if msg.to == "" then OfferAll(qs, qs.Keys, msg, cap)
    else if msg.to in qs then OfferAll(qs, {msg.to}, msg, cap)
    else if msg.from in qs then OfferAll(qs, {msg.from}, PeerNotFound(msg.from, msg.to), cap)
    else qs
  }

  // ---------- The transition system computes these effects ----------

  function Queues(s: State): Buffers {
    map x | x in s.peers && s.peers[x] in s.links :: s.links[s.peers[x]].queue
  }

  lemma PushedQueues(cap: nat, s: State, k: nat, msg: Message, targets: set<Id>, t: State)
    requires RosterOk(s) && t.peers == s.peers && t.links == PushedAll(cap, s, k, msg, targets)
    ensures Queues(t) == OfferAll(Queues(s), targets, msg, cap)
  {
    forall x | x in s.peers
      ensures Queues(t)[x] == OfferAll(Queues(s), targets, msg, cap)[x]
    {
      assert s.links[s.peers[x]].id == x;
    }
  }

  /** A broadcast loop left alone ends at the select with the pointwise effect, whatever the order. */
  lemma LoopEffect(cap: nat, s: State, order: seq<Id>) returns (t: State)
    requires StateOk(s) && s.hub.Looping? && IsListing(order, s.hub.pending)
    ensures Run(cap, s, Offers(order) + [LoopEnd], t)
    ensures t.hub.AtSelect? && t.peers == s.peers && t.log == s.log
    ensures Queues(t) == OfferAll(Queues(s), s.hub.pending, s.hub.msg, cap)
  {
    var k := |s.log| - 1;
    t := s.(hub := AtSelect, links := PushedAll(cap, s, k, s.hub.msg, s.hub.pending));
    LoopRun(cap, s, order);
    PushedQueues(cap, s, k, s.hub.msg, s.hub.pending, t);
  }

  lemma RunCons(cap: nat, s: State, a: Action, acts: seq<Action>, t: State)
    requires Enabled(cap, s, a) && Run(cap, Step(cap, s, a), acts, t)
    ensures Run(cap, s, [a] + acts, t)
  {
    assert ([a] + acts)[1..] == acts;
  }

  lemma OffersAreHubSends(order: seq<Id>)
    ensures forall a :: a in Offers(order) + [LoopEnd] ==> IsHubSend(a)
  {
  }

  /** The hub sends the error reply, or stays blocked in it. */
  lemma ReplyRun(cap: nat, n: State, msg: Message) returns (acts: seq<Action>, t: State)
    requires StateOk(n) && msg.Signal? && msg.to != "" && msg.to !in n.peers && msg.from in n.peers
    requires n.hub == SendingError(n.peers[msg.from], PeerNotFound(msg.from, msg.to))
    requires Queues(n).Keys == n.peers.Keys
    ensures Run(cap, n, acts, t) && (forall a :: a in acts ==> IsHubSend(a)) && t.peers == n.peers
    ensures if ReplyBlocks(Queues(n), msg, cap) then Blocked(cap, t) && Queues(t) == Queues(n)
            else t.hub.AtSelect? && Queues(t) == SubmitEffect(Queues(n), msg, cap)
  {
    assert RosterOk(n);
    if |n.links[n.hub.c].queue| < cap {
      t := Step(cap, n, SendError);
      acts := [SendError];
      ErrorEffect(cap, n);
      assert Run(cap, t, [SendError][1..], t);
    } else {
      t, acts := n, [];
    }
  }

  /** The hub finishes what a submission made it do. */
  lemma RouteRun(cap: nat, n: State, msg: Message) returns (acts: seq<Action>, t: State)
    requires StateOk(n) && msg.Signal? && n.hub == Route(n.peers, msg) && Queues(n).Keys == n.peers.Keys
    ensures Run(cap, n, acts, t) && (forall a :: a in acts ==> IsHubSend(a)) && t.peers == n.peers
    ensures if ReplyBlocks(Queues(n), msg, cap) then Blocked(cap, t) && Queues(t) == Queues(n)
            else t.hub.AtSelect? && Queues(t) == SubmitEffect(Queues(n), msg, cap)
  {
    if n.hub.Looping? {
      var order := ListSet(n.hub.pending);
      t := LoopEffect(cap, n, order);
      acts := Offers(order) + [LoopEnd];
      OffersAreHubSends(order);
    } else if n.hub.SendingError? {
      acts, t := ReplyRun(cap, n, msg);
    } else {
      t, acts := n, [];
    }
  }

  /** Handling a submission, undisturbed: the hub is back at its select with exactly the effect that
      `HandleBroadcast` has, unless the reply blocks; then it stops there with nothing changed. */
  lemma SubmitRun(cap: nat, s: State, c: Conn) returns (acts: seq<Action>, t: State)
    requires Reachable(cap, s) && Enabled(cap, s, Submit(c))
    ensures Run(cap, s, [Submit(c)] + acts, t) && forall a :: a in acts ==> IsHubSend(a)
    ensures t.peers == s.peers && s.links[c].reader.msg.Signal?
    ensures var msg := s.links[c].reader.msg;
            if ReplyBlocks(Queues(s), msg, cap) then Blocked(cap, t) && Queues(t) == Queues(s)
            else t.hub.AtSelect? && Queues(t) == SubmitEffect(Queues(s), msg, cap)
  {
    SubmitReady(cap, s, c);
    SubmitQueues(cap, s, c);
    acts, t := RouteRun(cap, Step(cap, s, Submit(c)), s.links[c].reader.msg);
    RunCons(cap, s, Submit(c), acts, t);
  }

  lemma SubmitReady(cap: nat, s: State, c: Conn)
    requires Reachable(cap, s) && Enabled(cap, s, Submit(c))
    ensures RosterOk(s) && s.links[c].reader.msg.Signal? && StateOk(Step(cap, s, Submit(c)))
  {
    ReachableInv(cap, s);
    SubmitLinks(cap, s, c);
    SubmitState(cap, s, c);
  }

  lemma SubmitQueues(cap: nat, s: State, c: Conn)
    requires RosterOk(s) && Enabled(cap, s, Submit(c)) && s.links[c].reader.msg.Signal?
    ensures var n, msg := Step(cap, s, Submit(c)), s.links[c].reader.msg;
            && Queues(n) == Queues(s) && n.peers == s.peers && Queues(s).Keys == s.peers.Keys
            && n.hub == Route(s.peers, msg)
  {
  }

  lemma ErrorEffect(cap: nat, s: State)
    requires StateOk(s) && s.hub.SendingError? && CanSend(cap, s, s.hub.c)
    ensures var t := Step(cap, s, SendError);
            && t.hub.AtSelect? && t.peers == s.peers
            && Queues(t) == OfferAll(Queues(s), {s.links[s.hub.c].id}, s.hub.msg, cap)
  {
    assert RosterOk(s) && PlaceOk(s);
    var t := Step(cap, s, SendError);
    var c := s.hub.c;
    forall x | x in s.peers
      ensures Queues(t)[x] == OfferAll(Queues(s), {s.links[c].id}, s.hub.msg, cap)[x]
    {
      assert s.links[s.peers[x]].id == x;
    }
  }

  lemma RunThree(cap: nat, s: State, a: Action, b: Action, c: Action, acts: seq<Action>, t: State)
    requires Enabled(cap, s, a) && Enabled(cap, Step(cap, s, a), b)
    requires Enabled(cap, Step(cap, Step(cap, s, a), b), c)
    requires Run(cap, Step(cap, Step(cap, Step(cap, s, a), b), c), acts, t)
    ensures Run(cap, s, [a, b, c] + acts, t)
  {
    RunCons(cap, Step(cap, Step(cap, s, a), b), c, acts, t);
    RunCons(cap, Step(cap, s, a), b, [c] + acts, t);
    RunCons(cap, s, a, [b] + ([c] + acts), t);
    assert [a] + ([b] + ([c] + acts)) == [a, b, c] + acts;
  }

  /** t differs from s in the link of c only, apart from the place of the hub. */
  ghost predicate OnlyLink(s: State, t: State, c: Conn) {
    && t.links.Keys == s.links.Keys && c in s.links
    && (forall d :: d in s.links && d != c ==> t.links[d] == s.links[d])
    && t.links[c].id == s.links[c].id
  }

  lemma RegisterFirst(cap: nat, s: State, c: Conn)
    requires StateOk(s) && Enabled(cap, s, Register(c)) && s.links[c].queue == [] && !s.links[c].closed
    ensures var t, id := Step(cap, s, Register(c)), s.links[c].id;
            && StateOk(t) && t.hub == SendingId(c, id) && t.peers == s.peers[id := c] && OnlyLink(s, t, c)
            && t.links[c].queue == [] && !t.links[c].closed
  {
    RegisterState(cap, s, c);
  }

  lemma SendIdNext(cap: nat, s: State)
    requires cap >= 2 && StateOk(s) && s.hub.SendingId?
    requires s.links[s.hub.c].queue == [] && !s.links[s.hub.c].closed
    ensures Enabled(cap, s, SendId)
    ensures var t, c, id := Step(cap, s, SendId), s.hub.c, s.hub.id;
            && StateOk(t) && t.hub == SendingList(c, id) && t.peers == s.peers && OnlyLink(s, t, c)
            && t.links[c].queue == [Registered(id)] && !t.links[c].closed
  {
    var t := Step(cap, s, SendId);
    PutState(s, s.hub.c, t.links[s.hub.c], t.hub);
  }

  lemma SendListNext(cap: nat, s: State, listing: seq<Id>)
    requires cap >= 2 && StateOk(s) && s.hub.SendingList? && IsListing(listing, s.peers.Keys - {s.hub.id})
    requires s.links[s.hub.c].queue == [Registered(s.hub.id)] && !s.links[s.hub.c].closed
    ensures Enabled(cap, s, SendList(listing))
    ensures var t, c, id := Step(cap, s, SendList(listing)), s.hub.c, s.hub.id;
            && StateOk(t) && t.hub == Looping(Joined(id), s.peers.Keys - {id}) && t.peers == s.peers
            && OnlyLink(s, t, c) && t.links[c].queue == Welcome(id, listing)
  {
    var t := Step(cap, s, SendList(listing));
    PutState(s, s.hub.c, t.links[s.hub.c], t.hub);
  }

  function ThreeSteps(cap: nat, s: State, a: Action, b: Action, c: Action): State
    requires Enabled(cap, s, a) && Enabled(cap, Step(cap, s, a), b)
    requires Enabled(cap, Step(cap, Step(cap, s, a), b), c)
  {
    Step(cap, Step(cap, Step(cap, s, a), b), c)
  }

  lemma RegisterToLoop(cap: nat, s: State, c: Conn, listing: seq<Id>)
    requires cap >= 2 && StateOk(s) && Enabled(cap, s, Register(c)) && s.links[c].queue == [] && !s.links[c].closed
    requires IsListing(listing, s.peers.Keys - {s.links[c].id})
    ensures Enabled(cap, Step(cap, s, Register(c)), SendId)
    ensures Enabled(cap, Step(cap, Step(cap, s, Register(c)), SendId), SendList(listing))
    ensures var t, id := ThreeSteps(cap, s, Register(c), SendId, SendList(listing)), s.links[c].id;
            && StateOk(t) && t.peers == s.peers[id := c] && OnlyLink(s, t, c)
            && t.hub == Looping(Joined(id), t.peers.Keys - {id}) && t.links[c].queue == Welcome(id, listing)
  {
    var s1 := Step(cap, s, Register(c));
    RegisterFirst(cap, s, c);
    assert s1.peers.Keys - {s.links[c].id} == s.peers.Keys - {s.links[c].id};
    SendIdNext(cap, s1);
    SendListNext(cap, Step(cap, s1, SendId), listing);
  }

  /** A registration, undisturbed, has the effect of `HandleRegister`. */
  lemma RegisterRun(cap: nat, s: State, c: Conn, listing: seq<Id>) returns (acts: seq<Action>, t: State)
    requires cap >= 2 && Reachable(cap, s) && Enabled(cap, s, Register(c))
    requires IsListing(listing, s.peers.Keys - {s.links[c].id})
    ensures Run(cap, s, [Register(c), SendId, SendList(listing)] + acts, t) && forall a :: a in acts ==> IsHubSend(a)
    ensures t.hub.AtSelect? && t.peers == s.peers[s.links[c].id := c]
    ensures Queues(t) == RegisterEffect(Queues(s), s.links[c].id, [], listing, cap)
  {
    assert StateOk(s) && s.links[c].queue == [] && !s.links[c].closed by {
      ReachableInv(cap, s);
      FreshQueue(cap, s, c);
    }
    acts, t := RegisterRunFrom(cap, s, c, listing);
  }

  lemma RegisterRunFrom(cap: nat, s: State, c: Conn, listing: seq<Id>) returns (acts: seq<Action>, t: State)
    requires cap >= 2 && StateOk(s) && Enabled(cap, s, Register(c)) && s.links[c].queue == [] && !s.links[c].closed
    requires IsListing(listing, s.peers.Keys - {s.links[c].id})
    ensures Run(cap, s, [Register(c), SendId, SendList(listing)] + acts, t) && forall a :: a in acts ==> IsHubSend(a)
    ensures t.hub.AtSelect? && t.peers == s.peers[s.links[c].id := c]
    ensures Queues(t) == RegisterEffect(Queues(s), s.links[c].id, [], listing, cap)
  {
    RegisterToLoop(cap, s, c, listing);
    var w := ThreeSteps(cap, s, Register(c), SendId, SendList(listing));
    var order := ListSet(w.hub.pending);
    t := LoopEffect(cap, w, order);
    acts := Offers(order) + [LoopEnd];
    OffersAreHubSends(order);
    RunThree(cap, s, Register(c), SendId, SendList(listing), acts, t);
    RegisterQueues(s, w, c, s.links[c].id, listing, cap);
  }

  lemma RegisterQueues(s: State, t: State, c: Conn, id: Id, listing: seq<Id>, cap: nat)
    requires StateOk(s) && StateOk(t) && c in s.links && s.links[c].id == id && s.links[c].phase.Dialing?
    requires t.peers == s.peers[id := c] && OnlyLink(s, t, c) && t.links[c].queue == Welcome(id, listing)
    ensures OfferAll(Queues(t), t.peers.Keys - {id}, Joined(id), cap) == RegisterEffect(Queues(s), id, [], listing, cap)
  {
    WelcomeQueues(s, t, c, id, listing);
    EffectAfterWelcome(cap, Queues(s), Queues(t), id, listing);
    assert Queues(t).Keys == t.peers.Keys by { assert RosterOk(t); }
  }

  lemma FreshQueue(cap: nat, s: State, c: Conn)
    requires Inv(cap, s) && c in s.links && s.links[c].phase.Dialing?
    ensures s.links[c].queue == [] && !s.links[c].closed
  {
    var l := s.links[c];
    assert LinkOk(cap, l) && HistoryOk(s.hub, s.peers, s.log, c, l);
    assert |Undelivered(l)| <= |l.delivered + Undelivered(l)|;
  }

  lemma WelcomeQueues(s: State, t: State, c: Conn, id: Id, listing: seq<Id>)
    requires RosterOk(s) && c in s.links && s.links[c].id == id && s.links[c].phase.Dialing?
    requires t.peers == s.peers[id := c] && t.links.Keys == s.links.Keys
    requires forall d :: d in s.links && d != c ==> t.links[d] == s.links[d]
    requires t.links[c].queue == Welcome(id, listing)
    ensures Queues(t) == Queues(s)[id := Welcome(id, listing)]
  {
  }

  lemma EffectAfterWelcome(cap: nat, before: Buffers, after: Buffers, id: Id, listing: seq<Id>)
    requires after == before[id := Welcome(id, listing)]
    ensures OfferAll(after, after.Keys - {id}, Joined(id), cap) == RegisterEffect(before, id, [], listing, cap)
  {
    assert [] + Welcome(id, listing) == Welcome(id, listing);
  }

  /** An unregistration, undisturbed, has the effect of `HandleUnregister`. */
  lemma UnregisterRun(cap: nat, s: State, c: Conn) returns (acts: seq<Action>, t: State)
    requires Reachable(cap, s) && Enabled(cap, s, Unregister(c))
    ensures Run(cap, s, [Unregister(c)] + acts, t) && forall a :: a in acts ==> IsHubSend(a)
    ensures t.hub.AtSelect? && t.peers == s.peers - {s.links[c].id}
    ensures Queues(t) == UnregisterEffect(Queues(s), s.links[c].id, cap)
  {
    var s1 := Step(cap, s, Unregister(c));
    assert RosterOk(s) && !s.links[c].closed && StateOk(s1) by {
      ReachableInv(cap, s);
      UnregisterLinks(cap, s, c);
      UnregisterState(cap, s, c);
    }
    UnregisterQueues(cap, s, c);
    var order := ListSet(s1.hub.pending);
    t := LoopEffect(cap, s1, order);
    acts := Offers(order) + [LoopEnd];
    OffersAreHubSends(order);
    RunCons(cap, s, Unregister(c), acts, t);
    UnregisterTargets(Queues(s), s.links[c].id, cap);
  }

  lemma UnregisterTargets(qs: Buffers, id: Id, cap: nat)
    ensures OfferAll(qs - {id}, qs.Keys - {id}, Left(id), cap) == UnregisterEffect(qs, id, cap)
  {
  }

  lemma UnregisterQueues(cap: nat, s: State, c: Conn)
    requires RosterOk(s) && Enabled(cap, s, Unregister(c)) && !s.links[c].closed
    ensures var n := Step(cap, s, Unregister(c));
            && Queues(n) == Queues(s) - {s.links[c].id}
            && n.hub == Looping(Left(s.links[c].id), Queues(s).Keys - {s.links[c].id})
            && n.peers == s.peers - {s.links[c].id}
  {
    UnregisterLeavesQueues(cap, s, c);
    QueuesWithout(s, Step(cap, s, Unregister(c)), s.links[c].id);
  }

  lemma UnregisterLeavesQueues(cap: nat, s: State, c: Conn)
    requires Enabled(cap, s, Unregister(c)) && !s.links[c].closed
    ensures var n, id := Step(cap, s, Unregister(c)), s.links[c].id;
            && n.peers == s.peers - {id} && n.hub == Looping(Left(id), n.peers.Keys)
            && n.links.Keys == s.links.Keys
            && forall d :: d in s.links ==> n.links[d].queue == s.links[d].queue
  {
  }

  lemma QueuesWithout(s: State, n: State, id: Id)
    requires RosterOk(s) && n.peers == s.peers - {id} && n.links.Keys == s.links.Keys
    requires forall d :: d in s.links ==> n.links[d].queue == s.links[d].queue
    ensures Queues(n) == Queues(s) - {id} && n.peers.Keys == Queues(s).Keys - {id}
  {
    assert Queues(s).Keys == s.peers.Keys;
  }
}
