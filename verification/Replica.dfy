/** The client's replica of the hub's membership: the update rule, its replay over
    message sequences, and how far a lossy channel can push the replica off course. */
module Replica {
  import opened Messages

  type View = set<Id>

  /** The effect of one delivered message on the client's `peers` map. */
  function ApplyView(v: View, m: Message): View {
    match m
    case PeerList(ids) => v + (set x | x in ids)
    case Joined(id) => v + {id}
    case Left(id) => v - {id}
    case _ => v
  }

  function Replay(v: View, ms: seq<Message>): View {
    if ms == [] then v else ApplyView(Replay(v, Front(ms)), Last(ms))
  }

  lemma {:induction false} ReplayConcat(v: View, a: seq<Message>, b: seq<Message>)
    ensures Replay(v, a + b) == Replay(Replay(v, a), b)
  {
    if b == [] {
      assert a + b == a;
    } else {
      assert Front(a + b) == a + Front(b);
      ReplayConcat(v, a, Front(b));
    }
  }

  /** Position k holds the latest membership fact about q in ms. */
  ghost predicate LatestFact(ms: seq<Message>, k: nat, q: Id) {
    && k < |ms|
    && Concerns(ms[k], q)
    && forall j :: k < j < |ms| ==> !Concerns(ms[j], q)
  }

  /** A replica holds q exactly when the latest fact it has seen about q is not a departure. */
  lemma {:induction false} ReplayIsLatestFact(ms: seq<Message>, q: Id)
    ensures q in Replay({}, ms) <==> exists k: nat :: LatestFact(ms, k, q) && !ms[k].Left?
  {
    if ms != [] {
      var f := Front(ms);
      ReplayIsLatestFact(f, q);
      if Concerns(Last(ms), q) {
        assert LatestFact(ms, |ms| - 1, q);
        assert forall k: nat :: LatestFact(ms, k, q) ==> k == |ms| - 1;
      } else {
        assert q in Replay({}, ms) <==> q in Replay({}, f);
        forall k: nat
          ensures LatestFact(ms, k, q) <==> LatestFact(f, k, q)
        {
          LatestFactFront(ms, k, q);
        }
        assert forall k: nat :: LatestFact(f, k, q) ==> ms[k] == f[k];
      }
    }
  }

  lemma LatestFactFront(ms: seq<Message>, k: nat, q: Id)
    requires ms != [] && !Concerns(Last(ms), q)
    ensures LatestFact(ms, k, q) <==> LatestFact(Front(ms), k, q)
  {
    var f := Front(ms);
    assert forall j :: 0 <= j < |f| ==> f[j] == ms[j];
  }

  // ---------- Drift under loss ----------

  function SymmetricDifference<T>(a: set<T>, b: set<T>): set<T> {
    (a - b) + (b - a)
  }

  /** The IDs whose latest fact was dropped, after one more attempt. */
  function StaleNext(s: set<Id>, x: Attempt): set<Id> {
    match x.msg
    case PeerList(ids) => if x.ok then s - (set y | y in ids) else s + (set y | y in ids)
    case Joined(id) => if x.ok then s - {id} else s + {id}
    case Left(id) => if x.ok then s - {id} else s + {id}
    case _ => s
  }

  /** The IDs whose latest fact was dropped. */
  function Stale(a: seq<Attempt>): set<Id> {
    if a == [] then {} else StaleNext(Stale(Front(a)), Last(a))
  }

  ghost predicate ListsKept(a: seq<Attempt>) {
    forall i :: 0 <= i < |a| && a[i].msg.PeerList? ==> a[i].ok
  }

  lemma OfferedLast(a: seq<Attempt>)
    requires a != []
    ensures Replay({}, Offered(a)) == ApplyView(Replay({}, Offered(Front(a))), Last(a).msg)
  {
    assert Front(Offered(a)) == Offered(Front(a));
  }

  lemma EnqueuedLast(a: seq<Attempt>)
    requires a != []
    ensures Replay({}, Enqueued(a)) ==
            if Last(a).ok then ApplyView(Replay({}, Enqueued(Front(a))), Last(a).msg)
            else Replay({}, Enqueued(Front(a)))
  {
    if Last(a).ok {
      assert Front(Enqueued(a)) == Enqueued(Front(a));
    } else {
      assert Enqueued(a) == Enqueued(Front(a));
    }
  }

  lemma {:induction false} DriftIsStale(a: seq<Attempt>)
    ensures SymmetricDifference(Replay({}, Offered(a)), Replay({}, Enqueued(a))) <= Stale(a)
  {
    if a != [] {
      var f := Front(a);
      DriftIsStale(f);
      OfferedLast(a);
      EnqueuedLast(a);
      StaleLast(Replay({}, Offered(f)), Replay({}, Enqueued(f)), Stale(f), Last(a));
    }
  }

  lemma StaleLast(meant: View, kept: View, stale: set<Id>, x: Attempt)
    requires SymmetricDifference(meant, kept) <= stale
    ensures SymmetricDifference(ApplyView(meant, x.msg), if x.ok then ApplyView(kept, x.msg) else kept)
            <= StaleNext(stale, x)
  {
  }

  lemma SubsetSize<T>(a: set<T>, b: set<T>)
    requires a <= b
    ensures |a| <= |b|
  {
    assert b == a + (b - a);
  }

  lemma {:induction false} StaleSize(a: seq<Attempt>)
    requires ListsKept(a)
    ensures |Stale(a)| <= DroppedMembership(a)
  {
    if a != [] {
      var f := Front(a);
      assert forall i :: 0 <= i < |f| ==> f[i] == a[i];
      StaleSize(f);
      var s := Stale(f);
      match Last(a).msg
      case PeerList(ids) =>
        SubsetSize(Stale(a), s);
      case Joined(id) =>
        if Last(a).ok { SubsetSize(Stale(a), s); } else { assert |s + {id}| <= |s| + 1; }
      case Left(id) =>
        if Last(a).ok { SubsetSize(Stale(a), s); } else { assert |s + {id}| <= |s| + 1; }
      case _ =>
    }
  }

  /** What the hub meant the peer to know and what the peer can learn from its channel
      differ in at most as many IDs as membership messages were dropped. */
  lemma DriftBound(a: seq<Attempt>)
    requires ListsKept(a)
    ensures |SymmetricDifference(Replay({}, Offered(a)), Replay({}, Enqueued(a)))| <= DroppedMembership(a)
  {
    DriftIsStale(a);
    StaleSize(a);
    SubsetSize(SymmetricDifference(Replay({}, Offered(a)), Replay({}, Enqueued(a))), Stale(a));
  }

  lemma {:induction false} NothingDropped(a: seq<Attempt>)
    requires DroppedMembership(a) == 0
    ensures Replay({}, Offered(a)) == Replay({}, Enqueued(a))
  {
    if a != [] {
      NothingDropped(Front(a));
      OfferedLast(a);
      EnqueuedLast(a);
      NoMembershipNoEffect(Replay({}, Enqueued(Front(a))), Last(a).msg);
    }
  }

  lemma NoMembershipNoEffect(v: View, m: Message)
    ensures !IsMembership(m) ==> ApplyView(v, m) == v
  {
  }

  lemma {:induction false} MembershipKept(a: seq<Attempt>)
    requires DroppedMembership(a) == 0
    ensures forall i :: 0 <= i < |a| && IsMembership(a[i].msg) ==> a[i].ok
  {
    if a != [] {
      MembershipKept(Front(a));
      assert forall i :: 0 <= i < |Front(a)| ==> Front(a)[i] == a[i];
    }
  }

  /** Attempt k is the latest one about q. */
  ghost predicate LatestAttempt(a: seq<Attempt>, k: nat, q: Id) {
    && k < |a|
    && Concerns(a[k].msg, q)
    && forall j :: k < j < |a| ==> !Concerns(a[j].msg, q)
  }

  /** Attempt k is the latest one about q that got through. */
  ghost predicate LatestKept(a: seq<Attempt>, k: nat, q: Id) {
    && k < |a| && a[k].ok
    && Concerns(a[k].msg, q)
    && forall j :: k < j < |a| && a[j].ok ==> !Concerns(a[j].msg, q)
  }

  /** The latest attempt about q, whether it got through or not, does not say that q left. */
  ghost predicate MeantPresent(a: seq<Attempt>, q: Id) {
    exists k: nat :: LatestAttempt(a, k, q) && !a[k].msg.Left?
  }

  /** The latest attempt about q that got through does not say that q left. */
  ghost predicate KeptPresent(a: seq<Attempt>, q: Id) {
    exists k: nat :: LatestKept(a, k, q) && !a[k].msg.Left?
  }

  lemma MeantDecides(a: seq<Attempt>, q: Id)
    ensures q in Replay({}, Offered(a)) <==> MeantPresent(a, q)
  {
    ReplayIsLatestFact(Offered(a), q);
    OfferedAt(a);
    forall k: nat
      ensures LatestFact(Offered(a), k, q) <==> LatestAttempt(a, k, q)
    {
    }
  }

  lemma {:induction false} KeptDecides(a: seq<Attempt>, q: Id)
    ensures q in Replay({}, Enqueued(a)) <==> KeptPresent(a, q)
  {
    if a != [] {
      var f := Front(a);
      KeptDecides(f, q);
      EnqueuedEffect(a, q);
      if Last(a).ok && Concerns(Last(a).msg, q) {
        assert LatestKept(a, |a| - 1, q);
        assert forall k: nat :: LatestKept(a, k, q) ==> k == |a| - 1;
      } else {
        KeptPresentFront(a, q);
      }
    }
  }

  lemma EnqueuedEffect(a: seq<Attempt>, q: Id)
    requires a != []
    ensures q in Replay({}, Enqueued(a)) <==>
            if Last(a).ok && Concerns(Last(a).msg, q) then !Last(a).msg.Left?
            else q in Replay({}, Enqueued(Front(a)))
  {
    EnqueuedLast(a);
  }

  lemma KeptPresentFront(a: seq<Attempt>, q: Id)
    requires a != [] && !(Last(a).ok && Concerns(Last(a).msg, q))
    ensures KeptPresent(a, q) <==> KeptPresent(Front(a), q)
  {
    var f := Front(a);
    forall k: nat
      ensures LatestKept(a, k, q) && !a[k].msg.Left? <==> LatestKept(f, k, q) && !f[k].msg.Left?
    {
      assert forall j :: 0 <= j < |f| ==> f[j] == a[j];
    }
  }

  /** Some attempt about q is the latest one, if there is any. */
  lemma {:induction false} LatestExists(a: seq<Attempt>, i: nat, q: Id) returns (k: nat)
    requires i < |a| && Concerns(a[i].msg, q)
    ensures LatestAttempt(a, k, q)
    decreases |a| - i
  {
    if j: nat :| i < j < |a| && Concerns(a[j].msg, q) {
      k := LatestExists(a, j, q);
    } else {
      k := i;
    }
  }

  /** The latest attempt about q was lost, and the latest one about q that got through (or
      silence, which means absence) says the opposite. */
  ghost predicate Misled(a: seq<Attempt>, q: Id) {
    exists k: nat :: LatestAttempt(a, k, q) && !a[k].ok && (a[k].msg.Left? <==> KeptPresent(a, q))
  }

  /** A lossy channel leaves its reader wrong about q exactly when a lost message misleads it. */
  lemma WrongExactlyIfMisled(a: seq<Attempt>, q: Id)
    ensures (q in Replay({}, Enqueued(a)) <==> q in Replay({}, Offered(a))) <==> !Misled(a, q)
  {
    MeantDecides(a, q);
    KeptDecides(a, q);
    if i: nat :| i < |a| && Concerns(a[i].msg, q) {
      var k := LatestExists(a, i, q);
      assert forall n: nat :: LatestAttempt(a, n, q) ==> n == k;
      assert a[k].ok ==> LatestKept(a, k, q);
      assert a[k].ok ==> forall n: nat :: LatestKept(a, n, q) ==> n == k;
      assert MeantPresent(a, q) <==> !a[k].msg.Left?;
      assert Misled(a, q) <==> !a[k].ok && (a[k].msg.Left? <==> KeptPresent(a, q));
    }
  }

  /** The exact condition under which loss does no harm. */
  lemma LossIsHarmless(a: seq<Attempt>)
    ensures Replay({}, Enqueued(a)) == Replay({}, Offered(a)) <==> forall q :: !Misled(a, q)
  {
    forall q
      ensures (q in Replay({}, Enqueued(a)) <==> q in Replay({}, Offered(a))) <==> !Misled(a, q)
    {
      WrongExactlyIfMisled(a, q);
    }
  }

  // ---------- What has been received ----------

  /** The same attempts, where only those among the first n messages on the channel count as having
      got through: the others are lost or have not been received yet. */
  function Received(a: seq<Attempt>, n: nat): (r: seq<Attempt>)
    ensures |r| == |a|
    ensures forall i :: 0 <= i < |a| ==> r[i].msg == a[i].msg
  {
    if a == [] then []
    else Received(Front(a), n) + [Attempt(Last(a).at, Last(a).msg, Last(a).ok && |Enqueued(Front(a))| < n)]
  }

  lemma {:induction false} ReceivedParts(a: seq<Attempt>, n: nat)
    requires n <= |Enqueued(a)|
    ensures Offered(Received(a, n)) == Offered(a)
    ensures Enqueued(Received(a, n)) == Enqueued(a)[..n]
  {
    ReceivedOffered(a, n);
    ReceivedEnqueued(a, n);
  }

  lemma {:induction false} ReceivedOffered(a: seq<Attempt>, n: nat)
    ensures Offered(Received(a, n)) == Offered(a)
  {
    if a != [] {
      ReceivedOffered(Front(a), n);
      assert Front(Received(a, n)) == Received(Front(a), n);
    }
  }

  lemma {:induction false} ReceivedEnqueued(a: seq<Attempt>, n: nat)
    ensures Enqueued(Received(a, n)) == Enqueued(a)[..if n <= |Enqueued(a)| then n else |Enqueued(a)|]
  {
    if a != [] {
      ReceivedEnqueued(Front(a), n);
      assert Front(Received(a, n)) == Received(Front(a), n);
    }
  }

  // ---------- The client objects ----------

  /** The event a transport hands to its peer handler (and a client to the application's). */
  datatype PeerEvent =
    | EventRegistered(myId: Id)
    | EventList(ids: seq<Id>)
    | EventJoined(id: Id)
    | EventLeft(id: Id)

  function ApplyEvent(v: View, e: PeerEvent): View {
    match e
    case EventList(ids) => v + (set x | x in ids)
    case EventJoined(id) => v + {id}
    case EventLeft(id) => v - {id}
    case EventRegistered(_) => v
  }

  /** pkg/p2p/client.go: the replica itself. `notified` is the history of calls to the
      application's own handler, which is optional. */
  class Client {
    var peers: map<Id, bool>
    var peerHandler: bool
    var notified: seq<PeerEvent>
    var signals: seq<Message>

    constructor ()
      ensures peers == map[] && !peerHandler && notified == [] && signals == []
    {
      peers, peerHandler, notified, signals := map[], false, [], [];
    }

    method OnPeerEvent()
      modifies this`peerHandler
      ensures peerHandler
    {
      peerHandler := true;
    }

    method HandlePeerEvent(event: PeerEvent)
      modifies this`peers, this`notified
      ensures peers.Keys == ApplyEvent(old(peers.Keys), event)
      ensures notified == old(notified) + (if peerHandler && !event.EventRegistered? then [event] else [])
    {
      match event {
        case EventJoined(id) =>
          peers := peers[id := true];
        case EventLeft(id) =>
          peers := peers - {id};
        case EventList(ids) =>
          for i := 0 to |ids|
            modifies this`peers
            invariant peers.Keys == old(peers.Keys) + (set x | x in ids[..i])
          {
            assert ids[..i + 1] == ids[..i] + [ids[i]];
            peers := peers[ids[i] := true];
          }
          assert ids[..|ids|] == ids;
        case EventRegistered(_) =>
      }
      if peerHandler && !event.EventRegistered? {
        notified := notified + [event];
      }
    }

    method HandleTransportMessage(msg: Message)
      modifies this`signals
      ensures signals == old(signals) + [msg]
    {
      signals := signals + [msg];
    }

    /** The list holds every known peer exactly once. */
    method Peers() returns (ids: seq<Id>)
      ensures IsListing(ids, peers.Keys)
    {
      ids := [];
      var rest := peers.Keys;
      while rest != {}
        invariant rest <= peers.Keys
        invariant IsListing(ids, peers.Keys - rest)
        decreases rest
      {
        var id :| id in rest;
        rest := rest - {id};
        ids := ids + [id];
      }
      assert peers.Keys - rest == peers.Keys;
    }
  }

  function SignalsOf(ms: seq<Message>): seq<Message> {
    if ms == [] then []
    else SignalsOf(Front(ms)) + (if Last(ms).Signal? then [Last(ms)] else [])
  }

  function LastRegistered(id: Id, ms: seq<Message>): Id {
    if ms == [] then id
    else if Last(ms).Registered? then Last(ms).id
    else LastRegistered(id, Front(ms))
  }

  /** The signals are handed on without exception, in order. */
  lemma {:induction false} SignalsOfSelects(ms: seq<Message>)
    ensures IsSelection(SignalsOf(ms), ms, (m: Message) => m.Signal?)
  {
    if ms != [] {
      SignalsOfSelects(Front(ms));
      SelectionNext(SignalsOf(Front(ms)), Front(ms), Last(ms), (m: Message) => m.Signal?);
      assert Front(ms) + [Last(ms)] == ms;
      assert SignalsOf(Front(ms)) + [] == SignalsOf(Front(ms));
    }
  }

  lemma {:induction false} SignalsOfConcat(a: seq<Message>, b: seq<Message>)
    ensures SignalsOf(a + b) == SignalsOf(a) + SignalsOf(b)
  {
    if b == [] {
      assert a + b == a;
    } else {
      assert Front(a + b) == a + Front(b);
      SignalsOfConcat(a, Front(b));
    }
  }

  /** The own ID is that of the latest registered message, if there is one. */
  lemma {:induction false} LastRegisteredIsLatest(id: Id, ms: seq<Message>, k: nat)
    requires k <= |ms| && forall j :: k <= j < |ms| ==> !ms[j].Registered?
    ensures k == 0 ==> LastRegistered(id, ms) == id
    ensures k > 0 && ms[k - 1].Registered? ==> LastRegistered(id, ms) == ms[k - 1].id
  {
    if k < |ms| {
      LastRegisteredIsLatest(id, Front(ms), k);
    }
  }

  lemma {:induction false} LastRegisteredConcat(id: Id, a: seq<Message>, b: seq<Message>)
    ensures LastRegistered(id, a + b) == LastRegistered(LastRegistered(id, a), b)
  {
    if b == [] {
      assert a + b == a;
    } else {
      assert Front(a + b) == a + Front(b);
      LastRegisteredConcat(id, a, Front(b));
    }
  }

  /** What an application handler is told of a message. */
  function EventFor(m: Message): seq<PeerEvent> {
    match m
    case PeerList(ids) => [EventList(ids)]
    case Joined(id) => [EventJoined(id)]
    case Left(id) => [EventLeft(id)]
    case _ => []
  }

  function EventsOf(ms: seq<Message>): seq<PeerEvent> {
    if ms == [] then [] else EventsOf(Front(ms)) + EventFor(Last(ms))
  }

  /** Events and messages of each kind, one for one. */
  ghost predicate SameCounts(es: seq<PeerEvent>, ms: seq<Message>, ids: seq<Id>, q: Id) {
    && multiset(es)[EventList(ids)] == multiset(ms)[PeerList(ids)]
    && multiset(es)[EventJoined(q)] == multiset(ms)[Joined(q)]
    && multiset(es)[EventLeft(q)] == multiset(ms)[Left(q)]
    && multiset(es)[EventRegistered(q)] == 0
  }

  lemma OneEvent(m: Message, ids: seq<Id>, q: Id)
    ensures SameCounts(EventFor(m), [m], ids, q)
  {
  }

  lemma SameCountsConcat(a: seq<PeerEvent>, b: seq<PeerEvent>, x: seq<Message>, y: seq<Message>, ids: seq<Id>, q: Id)
    requires SameCounts(a, x, ids, q) && SameCounts(b, y, ids, q)
    ensures SameCounts(a + b, x + y, ids, q)
  {
  }

  lemma {:induction false} EventsOfCounts(ms: seq<Message>, ids: seq<Id>, q: Id)
    ensures SameCounts(EventsOf(ms), ms, ids, q)
  {
    if ms != [] {
      EventsOfCounts(Front(ms), ids, q);
      OneEvent(Last(ms), ids, q);
      SameCountsConcat(EventsOf(Front(ms)), EventFor(Last(ms)), Front(ms), [Last(ms)], ids, q);
      assert ms == Front(ms) + [Last(ms)];
    }
  }

  lemma {:induction false} EventsOfPrefix(ms: seq<Message>, k: nat)
    requires k <= |ms|
    ensures EventsOf(ms[..k]) <= EventsOf(ms)
  {
    if k < |ms| {
      EventsOfPrefix(Front(ms), k);
      assert ms[..k] == Front(ms)[..k];
    } else {
      assert ms[..k] == ms;
    }
  }

  /** One event for each list, joined and left message, of that kind and about the same IDs, and nothing
      else, in the order of the messages: what was told first does not depend on what came later. */
  lemma EventsOfExactly(ms: seq<Message>, ids: seq<Id>, q: Id, k: nat)
    requires k <= |ms|
    ensures multiset(EventsOf(ms))[EventList(ids)] == multiset(ms)[PeerList(ids)]
    ensures multiset(EventsOf(ms))[EventJoined(q)] == multiset(ms)[Joined(q)]
    ensures multiset(EventsOf(ms))[EventLeft(q)] == multiset(ms)[Left(q)]
    ensures EventRegistered(q) !in EventsOf(ms)
    ensures EventsOf(ms[..k]) <= EventsOf(ms)
  {
    EventsOfCounts(ms, ids, q);
    EventsOfPrefix(ms, k);
  }

  lemma ReadOne(v: View, input: seq<Message>, i: nat)
    requires i < |input|
    ensures Replay(v, input[..i + 1]) == ApplyView(Replay(v, input[..i]), input[i])
    ensures SignalsOf(input[..i + 1]) == SignalsOf(input[..i]) + SignalsOf([input[i]])
    ensures EventsOf(input[..i + 1]) == EventsOf(input[..i]) + EventsOf([input[i]])
  {
    assert Front(input[..i + 1]) == input[..i] && Last(input[..i + 1]) == input[i];
    assert Front([input[i]]) == [] && Last([input[i]]) == input[i];
  }

  lemma OwnIdNext(id: Id, input: seq<Message>, i: nat)
    requires i < |input|
    ensures LastRegistered(id, input[..i + 1]) == LastRegistered(LastRegistered(id, input[..i]), [input[i]])
  {
    assert Front(input[..i + 1]) == input[..i] && Last(input[..i + 1]) == input[i];
    assert Front([input[i]]) == [] && Last([input[i]]) == input[i];
  }

  /** pkg/p2p/transport/websocket.go: `target` is the client whose two handlers were
      installed, or null when none were. */
  class WebSocketClient {
    var myID: Id
    var target: Client?

    constructor ()
      ensures myID == "" && target == null
    {
      myID, target := "", null;
    }

    method SetHandlers(client: Client)
      modifies this`target
      ensures target == client
    {
      target := client;
    }

    /** Dispatch of one message; without handlers everything but the own ID is lost. */
    method HandleMessage(msg: Message)
      modifies this`myID, target
      ensures myID == LastRegistered(old(myID), [msg])
      ensures target != null ==>
        && target.peers.Keys == ApplyView(old(target.peers.Keys), msg)
        && target.signals == old(target.signals) + SignalsOf([msg])
        && target.peerHandler == old(target.peerHandler)
        && target.notified == old(target.notified) + (if target.peerHandler then EventsOf([msg]) else [])
    {
      assert Front([msg]) == [] && Last([msg]) == msg;
      match msg {
        case Registered(id) =>
          myID := id;
          if target != null { target.HandlePeerEvent(EventRegistered(id)); }
        case PeerList(ids) =>
          if target != null { target.HandlePeerEvent(EventList(ids)); }
        case Joined(id) =>
          if target != null { target.HandlePeerEvent(EventJoined(id)); }
        case Left(id) =>
          if target != null { target.HandlePeerEvent(EventLeft(id)); }
        case Signal(_, _, _) =>
          if target != null { target.HandleTransportMessage(msg); }
        case PeerNotFound(_, _) =>
      }
    }

    /** The read loop handles the messages of the connection one after the other. */
    method ReadPump(input: seq<Message>)
      modifies this`myID, target
      ensures myID == LastRegistered(old(myID), input)
      ensures target != null ==>
        && target.peers.Keys == Replay(old(target.peers.Keys), input)
        && target.signals == old(target.signals) + SignalsOf(input)
        && target.peerHandler == old(target.peerHandler)
        && target.notified == old(target.notified) + (if target.peerHandler then EventsOf(input) else [])
    {
      for i := 0 to |input|
        invariant target == old(target)
        invariant myID == LastRegistered(old(myID), input[..i])
        invariant target != null ==>
          && target.peers.Keys == Replay(old(target.peers.Keys), input[..i])
          && target.signals == old(target.signals) + SignalsOf(input[..i])
          && target.peerHandler == old(target.peerHandler)
          && target.notified == old(target.notified) + (if target.peerHandler then EventsOf(input[..i]) else [])
      {
        if target != null { ReadOne(old(target.peers.Keys), input, i); }
        OwnIdNext(old(myID), input, i);
        HandleMessage(input[i]);
      }
      assert input[..|input|] == input;
    }
  }

  /** Connecting with the handlers installed first: the replica is the replay of everything the server
      sent, from the very first message on. The application can install its own handler only on the
      client that `Connect` returns; it is told what comes after the first `early` messages. */
  method ConnectAndRead(input: seq<Message>, early: nat) returns (client: Client, ws: WebSocketClient)
    requires early <= |input|
    ensures fresh(client) && fresh(ws)
    ensures client.peers.Keys == Replay({}, input)
    ensures client.signals == SignalsOf(input)
    ensures client.notified == EventsOf(input[early..])
    ensures ws.myID == LastRegistered("", input)
  {
    ws := new WebSocketClient();
    client := new Client();
    assert client.peers.Keys == {};
    ws.SetHandlers(client);
    InTwoParts(input, early);
    ws.ReadPump(input[..early]);
    client.OnPeerEvent();
    ws.ReadPump(input[early..]);
  }

  lemma InTwoParts(input: seq<Message>, k: nat)
    requires k <= |input|
    ensures Replay(Replay({}, input[..k]), input[k..]) == Replay({}, input)
    ensures SignalsOf(input[..k]) + SignalsOf(input[k..]) == SignalsOf(input)
    ensures LastRegistered(LastRegistered("", input[..k]), input[k..]) == LastRegistered("", input)
  {
    assert input == input[..k] + input[k..];
    ReplayConcat({}, input[..k], input[k..]);
    SignalsOfConcat(input[..k], input[k..]);
    LastRegisteredConcat("", input[..k], input[k..]);
  }

  ghost predicate Mentioned(ms: seq<Message>, q: Id) {
    exists k :: 0 <= k < |ms| && Concerns(ms[k], q)
  }

  /** Why the order in `Connect` matters: handlers installed only after the first `lost`
      messages give the right replica exactly when everyone those messages left in the
      replica is the subject of a later fact. */
  lemma LateHandlers(input: seq<Message>, lost: nat)
    requires lost <= |input|
    ensures Replay({}, input[lost..]) == Replay({}, input) <==>
      forall q :: q in Replay({}, input[..lost]) ==> Mentioned(input[lost..], q)
  {
    var a, b := input[..lost], input[lost..];
    assert input == a + b;
    ReplayConcat({}, a, b);
    forall q
      ensures q in Replay(Replay({}, a), b) <==> q in Replay({}, b) || (q in Replay({}, a) && !Mentioned(b, q))
      ensures q in Replay({}, b) ==> Mentioned(b, q)
    {
      ReplayFrom(Replay({}, a), b, q);
      ReplayFrom({}, b, q);
    }
  }

  lemma {:induction false} ReplayFrom(v: View, ms: seq<Message>, q: Id)
    ensures q in Replay(v, ms) <==> q in Replay({}, ms) || (q in v && !Mentioned(ms, q))
    ensures q in Replay({}, ms) ==> Mentioned(ms, q)
  {
    if ms != [] {
      var f := Front(ms);
      assert forall j :: 0 <= j < |f| ==> f[j] == ms[j];
      ReplayFrom(v, f, q);
      if Concerns(Last(ms), q) {
        assert Mentioned(ms, q);
      } else {
        assert Mentioned(ms, q) <==> Mentioned(f, q);
      }
    }
  }
}
