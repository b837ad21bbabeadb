/** The running server as a transition system: the hub goroutine, and for every
    connection its handler, its two pumps, its bounded channel, the WebSocket and the
    client behind it. One action is one step of one goroutine; actions interleave freely.

    A Go run-time panic (send on a closed channel, second close) is a state of the hub,
    not an assumption, so that its absence is something to prove. */
module HubSystem {
  import opened Messages
  import opened Replica
  import opened HubLog

  /** Where `handleWebSocket` is: about to register; registered but pumps not started;
      waiting for `done`; about to unregister; returned. */
  datatype Phase = Dialing | Spawning | Waiting | Unregistering | Returned

  /** Where `writePump` is. `WExited` is blocked on `done <-`; `WDone` has been received. */
  datatype Writer = WIdle | WSelect | WWriting | WExited | WDone

  /** Where `readPump` is; `RSubmitting(m)` is blocked on the hub's broadcast channel. */
  datatype Reader = RIdle | RReading | RSubmitting(msg: Message) | RExited | RDone

  datatype Link = Link(
    id: Id,
    phase: Phase,
    writer: Writer,
    reader: Reader,
    queue: seq<Message>,       // peer.Send
    closed: bool,              // close(peer.Send) has happened
    inflight: seq<Message>,    // taken from the channel, not yet written (at most one)
    wire: seq<Message>,        // written, not yet processed by the client
    delivered: seq<Message>,   // history of what the client processed
    view: View,                // the client's peers map
    attempts: seq<Attempt>,    // history of sends to this channel
    submitted: seq<Message>    // history of what readPump handed to the hub
  )

  function NewLink(id: Id): Link {
    Link(id, Dialing, WIdle, RIdle, [], false, [], [], [], {}, [], [])
  }

  /** Where the hub goroutine is. `Looping` has non-blocking sends outstanding for the
      map entries in `pending`; the three `Sending...` places are blocking sends. */
  datatype Place =
    | AtSelect
    | SendingId(c: Conn, id: Id)
    | SendingList(c: Conn, id: Id)
    | Looping(msg: Message, pending: set<Id>)
    | SendingError(c: Conn, msg: Message)
    | Panicked

  datatype State = State(hub: Place, peers: Roster, links: map<Conn, Link>, log: seq<Event>)

  const INIT := State(AtSelect, map[], map[], [])

  /** Steps of one connection that the hub takes no part in. */
  datatype LocalAction =
    | Spawn
    | Take
    | WriteOk
    | WriteFail
    | SeeClosed
    | PingFail
    | Read(to: Id, data: string)
    | ReadFail
    | HandDone(byWriter: bool)
    | Process

  datatype Action =
    | Dial(c: Conn, id: Id)
    | Local(c: Conn, act: LocalAction)
    | Register(c: Conn)
    | SendId
    | SendList(listing: seq<Id>)
    | OfferTo(id: Id)
    | LoopEnd
    | SendError
    | Unregister(c: Conn)
    | Submit(c: Conn)

  predicate LocalEnabled(l: Link, a: LocalAction) {
    match a
    case Spawn => l.phase.Spawning?
    case Take => l.writer.WSelect? && l.queue != []
    case WriteOk => l.writer.WWriting?
    case WriteFail => l.writer.WWriting?
    case SeeClosed => l.writer.WSelect? && l.queue == [] && l.closed
    case PingFail => l.writer.WSelect?
    case Read(_, _) => l.reader.RReading?
    case ReadFail => l.reader.RReading?
    case HandDone(byWriter) =>
      l.phase.Waiting? && (if byWriter then l.writer.WExited? else l.reader.RExited?)
    case Process => l.wire != []
  }

  function LocalStep(l: Link, a: LocalAction): Link
    requires LocalEnabled(l, a)
  {
    match a
    case Spawn => l.(phase := Waiting, writer := WSelect, reader := RReading)
    case Take => l.(writer := WWriting, inflight := [l.queue[0]], queue := l.queue[1..])
    case WriteOk => l.(writer := WSelect, wire := l.wire + l.inflight, inflight := [])
    case WriteFail => l.(writer := WExited)
    case SeeClosed => l.(writer := WExited)
    case PingFail => l.(writer := WExited)
    case Read(to, data) => l.(reader := RSubmitting(Signal(l.id, to, data)))
    case ReadFail => l.(reader := RExited)
    case HandDone(byWriter) =>
      if byWriter then l.(phase := Unregistering, writer := WDone)
      else l.(phase := Unregistering, reader := RDone)
    case Process =>
      l.(wire := l.wire[1..], delivered := l.delivered + [l.wire[0]],
         view := ApplyView(l.view, l.wire[0]))
  }

  /** One send attempt during the event numbered k. */
  function Push(cap: nat, l: Link, k: nat, msg: Message): Link {
    l.(queue := Offer(l.queue, msg, cap),
       attempts := l.attempts + [Attempt(k, msg, |l.queue| < cap)])
  }

  function Put(s: State, c: Conn, l: Link): State {
    s.(links := s.links[c := l])
  }

  /** A blocking send can proceed: there is room (or the channel is closed, and it panics). */
  predicate CanSend(cap: nat, s: State, c: Conn) {
    c in s.links && (s.links[c].closed || |s.links[c].queue| < cap)
  }

  ghost predicate Enabled(cap: nat, s: State, a: Action) {
    match a
    case Dial(c, id) => c !in s.links && id != ""
    case Local(c, act) => c in s.links && LocalEnabled(s.links[c], act)
    case Register(c) => s.hub.AtSelect? && c in s.links && s.links[c].phase.Dialing?
    case SendId => s.hub.SendingId? && CanSend(cap, s, s.hub.c)
    case SendList(listing) =>
      s.hub.SendingList? && CanSend(cap, s, s.hub.c) && IsListing(listing, s.peers.Keys - {s.hub.id})
    case OfferTo(id) =>
      s.hub.Looping? && id in s.hub.pending && id in s.peers && s.peers[id] in s.links
    case LoopEnd => s.hub.Looping? && s.hub.pending == {}
    case SendError => s.hub.SendingError? && CanSend(cap, s, s.hub.c)
    case Unregister(c) => s.hub.AtSelect? && c in s.links && s.links[c].phase.Unregistering?
    case Submit(c) => s.hub.AtSelect? && c in s.links && s.links[c].reader.RSubmitting?
  }

  /** `handleBroadcast`: one non-blocking send to the target, a blocking error reply to a
      present sender, nothing, or a loop over everybody. */
  function Route(peers: Roster, msg: Message): Place {
    if !msg.Signal? then AtSelect
    else if msg.to == "" then Looping(msg, peers.Keys)
    else if msg.to in peers then Looping(msg, {msg.to})
    else if msg.from in peers then SendingError(peers[msg.from], PeerNotFound(msg.from, msg.to))
    else AtSelect
  }

  function Step(cap: nat, s: State, a: Action): State
    requires Enabled(cap, s, a)
  {
    var k := if s.log == [] then 0 else |s.log| - 1;
    match a
    case Dial(c, id) => Put(s, c, NewLink(id))
    case Local(c, act) => Put(s, c, LocalStep(s.links[c], act))
    case Register(c) =>
      var l := s.links[c];
      Put(s, c, l.(phase := Spawning))
      .(hub := SendingId(c, l.id), peers := After(s.peers, Reg(c, l.id)), log := s.log + [Reg(c, l.id)])
    case SendId =>
      var c := s.hub.c;
      if s.links[c].closed then s.(hub := Panicked)
      else Put(s, c, Push(cap, s.links[c], k, Registered(s.hub.id))).(hub := SendingList(c, s.hub.id))
    case SendList(listing) =>
      var c := s.hub.c;
      if s.links[c].closed then s.(hub := Panicked)
      else
        Put(s, c, Push(cap, s.links[c], k, PeerList(listing)))
        .(hub := Looping(Joined(s.hub.id), s.peers.Keys - {s.hub.id}))
    case OfferTo(id) =>
      var c := s.peers[id];
      if s.links[c].closed then s.(hub := Panicked)
      else
        Put(s, c, Push(cap, s.links[c], k, s.hub.msg))
        .(hub := Looping(s.hub.msg, s.hub.pending - {id}))
    case LoopEnd => s.(hub := AtSelect)
    case SendError =>
      var c := s.hub.c;
      if s.links[c].closed then s.(hub := Panicked)
      else Put(s, c, Push(cap, s.links[c], k, s.hub.msg)).(hub := AtSelect)
    case Unregister(c) =>
      var l := s.links[c];
      var e := Unreg(c, l.id);
      var peers := After(s.peers, e);
      if l.id in s.peers && l.closed then s.(hub := Panicked)
      else
        Put(s, c, l.(phase := Returned, closed := l.closed || l.id in s.peers))
        .(hub := Looping(Left(l.id), peers.Keys), peers := peers, log := s.log + [e])
    case Submit(c) =>
      var l := s.links[c];
      var msg := l.reader.msg;
      Put(s, c, l.(reader := RReading, submitted := l.submitted + [msg]))
      .(hub := Route(s.peers, msg), log := s.log + [Post(c, msg)])
  }

  /** What the client of connection c, with the given ID, sent in a run: what its read pump read. */
  function SentBy(acts: seq<Action>, c: Conn, id: Id): seq<Message> {
    if acts == [] then [] else SentIn(acts[0], c, id) + SentBy(acts[1..], c, id)
  }

  function SentIn(a: Action, c: Conn, id: Id): seq<Message> {
    match a
    case Local(d, Read(to, data)) => if d == c then [Signal(id, to, data)] else []
    case _ => []
  }

  lemma {:induction false} SentByPrefix(acts: seq<Action>, c: Conn, id: Id, k: nat)
    requires k <= |acts|
    ensures SentBy(acts[..k], c, id) <= SentBy(acts, c, id)
  {
    if k > 0 {
      SentByPrefix(acts[1..], c, id, k - 1);
      assert acts[..k][1..] == acts[1..][..k - 1];
    }
  }

  /** Each read of c's connection gives one message with what was read and the ID as its stamp; there is
      nothing else, and what came first does not depend on what comes later. */
  lemma {:induction false} SentByExactly(acts: seq<Action>, c: Conn, id: Id, to: Id, data: string, k: nat)
    requires k <= |acts|
    ensures multiset(SentBy(acts, c, id))[Signal(id, to, data)] == multiset(acts)[Local(c, Read(to, data))]
    ensures forall m :: m in SentBy(acts, c, id) ==> m.Signal? && m.from == id
    ensures SentBy(acts[..k], c, id) <= SentBy(acts, c, id)
  {
    if acts != [] {
      SentByExactly(acts[1..], c, id, to, data, 0);
      assert acts == [acts[0]] + acts[1..];
    }
    SentByPrefix(acts, c, id, k);
  }

  /** A run of the whole server, as the list of its actions. */
  ghost predicate Run(cap: nat, s: State, acts: seq<Action>, t: State)
    decreases |acts|
  {
    if acts == [] then t == s
    else Enabled(cap, s, acts[0]) && Run(cap, Step(cap, s, acts[0]), acts[1..], t)
  }

  ghost predicate Reaches(cap: nat, s: State, t: State) {
    exists acts :: Run(cap, s, acts, t)
  }

  ghost predicate Reachable(cap: nat, s: State) {
    Reaches(cap, INIT, s)
  }

  lemma {:induction false} RunConcat(cap: nat, s: State, a: seq<Action>, t: State, b: seq<Action>, u: State)
    requires Run(cap, s, a, t) && Run(cap, t, b, u)
    ensures Run(cap, s, a + b, u)
    decreases |a|
  {
    if a == [] {
      assert a + b == b;
    } else {
      assert (a + b)[1..] == a[1..] + b;
      RunConcat(cap, Step(cap, s, a[0]), a[1..], t, b, u);
    }
  }

  lemma ReachesTrans(cap: nat, s: State, t: State, u: State)
    requires Reaches(cap, s, t) && Reaches(cap, t, u)
    ensures Reaches(cap, s, u)
  {
    var a :| Run(cap, s, a, t);
    var b :| Run(cap, t, b, u);
    RunConcat(cap, s, a, t, b, u);
  }

  lemma ReachesRefl(cap: nat, s: State)
    ensures Reaches(cap, s, s)
  {
    assert Run(cap, s, [], s);
  }

  lemma ReachesStep(cap: nat, s: State, a: Action)
    requires Enabled(cap, s, a)
    ensures Reaches(cap, s, Step(cap, s, a))
  {
    assert Run(cap, Step(cap, s, a), [a][1..], Step(cap, s, a));
    assert Run(cap, s, [a], Step(cap, s, a));
  }

  lemma ReachableStep(cap: nat, s: State, a: Action)
    requires Reachable(cap, s) && Enabled(cap, s, a)
    ensures Reachable(cap, Step(cap, s, a))
  {
    ReachesStep(cap, s, a);
    ReachesTrans(cap, INIT, s, Step(cap, s, a));
  }
}
