/** The inductive invariant of the server, and its preservation by every action. */
module HubInvariant {
  import opened Messages
  import opened Replica
  import opened HubLog
  import opened HubSystem

  // ---------- The invariant ----------

  /** Messages offered to the channel and not yet processed by the client, oldest first. */
  function Undelivered(l: Link): seq<Message> {
    l.wire + l.inflight + l.queue
  }

  function Handed(l: Link): nat {
    (if l.writer.WDone? then 1 else 0) + (if l.reader.RDone? then 1 else 0)
  }

  /** A message is dropped only behind at least cap earlier ones that were kept. */
  predicate DropsWhenFull(cap: nat, a: seq<Attempt>) {
    a == [] || (DropsWhenFull(cap, Front(a)) && (!Last(a).ok ==> |Enqueued(Front(a))| >= cap))
  }

  /** What holds of one connection by itself. */
  ghost predicate LinkOk(cap: nat, l: Link) {
    && l.delivered + Undelivered(l) == Enqueued(l.attempts)
    && l.view == Replay({}, l.delivered)
    && |l.queue| <= cap
    && DropsWhenFull(cap, l.attempts)
    && (l.writer.WIdle? <==> l.phase.Dialing? || l.phase.Spawning?)
    && (l.reader.RIdle? <==> l.phase.Dialing? || l.phase.Spawning?)
    && Handed(l) == (if l.phase.Unregistering? || l.phase.Returned? then 1 else 0)
    && (l.closed ==> l.phase.Returned?)
    && (l.writer.WIdle? || l.writer.WSelect? ==> l.inflight == [])
    && (l.writer.WWriting? ==> |l.inflight| == 1)
    && |l.inflight| <= 1
    && (l.reader.RSubmitting? ==> l.reader.msg.Signal? && l.reader.msg.from == l.id)
  }

  /** The message the hub has in hand for connection c during event k. */
  function Owed(hub: Place, peers: Roster, k: nat, c: Conn, id: Id): seq<Note> {
    match hub
    case SendingId(n, x) => if n != c && Holds(peers, id, c) then [Note(k, Joined(x))] else []
    case SendingList(n, x) => if n != c && Holds(peers, id, c) then [Note(k, Joined(x))] else []
    case Looping(msg, pending) => if id in pending && Holds(peers, id, c) then [Note(k, msg)] else []
    case SendingError(n, msg) => if n == c then [Note(k, msg)] else []
    case _ => []
  }

  ghost predicate NoReg(log: seq<Event>, c: Conn) {
    forall i :: 0 <= i < |log| ==> !(log[i].Reg? && log[i].c == c)
  }

  /** The channel's history opens with the two welcome messages, both sent during the
      connection's one registration; the list names the other members at that moment. */
  ghost predicate Welcomed(log: seq<Event>, c: Conn, id: Id, a: seq<Attempt>) {
    && |a| >= 2
    && var k := a[0].at;
    && k < |log| && log[k] == Reg(c, id) && RegisteredOnlyAt(log, c, k)
    && a[0] == Attempt(k, Registered(id), true)
    && a[1].at == k && a[1].ok && a[1].msg.PeerList?
    && IsListing(a[1].msg.ids, Members(log[..k]).Keys - {id})
  }

  /** After the welcome, the channel's history and the message in hand are what the log demands. */
  ghost predicate SettledOk(owed: seq<Note>, log: seq<Event>, c: Conn, l: Link) {
    && Welcomed(log, c, l.id, l.attempts)
    && Notes(l.attempts[2..]) + owed == Tail(log, c, l.id)
  }

  /** The channel's history is what the log of events demands, up to the message in hand. */
  ghost predicate HistoryOk(hub: Place, peers: Roster, log: seq<Event>, c: Conn, l: Link) {
    && l.submitted == Posts(log, c)
    && if l.phase.Dialing? then
         l.attempts == [] && NoReg(log, c) && Tail(log, c, l.id) == []
       else if hub == SendingId(c, l.id) then
         && l.attempts == [] && Tail(log, c, l.id) == []
         && log != [] && Last(log) == Reg(c, l.id) && RegisteredOnlyAt(log, c, |log| - 1)
       else if hub == SendingList(c, l.id) then
         && Tail(log, c, l.id) == []
         && log != [] && Last(log) == Reg(c, l.id) && RegisteredOnlyAt(log, c, |log| - 1)
         && l.attempts == [Attempt(|log| - 1, Registered(l.id), true)]
       else log != [] && SettledOk(Owed(hub, peers, |log| - 1, c, l.id), log, c, l)
  }

  ghost predicate EventOk(links: map<Conn, Link>, e: Event) {
    && e.c in links
    && match e
       case Reg(c, id) => id == links[c].id
       case Unreg(c, id) => id == links[c].id
       case Post(c, msg) => msg.Signal? && msg.from == links[c].id
  }

  ghost predicate PlaceOk(s: State) {
    match s.hub
    case AtSelect => true
    case SendingId(c, id) => c in s.links && s.links[c].id == id && Holds(s.peers, id, c) && s.log != []
    case SendingList(c, id) => c in s.links && s.links[c].id == id && Holds(s.peers, id, c) && s.log != []
    case Looping(msg, pending) => pending <= s.peers.Keys && s.log != [] && !msg.PeerList? && !msg.Registered?
    case SendingError(c, msg) =>
      c in s.links && Holds(s.peers, s.links[c].id, c) && s.log != [] && msg.PeerNotFound?
    case Panicked => false
  }

  /** Entries of the hub's map are open connections stored under their own ID. */
  ghost predicate RosterOk(s: State) {
    forall x :: x in s.peers ==>
      && s.peers[x] in s.links
      && s.links[s.peers[x]].id == x
      && !s.links[s.peers[x]].closed
      && !s.links[s.peers[x]].phase.Dialing?
      && !s.links[s.peers[x]].phase.Returned?
  }

  ghost predicate StateOk(s: State) {
    && s.peers == Members(s.log)
    && RosterOk(s)
    && PlaceOk(s)
    && forall i :: 0 <= i < |s.log| ==> EventOk(s.links, s.log[i])
  }

  ghost predicate LinksOk(cap: nat, s: State) {
    forall c :: c in s.links ==> LinkOk(cap, s.links[c])
  }

  ghost predicate HistoriesOk(s: State) {
    forall c :: c in s.links ==> HistoryOk(s.hub, s.peers, s.log, c, s.links[c])
  }

  ghost predicate Inv(cap: nat, s: State) {
    StateOk(s) && LinksOk(cap, s) && HistoriesOk(s)
  }

  // ---------- Lemmas about one connection ----------

  lemma {:induction false} ReplaySnoc(v: View, ms: seq<Message>, m: Message)
    ensures Replay(v, ms + [m]) == ApplyView(Replay(v, ms), m)
  {
    assert Front(ms + [m]) == ms;
  }

  lemma LocalKeepsLink(cap: nat, l: Link, a: LocalAction)
    requires LinkOk(cap, l) && LocalEnabled(l, a)
    ensures LinkOk(cap, LocalStep(l, a))
  {
    match a
    case Take => TakeKeeps(cap, l);
    case WriteOk => WriteKeeps(cap, l);
    case Process => ProcessKeeps(cap, l);
    case _ => assert Undelivered(LocalStep(l, a)) == Undelivered(l);
  }

  lemma TakeKeeps(cap: nat, l: Link)
    requires LinkOk(cap, l) && LocalEnabled(l, Take)
    ensures LinkOk(cap, LocalStep(l, Take))
  {
    TakeMoves(l.wire, l.queue);
    assert Undelivered(LocalStep(l, Take)) == Undelivered(l);
  }

  lemma WriteKeeps(cap: nat, l: Link)
    requires LinkOk(cap, l) && LocalEnabled(l, WriteOk)
    ensures LinkOk(cap, LocalStep(l, WriteOk))
  {
    assert Undelivered(LocalStep(l, WriteOk)) == Undelivered(l);
  }

  lemma ProcessKeeps(cap: nat, l: Link)
    requires LinkOk(cap, l) && LocalEnabled(l, Process)
    ensures LinkOk(cap, LocalStep(l, Process))
  {
    ReplaySnoc({}, l.delivered, l.wire[0]);
    ProcessMoves(l.delivered, l.wire, l.inflight + l.queue);
    ConcatAssoc(l.wire, l.inflight, l.queue);
    ConcatAssoc(l.wire[1..], l.inflight, l.queue);
  }

  lemma TakeMoves<T>(wire: seq<T>, queue: seq<T>)
    requires queue != []
    ensures wire + [queue[0]] + queue[1..] == wire + [] + queue
  {
  }

  lemma ProcessMoves<T>(delivered: seq<T>, wire: seq<T>, rest: seq<T>)
    requires wire != []
    ensures (delivered + [wire[0]]) + (wire[1..] + rest) == delivered + (wire + rest)
  {
  }

  lemma PushKeepsLink(cap: nat, l: Link, k: nat, msg: Message)
    requires LinkOk(cap, l)
    ensures LinkOk(cap, Push(cap, l, k, msg))
  {
    var t := Push(cap, l, k, msg);
    var x := Attempt(k, msg, |l.queue| < cap);
    assert Front(t.attempts) == l.attempts && Last(t.attempts) == x;
    if x.ok {
      assert Undelivered(t) == Undelivered(l) + [msg];
      assert t.delivered + Undelivered(t) == (l.delivered + Undelivered(l)) + [msg];
    } else {
      assert Enqueued(t.attempts) == Enqueued(l.attempts);
      assert |l.queue| <= |Undelivered(l)| <= |l.delivered + Undelivered(l)|;
    }
  }

  /** While a connection is being welcomed its channel has room. */
  lemma WelcomeHasRoom(cap: nat, l: Link)
    requires cap >= 2 && LinkOk(cap, l) && |l.attempts| <= 1
    ensures |l.queue| < cap
  {
    EnqueuedSize(l.attempts);
    assert |Undelivered(l)| <= |l.delivered + Undelivered(l)|;
  }

  lemma {:induction false} EnqueuedSize(a: seq<Attempt>)
    ensures |Enqueued(a)| <= |a|
  {
    if a != [] { EnqueuedSize(Front(a)); }
  }

  // ---------- The log grows by one event ----------

  lemma PostsSnoc(log: seq<Event>, e: Event, c: Conn)
    ensures Posts(log + [e], c) == Posts(log, c) + (if e.Post? && e.c == c then [e.msg] else [])
  {
    assert Front(log + [e]) == log;
  }

  lemma MembersSnoc(log: seq<Event>, e: Event)
    ensures Members(log + [e]) == After(Members(log), e)
  {
    assert Front(log + [e]) == log;
  }

  lemma TailSnoc(log: seq<Event>, e: Event, c: Conn, id: Id)
    ensures Tail(log + [e], c, id) == Tail(log, c, id) + Hears(Members(log), e, |log|, c, id)
  {
    assert Front(log + [e]) == log;
  }

  lemma WelcomedGrows(log: seq<Event>, e: Event, c: Conn, id: Id, a: seq<Attempt>)
    requires Welcomed(log, c, id, a) && !(e.Reg? && e.c == c)
    ensures Welcomed(log + [e], c, id, a)
  {
    var k := a[0].at;
    assert (log + [e])[..k] == log[..k];
    assert RegisteredOnlyAt(log + [e], c, k);
  }

  /** A settled connection: the new event puts in the hub's hand exactly what it must hear. */
  lemma SettledGrows(peers: Roster, log: seq<Event>, c: Conn, l: Link, e: Event, hub: Place, l': Link)
    requires HistoryOk(AtSelect, peers, log, c, l) && !l.phase.Dialing? && peers == Members(log)
    requires !(e.Reg? && e.c == c)
    requires l'.id == l.id && l'.attempts == l.attempts && !l'.phase.Dialing?
    requires l'.submitted == l.submitted + (if e.Post? && e.c == c then [e.msg] else [])
    requires hub != SendingId(c, l.id) && hub != SendingList(c, l.id)
    requires Owed(hub, After(peers, e), |log|, c, l.id) == Hears(peers, e, |log|, c, l.id)
    ensures HistoryOk(hub, After(peers, e), log + [e], c, l')
  {
    PostsSnoc(log, e, c);
    assert SettledOk([], log, c, l);
    SettledHears(log, c, l, e, l');
  }

  lemma SettledHears(log: seq<Event>, c: Conn, l: Link, e: Event, l': Link)
    requires SettledOk([], log, c, l) && !(e.Reg? && e.c == c)
    requires l'.id == l.id && l'.attempts == l.attempts
    ensures SettledOk(Hears(Members(log), e, |log|, c, l.id), log + [e], c, l')
  {
    TailSnoc(log, e, c, l.id);
    WelcomedGrows(log, e, c, l.id, l.attempts);
    assert Notes(l.attempts[2..]) + [] == Notes(l.attempts[2..]);
  }

  /** A connection that has not registered yet is owed nothing by any other's event. */
  lemma DialingGrows(peers: Roster, log: seq<Event>, c: Conn, l: Link, e: Event, hub: Place)
    requires HistoryOk(AtSelect, peers, log, c, l) && l.phase.Dialing? && peers == Members(log)
    requires e.c != c && !Holds(peers, l.id, c)
    requires e.Post? && e.msg.Signal? && e.msg.to in peers ==> peers[e.msg.to] != c
    requires e.Post? && e.msg.Signal? && e.msg.from in peers ==> peers[e.msg.from] != c
    ensures HistoryOk(hub, After(peers, e), log + [e], c, l)
  {
    PostsSnoc(log, e, c);
    TailSnoc(log, e, c, l.id);
    assert Hears(peers, e, |log|, c, l.id) == [];
    assert NoReg(log + [e], c);
  }

  /** Delivering the message in hand. */
  lemma PushSettles(cap: nat, hub: Place, peers: Roster, log: seq<Event>, c: Conn, l: Link, msg: Message, hub': Place)
    requires HistoryOk(hub, peers, log, c, l) && !l.phase.Dialing? && log != []
    requires hub != SendingId(c, l.id) && hub != SendingList(c, l.id)
    requires hub' != SendingId(c, l.id) && hub' != SendingList(c, l.id)
    requires Owed(hub, peers, |log| - 1, c, l.id) == [Note(|log| - 1, msg)]
    requires Owed(hub', peers, |log| - 1, c, l.id) == []
    ensures HistoryOk(hub', peers, log, c, Push(cap, l, |log| - 1, msg))
  {
    assert SettledOk([Note(|log| - 1, msg)], log, c, l);
    SettledPush(cap, log, c, l, |log| - 1, msg);
  }

  lemma SettledPush(cap: nat, log: seq<Event>, c: Conn, l: Link, k: nat, msg: Message)
    requires SettledOk([Note(k, msg)], log, c, l)
    ensures SettledOk([], log, c, Push(cap, l, k, msg))
  {
    var t := Push(cap, l, k, msg);
    assert t.attempts[2..] == l.attempts[2..] + [Attempt(k, msg, |l.queue| < cap)];
    assert Notes(t.attempts[2..]) == Notes(l.attempts[2..]) + [Note(k, msg)];
    assert Notes(t.attempts[2..]) + [] == Notes(t.attempts[2..]);
  }

  /** A step of the hub that concerns others. */
  lemma HistoryStays(hub: Place, peers: Roster, log: seq<Event>, c: Conn, l: Link, hub': Place)
    requires HistoryOk(hub, peers, log, c, l) && log != []
    requires hub != SendingId(c, l.id) && hub != SendingList(c, l.id)
    requires hub' != SendingId(c, l.id) && hub' != SendingList(c, l.id)
    requires Owed(hub', peers, |log| - 1, c, l.id) == Owed(hub, peers, |log| - 1, c, l.id)
    ensures HistoryOk(hub', peers, log, c, l)
  {
  }

  // ---------- Preservation, action by action ----------

  /** A link keeps its place in the roster. */
  predicate SameStanding(l: Link, l': Link) {
    && l'.id == l.id && l'.closed == l.closed
    && l'.phase.Dialing? == l.phase.Dialing?
    && l'.phase.Returned? == l.phase.Returned?
  }

  lemma PutState(s: State, c: Conn, l: Link, hub: Place)
    requires StateOk(s) && c in s.links && SameStanding(s.links[c], l)
    requires PlaceOk(Put(s, c, l).(hub := hub))
    ensures StateOk(Put(s, c, l).(hub := hub))
  {
    var t := Put(s, c, l).(hub := hub);
    forall i | 0 <= i < |t.log|
      ensures EventOk(t.links, t.log[i])
    {
      assert EventOk(s.links, s.log[i]);
    }
  }

  lemma PutLinks(cap: nat, s: State, c: Conn, l: Link, t: State)
    requires LinksOk(cap, s) && LinkOk(cap, l) && t.links == s.links[c := l]
    ensures LinksOk(cap, t)
  {
  }

  lemma LocalStanding(cap: nat, l: Link, act: LocalAction)
    requires LinkOk(cap, l) && LocalEnabled(l, act)
    ensures SameStanding(l, LocalStep(l, act))
    ensures LocalStep(l, act).attempts == l.attempts && LocalStep(l, act).submitted == l.submitted
  {
  }

  lemma LocalKeeps(cap: nat, s: State, c: Conn, act: LocalAction)
    requires Inv(cap, s) && Enabled(cap, s, Local(c, act))
    ensures Inv(cap, Step(cap, s, Local(c, act)))
  {
    var l := s.links[c];
    var l' := LocalStep(l, act);
    LocalKeepsLink(cap, l, act);
    LocalStanding(cap, l, act);
    LocalPlace(s, c, l');
    PutState(s, c, l', s.hub);
    PutLinks(cap, s, c, l', Put(s, c, l'));
    LocalHistories(s, c, l');
  }

  lemma LocalPlace(s: State, c: Conn, l: Link)
    requires PlaceOk(s) && c in s.links && l.id == s.links[c].id
    ensures PlaceOk(Put(s, c, l))
  {
  }

  lemma LocalHistories(s: State, c: Conn, l: Link)
    requires HistoriesOk(s) && c in s.links && SameStanding(s.links[c], l)
    requires l.attempts == s.links[c].attempts && l.submitted == s.links[c].submitted
    ensures HistoriesOk(Put(s, c, l))
  {
    var t := Put(s, c, l);
    forall d | d in t.links
      ensures HistoryOk(t.hub, t.peers, t.log, d, t.links[d])
    {
      assert HistoryOk(s.hub, s.peers, s.log, d, s.links[d]);
    }
  }

  lemma DialKeeps(cap: nat, s: State, c: Conn, id: Id)
    requires Inv(cap, s) && Enabled(cap, s, Dial(c, id))
    ensures Inv(cap, Step(cap, s, Dial(c, id)))
  {
    var t := Step(cap, s, Dial(c, id));
    DialState(s, c, id);
    DialHistories(s, c, id);
    NewLinkOk(cap, id);
    PutLinks(cap, s, c, NewLink(id), t);
  }

  lemma NewLinkOk(cap: nat, id: Id)
    ensures LinkOk(cap, NewLink(id))
  {
  }

  lemma DialState(s: State, c: Conn, id: Id)
    requires StateOk(s) && c !in s.links
    ensures StateOk(Put(s, c, NewLink(id)))
  {
    forall i | 0 <= i < |s.log|
      ensures EventOk(Put(s, c, NewLink(id)).links, s.log[i])
    {
      assert EventOk(s.links, s.log[i]);
    }
  }

  lemma DialHistories(s: State, c: Conn, id: Id)
    requires StateOk(s) && HistoriesOk(s) && c !in s.links
    ensures HistoriesOk(Put(s, c, NewLink(id)))
  {
    DialHistory(s, c, id);
  }

  lemma DialHistory(s: State, c: Conn, id: Id)
    requires StateOk(s) && c !in s.links
    ensures HistoryOk(s.hub, s.peers, s.log, c, NewLink(id))
  {
    forall i | 0 <= i < |s.log|
      ensures s.log[i].c != c
    {
      assert EventOk(s.links, s.log[i]);
    }
    NeverRegistered(s.log, c, id);
    NeverPosted(s.log, c);
  }

  lemma {:induction false} NeverPosted(log: seq<Event>, c: Conn)
    requires forall i :: 0 <= i < |log| ==> log[i].c != c
    ensures Posts(log, c) == []
  {
    if log != [] {
      assert forall i :: 0 <= i < |Front(log)| ==> Front(log)[i] == log[i];
      NeverPosted(Front(log), c);
    }
  }

  /** The log and the roster after an event, once the links are known to agree with it. */
  lemma EventState(s: State, t: State, e: Event)
    requires StateOk(s)
    requires t.log == s.log + [e] && t.peers == After(s.peers, e)
    requires forall c :: c in s.links ==> c in t.links && t.links[c].id == s.links[c].id
    requires EventOk(t.links, e) && RosterOk(t) && PlaceOk(t)
    ensures StateOk(t)
  {
    MembersSnoc(s.log, e);
    forall i | 0 <= i < |t.log|
      ensures EventOk(t.links, t.log[i])
    {
      if i < |s.log| {
        assert EventOk(s.links, s.log[i]);
      }
    }
  }

  lemma RegisterKeeps(cap: nat, s: State, c: Conn)
    requires Inv(cap, s) && Enabled(cap, s, Register(c))
    ensures Inv(cap, Step(cap, s, Register(c)))
  {
    RegisterLinks(cap, s, c);
    RegisterState(cap, s, c);
    RegisterHistories(cap, s, c);
  }

  lemma RegisterState(cap: nat, s: State, c: Conn)
    requires StateOk(s) && Enabled(cap, s, Register(c)) && !s.links[c].closed
    ensures StateOk(Step(cap, s, Register(c)))
  {
    EventState(s, Step(cap, s, Register(c)), Reg(c, s.links[c].id));
  }

  lemma RegisterLinks(cap: nat, s: State, c: Conn)
    requires LinksOk(cap, s) && Enabled(cap, s, Register(c))
    ensures LinksOk(cap, Step(cap, s, Register(c))) && !s.links[c].closed
  {
    var t := Step(cap, s, Register(c));
    assert LinkOk(cap, s.links[c]);
    assert Undelivered(t.links[c]) == Undelivered(s.links[c]);
    PutLinks(cap, s, c, t.links[c], t);
  }

  lemma RegisterHistories(cap: nat, s: State, c: Conn)
    requires StateOk(s) && HistoriesOk(s) && Enabled(cap, s, Register(c))
    ensures HistoriesOk(Step(cap, s, Register(c)))
  {
    var t := Step(cap, s, Register(c));
    forall d | d in t.links
      ensures HistoryOk(t.hub, t.peers, t.log, d, t.links[d])
    {
      assert HistoryOk(s.hub, s.peers, s.log, d, s.links[d]);
      RegisterHistory(cap, s, c, d);
    }
  }

  lemma RegisterHistory(cap: nat, s: State, c: Conn, d: Conn)
    requires StateOk(s) && Enabled(cap, s, Register(c)) && d in s.links
    requires HistoryOk(s.hub, s.peers, s.log, d, s.links[d])
    ensures var t := Step(cap, s, Register(c)); HistoryOk(t.hub, t.peers, t.log, d, t.links[d])
  {
    var t := Step(cap, s, Register(c));
    var l := s.links[c];
    var e := Reg(c, l.id);
    if d == c {
      PostsSnoc(s.log, e, c);
      TailSnoc(s.log, e, c, l.id);
      assert RegisteredOnlyAt(t.log, c, |t.log| - 1);
    } else if s.links[d].phase.Dialing? {
      DialingGrows(s.peers, s.log, d, s.links[d], e, t.hub);
    } else {
      SettledGrows(s.peers, s.log, d, s.links[d], e, t.hub, s.links[d]);
    }
  }

  lemma UnregisterKeeps(cap: nat, s: State, c: Conn)
    requires Inv(cap, s) && Enabled(cap, s, Unregister(c))
    ensures Inv(cap, Step(cap, s, Unregister(c)))
  {
    UnregisterLinks(cap, s, c);
    UnregisterState(cap, s, c);
    UnregisterHistories(cap, s, c);
  }

  lemma UnregisterState(cap: nat, s: State, c: Conn)
    requires StateOk(s) && Enabled(cap, s, Unregister(c)) && !s.links[c].closed
    ensures StateOk(Step(cap, s, Unregister(c)))
  {
    UnregisterRoster(cap, s, c);
    EventState(s, Step(cap, s, Unregister(c)), Unreg(c, s.links[c].id));
  }

  lemma UnregisterLinks(cap: nat, s: State, c: Conn)
    requires LinksOk(cap, s) && Enabled(cap, s, Unregister(c))
    ensures LinksOk(cap, Step(cap, s, Unregister(c))) && !s.links[c].closed
  {
    var t := Step(cap, s, Unregister(c));
    assert LinkOk(cap, s.links[c]);
    assert Undelivered(t.links[c]) == Undelivered(s.links[c]);
    PutLinks(cap, s, c, t.links[c], t);
  }

  lemma UnregisterHistories(cap: nat, s: State, c: Conn)
    requires StateOk(s) && HistoriesOk(s) && Enabled(cap, s, Unregister(c)) && !s.links[c].closed
    ensures HistoriesOk(Step(cap, s, Unregister(c)))
  {
    var t := Step(cap, s, Unregister(c));
    forall d | d in t.links
      ensures HistoryOk(t.hub, t.peers, t.log, d, t.links[d])
    {
      assert HistoryOk(s.hub, s.peers, s.log, d, s.links[d]);
      UnregisterHistory(cap, s, c, d);
    }
  }

  lemma UnregisterRoster(cap: nat, s: State, c: Conn)
    requires StateOk(s) && Enabled(cap, s, Unregister(c)) && !s.links[c].closed
    ensures RosterOk(Step(cap, s, Unregister(c)))
  {
  }

  lemma UnregisterHistory(cap: nat, s: State, c: Conn, d: Conn)
    requires StateOk(s) && Enabled(cap, s, Unregister(c)) && !s.links[c].closed && d in s.links
    requires HistoryOk(s.hub, s.peers, s.log, d, s.links[d])
    ensures var t := Step(cap, s, Unregister(c)); HistoryOk(t.hub, t.peers, t.log, d, t.links[d])
  {
    var t := Step(cap, s, Unregister(c));
    var e := Unreg(c, s.links[c].id);
    if s.links[d].phase.Dialing? {
      DialingGrows(s.peers, s.log, d, s.links[d], e, t.hub);
    } else {
      SettledGrows(s.peers, s.log, d, s.links[d], e, t.hub, t.links[d]);
    }
  }

  lemma SubmitKeeps(cap: nat, s: State, c: Conn)
    requires Inv(cap, s) && Enabled(cap, s, Submit(c))
    ensures Inv(cap, Step(cap, s, Submit(c)))
  {
    SubmitLinks(cap, s, c);
    SubmitState(cap, s, c);
    SubmitHistories(cap, s, c);
  }

  lemma SubmitState(cap: nat, s: State, c: Conn)
    requires StateOk(s) && Enabled(cap, s, Submit(c)) && LinkOk(cap, s.links[c])
    ensures StateOk(Step(cap, s, Submit(c)))
  {
    EventState(s, Step(cap, s, Submit(c)), Post(c, s.links[c].reader.msg));
  }

  lemma SubmitLinks(cap: nat, s: State, c: Conn)
    requires LinksOk(cap, s) && Enabled(cap, s, Submit(c))
    ensures LinksOk(cap, Step(cap, s, Submit(c))) && LinkOk(cap, s.links[c])
  {
    var t := Step(cap, s, Submit(c));
    assert LinkOk(cap, s.links[c]);
    assert Undelivered(t.links[c]) == Undelivered(s.links[c]);
    PutLinks(cap, s, c, t.links[c], t);
  }

  lemma SubmitHistories(cap: nat, s: State, c: Conn)
    requires StateOk(s) && HistoriesOk(s) && Enabled(cap, s, Submit(c))
    requires s.links[c].reader.msg.Signal? && !s.links[c].phase.Dialing?
    ensures HistoriesOk(Step(cap, s, Submit(c)))
  {
    var t := Step(cap, s, Submit(c));
    forall d | d in t.links
      ensures HistoryOk(t.hub, t.peers, t.log, d, t.links[d])
    {
      assert HistoryOk(s.hub, s.peers, s.log, d, s.links[d]);
      SubmitHistory(cap, s, c, d);
    }
  }

  lemma RouteOwes(peers: Roster, c: Conn, msg: Message, k: nat, d: Conn, id: Id)
    requires forall x :: x in peers && peers[x] == d ==> x == id
    requires msg.Signal?
    ensures Owed(Route(peers, msg), peers, k, d, id) == Hears(peers, Post(c, msg), k, d, id)
  {
  }

  lemma SubmitHistory(cap: nat, s: State, c: Conn, d: Conn)
    requires StateOk(s) && Enabled(cap, s, Submit(c)) && d in s.links
    requires s.links[c].reader.msg.Signal? && !s.links[c].phase.Dialing?
    requires HistoryOk(s.hub, s.peers, s.log, d, s.links[d])
    ensures var t := Step(cap, s, Submit(c)); HistoryOk(t.hub, t.peers, t.log, d, t.links[d])
  {
    if s.links[d].phase.Dialing? {
      SubmitDialing(cap, s, c, d);
    } else {
      SubmitSettled(cap, s, c, d);
    }
  }

  lemma SubmitDialing(cap: nat, s: State, c: Conn, d: Conn)
    requires StateOk(s) && Enabled(cap, s, Submit(c)) && d in s.links && c != d
    requires s.links[c].reader.msg.Signal? && s.links[d].phase.Dialing?
    requires HistoryOk(s.hub, s.peers, s.log, d, s.links[d])
    ensures var t := Step(cap, s, Submit(c)); HistoryOk(t.hub, t.peers, t.log, d, t.links[d])
  {
    DialingGrows(s.peers, s.log, d, s.links[d], Post(c, s.links[c].reader.msg), Step(cap, s, Submit(c)).hub);
  }

  lemma SubmitSettled(cap: nat, s: State, c: Conn, d: Conn)
    requires StateOk(s) && Enabled(cap, s, Submit(c)) && d in s.links
    requires s.links[c].reader.msg.Signal? && !s.links[d].phase.Dialing?
    requires HistoryOk(s.hub, s.peers, s.log, d, s.links[d])
    ensures var t := Step(cap, s, Submit(c)); HistoryOk(t.hub, t.peers, t.log, d, t.links[d])
  {
    var t := Step(cap, s, Submit(c));
    var msg := s.links[c].reader.msg;
    RouteOwes(s.peers, c, msg, |s.log|, d, s.links[d].id);
    SettledGrows(s.peers, s.log, d, s.links[d], Post(c, msg), t.hub, t.links[d]);
  }

  /** A send that leaves the place of the hub and the histories in order keeps the invariant. */
  lemma PushKeeps(cap: nat, s: State, c: Conn, msg: Message, t: State)
    requires StateOk(s) && LinksOk(cap, s) && c in s.links && s.log != []
    requires t == Put(s, c, Push(cap, s.links[c], |s.log| - 1, msg)).(hub := t.hub)
    requires PlaceOk(t) && HistoriesOk(t)
    ensures Inv(cap, t)
  {
    PushKeepsLink(cap, s.links[c], |s.log| - 1, msg);
    PutState(s, c, t.links[c], t.hub);
    PutLinks(cap, s, c, t.links[c], t);
  }

  lemma SendIdKeeps(cap: nat, s: State)
    requires Inv(cap, s) && Enabled(cap, s, SendId)
    ensures Inv(cap, Step(cap, s, SendId))
  {
    SendIdPlace(cap, s);
    SendIdHistories(cap, s);
    PushKeeps(cap, s, s.hub.c, Registered(s.hub.id), Step(cap, s, SendId));
  }

  lemma SendIdPlace(cap: nat, s: State)
    requires StateOk(s) && Enabled(cap, s, SendId)
    ensures s.hub.c in s.links && s.log != []
    ensures var t := Step(cap, s, SendId);
            PlaceOk(t) && t == Put(s, s.hub.c, Push(cap, s.links[s.hub.c], |s.log| - 1, Registered(s.hub.id))).(hub := t.hub)
  {
  }

  lemma SendIdHistories(cap: nat, s: State)
    requires StateOk(s) && HistoriesOk(s) && Enabled(cap, s, SendId)
    ensures HistoriesOk(Step(cap, s, SendId))
  {
    var t := Step(cap, s, SendId);
    forall d | d in t.links
      ensures HistoryOk(t.hub, t.peers, t.log, d, t.links[d])
    {
      assert HistoryOk(s.hub, s.peers, s.log, d, s.links[d]);
      SendIdHistory(cap, s, d);
    }
  }

  lemma SendIdHistory(cap: nat, s: State, d: Conn)
    requires StateOk(s) && Enabled(cap, s, SendId) && d in s.links
    requires HistoryOk(s.hub, s.peers, s.log, d, s.links[d])
    ensures var t := Step(cap, s, SendId); HistoryOk(t.hub, t.peers, t.log, d, t.links[d])
  {
  }

  lemma SendListKeeps(cap: nat, s: State, listing: seq<Id>)
    requires Inv(cap, s) && Enabled(cap, s, SendList(listing))
    ensures Inv(cap, Step(cap, s, SendList(listing)))
  {
    SendListPlace(cap, s, listing);
    SendListHistories(cap, s, listing);
    PushKeeps(cap, s, s.hub.c, PeerList(listing), Step(cap, s, SendList(listing)));
  }

  lemma SendListPlace(cap: nat, s: State, listing: seq<Id>)
    requires StateOk(s) && Enabled(cap, s, SendList(listing))
    ensures s.hub.c in s.links && s.log != []
    ensures var t := Step(cap, s, SendList(listing));
            PlaceOk(t) && t == Put(s, s.hub.c, Push(cap, s.links[s.hub.c], |s.log| - 1, PeerList(listing))).(hub := t.hub)
  {
  }

  lemma SendListHistories(cap: nat, s: State, listing: seq<Id>)
    requires StateOk(s) && HistoriesOk(s) && Enabled(cap, s, SendList(listing))
    ensures HistoriesOk(Step(cap, s, SendList(listing)))
  {
    var t := Step(cap, s, SendList(listing));
    forall d | d in t.links
      ensures HistoryOk(t.hub, t.peers, t.log, d, t.links[d])
    {
      assert HistoryOk(s.hub, s.peers, s.log, d, s.links[d]);
      SendListHistory(cap, s, listing, d);
    }
  }

  lemma SendListHistory(cap: nat, s: State, listing: seq<Id>, d: Conn)
    requires StateOk(s) && Enabled(cap, s, SendList(listing)) && d in s.links
    requires HistoryOk(s.hub, s.peers, s.log, d, s.links[d])
    ensures var t := Step(cap, s, SendList(listing)); HistoryOk(t.hub, t.peers, t.log, d, t.links[d])
  {
    var t := Step(cap, s, SendList(listing));
    var c, id := s.hub.c, s.hub.id;
    if d == c {
      assert s.peers.Keys - {id} == Members(Front(s.log)).Keys - {id};
      WelcomeComplete(s.log, c, s.links[c], listing, t.links[c]);
    } else {
      SendListOther(cap, s, listing, d);
    }
  }

  lemma SendListOther(cap: nat, s: State, listing: seq<Id>, d: Conn)
    requires StateOk(s) && Enabled(cap, s, SendList(listing)) && d in s.links && d != s.hub.c
    requires HistoryOk(s.hub, s.peers, s.log, d, s.links[d])
    ensures var t := Step(cap, s, SendList(listing)); HistoryOk(t.hub, t.peers, t.log, d, t.links[d])
  {
    var t := Step(cap, s, SendList(listing));
    HistoryStays(s.hub, s.peers, s.log, d, s.links[d], t.hub);
  }

  /** With the list the welcome is complete, and nothing else is owed yet. */
  lemma WelcomeComplete(log: seq<Event>, c: Conn, l: Link, listing: seq<Id>, l': Link)
    requires log != [] && Last(log) == Reg(c, l.id) && RegisteredOnlyAt(log, c, |log| - 1) && Tail(log, c, l.id) == []
    requires l.attempts == [Attempt(|log| - 1, Registered(l.id), true)]
    requires IsListing(listing, Members(Front(log)).Keys - {l.id})
    requires l'.id == l.id && l'.attempts == l.attempts + [Attempt(|log| - 1, PeerList(listing), true)]
    ensures SettledOk([], log, c, l')
  {
    assert log[..|log| - 1] == Front(log);
    assert l'.attempts[2..] == [];
  }

  lemma OfferKeeps(cap: nat, s: State, id: Id)
    requires Inv(cap, s) && Enabled(cap, s, OfferTo(id))
    ensures Inv(cap, Step(cap, s, OfferTo(id)))
  {
    OfferPlace(cap, s, id);
    OfferHistories(cap, s, id);
    PushKeeps(cap, s, s.peers[id], s.hub.msg, Step(cap, s, OfferTo(id)));
  }

  lemma OfferPlace(cap: nat, s: State, id: Id)
    requires StateOk(s) && Enabled(cap, s, OfferTo(id))
    ensures s.peers[id] in s.links && s.log != []
    ensures var t := Step(cap, s, OfferTo(id));
            PlaceOk(t) && t == Put(s, s.peers[id], Push(cap, s.links[s.peers[id]], |s.log| - 1, s.hub.msg)).(hub := t.hub)
  {
  }

  lemma OfferHistories(cap: nat, s: State, id: Id)
    requires StateOk(s) && HistoriesOk(s) && Enabled(cap, s, OfferTo(id))
    ensures HistoriesOk(Step(cap, s, OfferTo(id)))
  {
    var t := Step(cap, s, OfferTo(id));
    forall d | d in t.links
      ensures HistoryOk(t.hub, t.peers, t.log, d, t.links[d])
    {
      assert HistoryOk(s.hub, s.peers, s.log, d, s.links[d]);
      OfferHistory(cap, s, id, d);
    }
  }

  lemma OfferHistory(cap: nat, s: State, id: Id, d: Conn)
    requires StateOk(s) && Enabled(cap, s, OfferTo(id)) && d in s.links
    requires HistoryOk(s.hub, s.peers, s.log, d, s.links[d])
    ensures var t := Step(cap, s, OfferTo(id)); HistoryOk(t.hub, t.peers, t.log, d, t.links[d])
  {
    var t := Step(cap, s, OfferTo(id));
    if d == s.peers[id] {
      PushSettles(cap, s.hub, s.peers, s.log, d, s.links[d], s.hub.msg, t.hub);
    } else {
      HistoryStays(s.hub, s.peers, s.log, d, s.links[d], t.hub);
    }
  }

  lemma LoopEndKeeps(cap: nat, s: State)
    requires Inv(cap, s) && Enabled(cap, s, LoopEnd)
    ensures Inv(cap, Step(cap, s, LoopEnd))
  {
    var t := Step(cap, s, LoopEnd);
    assert StateOk(t);
    LoopEndHistories(cap, s);
  }

  lemma LoopEndHistories(cap: nat, s: State)
    requires HistoriesOk(s) && Enabled(cap, s, LoopEnd)
    ensures HistoriesOk(Step(cap, s, LoopEnd))
  {
    var t := Step(cap, s, LoopEnd);
    forall d | d in t.links
      ensures HistoryOk(t.hub, t.peers, t.log, d, t.links[d])
    {
      assert HistoryOk(s.hub, s.peers, s.log, d, s.links[d]);
    }
  }

  lemma SendErrorKeeps(cap: nat, s: State)
    requires Inv(cap, s) && Enabled(cap, s, SendError)
    ensures Inv(cap, Step(cap, s, SendError))
  {
    SendErrorPlace(cap, s);
    SendErrorHistories(cap, s);
    PushKeeps(cap, s, s.hub.c, s.hub.msg, Step(cap, s, SendError));
  }

  lemma SendErrorPlace(cap: nat, s: State)
    requires StateOk(s) && Enabled(cap, s, SendError)
    ensures s.hub.c in s.links && s.log != []
    ensures var t := Step(cap, s, SendError);
            PlaceOk(t) && t == Put(s, s.hub.c, Push(cap, s.links[s.hub.c], |s.log| - 1, s.hub.msg)).(hub := t.hub)
  {
  }

  lemma SendErrorHistories(cap: nat, s: State)
    requires StateOk(s) && HistoriesOk(s) && Enabled(cap, s, SendError)
    ensures HistoriesOk(Step(cap, s, SendError))
  {
    var t := Step(cap, s, SendError);
    forall d | d in t.links
      ensures HistoryOk(t.hub, t.peers, t.log, d, t.links[d])
    {
      assert HistoryOk(s.hub, s.peers, s.log, d, s.links[d]);
      SendErrorHistory(cap, s, d);
    }
  }

  lemma SendErrorHistory(cap: nat, s: State, d: Conn)
    requires StateOk(s) && Enabled(cap, s, SendError) && d in s.links
    requires HistoryOk(s.hub, s.peers, s.log, d, s.links[d])
    ensures var t := Step(cap, s, SendError); HistoryOk(t.hub, t.peers, t.log, d, t.links[d])
  {
    var t := Step(cap, s, SendError);
    if d == s.hub.c {
      PushSettles(cap, s.hub, s.peers, s.log, d, s.links[d], s.hub.msg, t.hub);
    } else {
      HistoryStays(s.hub, s.peers, s.log, d, s.links[d], t.hub);
    }
  }

  lemma StepKeeps(cap: nat, s: State, a: Action)
    requires Inv(cap, s) && Enabled(cap, s, a)
    ensures Inv(cap, Step(cap, s, a))
  {
    match a
    case Dial(c, id) => DialKeeps(cap, s, c, id);
    case Local(c, act) => LocalKeeps(cap, s, c, act);
    case Register(c) => RegisterKeeps(cap, s, c);
    case SendId => SendIdKeeps(cap, s);
    case SendList(listing) => SendListKeeps(cap, s, listing);
    case OfferTo(id) => OfferKeeps(cap, s, id);
    case LoopEnd => LoopEndKeeps(cap, s);
    case SendError => SendErrorKeeps(cap, s);
    case Unregister(c) => UnregisterKeeps(cap, s, c);
    case Submit(c) => SubmitKeeps(cap, s, c);
  }

  lemma {:induction false} RunKeeps(cap: nat, s: State, acts: seq<Action>, t: State)
    requires Inv(cap, s) && Run(cap, s, acts, t)
    ensures Inv(cap, t)
    decreases |acts|
  {
    if acts != [] {
      StepKeeps(cap, s, acts[0]);
      RunKeeps(cap, Step(cap, s, acts[0]), acts[1..], t);
    }
  }

  /** Every reachable state satisfies the invariant. */
  lemma ReachableInv(cap: nat, s: State)
    requires Reachable(cap, s)
    ensures Inv(cap, s)
  {
    var acts :| Run(cap, INIT, acts, s);
    RunKeeps(cap, INIT, acts, s);
  }
}
