/** When the hub can move, when it is stuck, and what one handler does when it runs undisturbed. */
module HubProgress {
  import opened Messages
  import opened Replica
  import opened HubLog
  import opened HubSystem
  import opened HubInvariant
  import opened HubTheorems

  // ---------- Broadcast loops ----------

  /** A targeted member has had one send attempt; anyone else is untouched. */
  function PushedOne(cap: nat, s: State, k: nat, msg: Message, targets: set<Id>, c: Conn): Link
    requires c in s.links
  {
    if s.links[c].id in targets && Holds(s.peers, s.links[c].id, c) then Push(cap, s.links[c], k, msg)
    else s.links[c]
  }

  function PushedAll(cap: nat, s: State, k: nat, msg: Message, targets: set<Id>): map<Conn, Link> {
    map c | c in s.links :: PushedOne(cap, s, k, msg, targets, c)
  }

  function Offers(order: seq<Id>): seq<Action> {
    seq(|order|, i requires 0 <= i < |order| => OfferTo(order[i]))
  }

  /** A loop over the hub's map has the same result in whatever order the map is traversed. */
  lemma {:induction false} LoopRun(cap: nat, s: State, order: seq<Id>)
    requires StateOk(s) && s.hub.Looping? && IsListing(order, s.hub.pending)
    ensures Run(cap, s, Offers(order) + [LoopEnd],
                s.(hub := AtSelect, links := PushedAll(cap, s, |s.log| - 1, s.hub.msg, s.hub.pending)))
    decreases |order|
  {
    if order == [] {
      LoopDone(cap, s);
      assert Offers(order) + [LoopEnd] == [LoopEnd];
    } else {
      var x := order[0];
      assert x in order;
      LoopStep(cap, s, x);
      ListingTail(order, s.hub.pending);
      LoopRun(cap, Step(cap, s, OfferTo(x)), order[1..]);
      OffersSplit(order);
    }
  }

  lemma OffersSplit(order: seq<Id>)
    requires order != []
    ensures (Offers(order) + [LoopEnd])[0] == OfferTo(order[0])
    ensures (Offers(order) + [LoopEnd])[1..] == Offers(order[1..]) + [LoopEnd]
  {
  }

  lemma LoopDone(cap: nat, s: State)
    requires s.hub.Looping? && IsListing([], s.hub.pending)
    ensures Run(cap, s, [LoopEnd], s.(hub := AtSelect, links := PushedAll(cap, s, if s.log == [] then 0 else |s.log| - 1, s.hub.msg, s.hub.pending)))
  {
    assert s.hub.pending == {} by {
      forall x ensures x !in s.hub.pending { assert x in [] <==> x in s.hub.pending; }
    }
    var t := s.(hub := AtSelect);
    assert PushedAll(cap, s, if s.log == [] then 0 else |s.log| - 1, s.hub.msg, s.hub.pending) == s.links;
    assert Run(cap, t, [LoopEnd][1..], t);
  }

  lemma ListingTail(order: seq<Id>, pending: set<Id>)
    requires order != [] && IsListing(order, pending)
    ensures IsListing(order[1..], pending - {order[0]})
  {
    forall x
      ensures x in order[1..] <==> x in pending - {order[0]}
    {
      assert x in order <==> x == order[0] || x in order[1..];
    }
  }

  lemma LoopStep(cap: nat, s: State, x: Id)
    requires StateOk(s) && s.hub.Looping? && x in s.hub.pending
    ensures Enabled(cap, s, OfferTo(x))
    ensures var n := Step(cap, s, OfferTo(x));
            && StateOk(n) && n.hub == Looping(s.hub.msg, s.hub.pending - {x}) && n.peers == s.peers && n.log == s.log
            && PushedAll(cap, n, |s.log| - 1, s.hub.msg, s.hub.pending - {x})
               == PushedAll(cap, s, |s.log| - 1, s.hub.msg, s.hub.pending)
  {
    assert RosterOk(s) && PlaceOk(s);
    var c := s.peers[x];
    var n := Step(cap, s, OfferTo(x));
    PutState(s, c, n.links[c], n.hub);
    LoopLinks(cap, s, x);
  }

  lemma LoopLink(cap: nat, s: State, x: Id, c: Conn)
    requires RosterOk(s) && s.hub.Looping? && Enabled(cap, s, OfferTo(x)) && c in s.links && s.log != []
    ensures var n := Step(cap, s, OfferTo(x));
            n.links.Keys == s.links.Keys && n.peers == s.peers && n.links[c].id == s.links[c].id &&
            PushedOne(cap, n, |s.log| - 1, s.hub.msg, s.hub.pending - {x}, c)
            == PushedOne(cap, s, |s.log| - 1, s.hub.msg, s.hub.pending, c)
  {
  }

  lemma LoopLinks(cap: nat, s: State, x: Id)
    requires RosterOk(s) && s.hub.Looping? && s.log != [] && Enabled(cap, s, OfferTo(x))
    ensures var n := Step(cap, s, OfferTo(x));
            PushedAll(cap, n, |s.log| - 1, s.hub.msg, s.hub.pending - {x})
            == PushedAll(cap, s, |s.log| - 1, s.hub.msg, s.hub.pending)
  {
    var n := Step(cap, s, OfferTo(x));
    var a := PushedAll(cap, n, |s.log| - 1, s.hub.msg, s.hub.pending - {x});
    var b := PushedAll(cap, s, |s.log| - 1, s.hub.msg, s.hub.pending);
    assert a.Keys == b.Keys;
    forall c | c in s.links
      ensures a[c] == b[c]
    {
      LoopLink(cap, s, x, c);
    }
  }

  // ---------- Progress ----------

  predicate IsHubSend(a: Action) {
    a.SendId? || a.SendList? || a.OfferTo? || a.LoopEnd? || a.SendError?
  }

  /** The hub waits for requests, or its own next step can be taken. */
  ghost predicate HubMoves(cap: nat, s: State) {
    s.hub.AtSelect? || exists a :: IsHubSend(a) && Enabled(cap, s, a)
  }

  /** The hub is blocked in the error reply to a sender whose channel is full. */
  predicate Blocked(cap: nat, s: State) {
    s.hub.SendingError? && s.hub.c in s.links && |s.links[s.hub.c].queue| >= cap
  }

  /** Blocked, and the sender's write pump has stopped draining. */
  predicate Wedged(cap: nat, s: State) {
    Blocked(cap, s) && (s.links[s.hub.c].writer.WExited? || s.links[s.hub.c].writer.WDone?)
  }

  /** The only place where the hub can be blocked is the error reply, and only on a full channel. */
  lemma HubBlocksOnlyAtErrorReply(cap: nat, s: State)
    requires cap >= 2 && Reachable(cap, s)
    ensures HubMoves(cap, s) <==> !Blocked(cap, s)
  {
    assert StateOk(s) by { ReachableInv(cap, s); }
    assert RosterOk(s) && PlaceOk(s);
    match s.hub
    case AtSelect =>
    case SendingId(c, id) =>
      RegistrationNeverBlocks(cap, s);
      assert IsHubSend(SendId) && Enabled(cap, s, SendId);
    case SendingList(c, id) =>
      RegistrationNeverBlocks(cap, s);
      var l := ListSet(s.peers.Keys - {id});
      assert IsHubSend(SendList(l)) && Enabled(cap, s, SendList(l));
    case Looping(msg, pending) =>
      if pending == {} {
        assert IsHubSend(LoopEnd) && Enabled(cap, s, LoopEnd);
      } else {
        var x :| x in pending;
        assert IsHubSend(OfferTo(x)) && Enabled(cap, s, OfferTo(x));
      }
    case SendingError(c, msg) =>
      assert !s.links[c].closed;
      if |s.links[c].queue| < cap {
        assert IsHubSend(SendError) && Enabled(cap, s, SendError);
      }
  }

  /** A write pump at its select releases a blocked hub by draining one message. */
  lemma OneDrainReleases(cap: nat, s: State)
    requires cap >= 2 && Reachable(cap, s) && Blocked(cap, s) && s.links[s.hub.c].writer.WSelect?
    ensures Enabled(cap, s, Local(s.hub.c, Take))
    ensures var t := Step(cap, s, Local(s.hub.c, Take));
            && Enabled(cap, t, SendError)
            && Step(cap, t, SendError).hub.AtSelect?
  {
    LinkOf(cap, s, s.hub.c);
    ChannelSafety(cap, s);
    assert StateOk(s) by { ReachableInv(cap, s); }
  }

  /** Wedged, the sender's connection being past its start and not yet unregistered. */
  predicate WedgedOpen(cap: nat, s: State) {
    && Wedged(cap, s)
    && !s.links[s.hub.c].closed
    && !s.links[s.hub.c].phase.Spawning? && !s.links[s.hub.c].phase.Returned?
  }

  lemma WedgedIsOpen(cap: nat, s: State)
    requires Reachable(cap, s) && Wedged(cap, s)
    ensures WedgedOpen(cap, s)
  {
    LinkOf(cap, s, s.hub.c);
    assert PlaceOk(s) && RosterOk(s) by { ReachableInv(cap, s); }
  }

  /** A wedged hub never moves again: the log and the map are frozen, the sender's handler never
      returns from its unregistration, whatever all other goroutines do. */
  lemma {:induction false} WedgedForever(cap: nat, s: State, acts: seq<Action>, t: State)
    requires WedgedOpen(cap, s)
    requires Run(cap, s, acts, t)
    ensures WedgedOpen(cap, t) && t.hub == s.hub && t.peers == s.peers && t.log == s.log
    decreases |acts|
  {
    if acts != [] {
      var n := Step(cap, s, acts[0]);
      WedgedStep(cap, s, acts[0]);
      WedgedForever(cap, n, acts[1..], t);
    }
  }

  lemma WedgedStep(cap: nat, s: State, a: Action)
    requires WedgedOpen(cap, s)
    requires Enabled(cap, s, a)
    ensures var n := Step(cap, s, a);
            WedgedOpen(cap, n) && n.hub == s.hub && n.peers == s.peers && n.log == s.log
  {
  }

  ghost predicate HubCanReturn(cap: nat, s: State) {
    exists t :: Reaches(cap, s, t) && t.hub.AtSelect?
  }

  lemma ReturnAfter(cap: nat, s: State, a: Action)
    requires Enabled(cap, s, a) && HubCanReturn(cap, Step(cap, s, a))
    ensures HubCanReturn(cap, s)
  {
    var t :| Reaches(cap, Step(cap, s, a), t) && t.hub.AtSelect?;
    ReachesStep(cap, s, a);
    ReachesTrans(cap, s, Step(cap, s, a), t);
  }

  lemma LoopReturns(cap: nat, s: State)
    requires Reachable(cap, s) && s.hub.Looping?
    ensures HubCanReturn(cap, s)
  {
    assert StateOk(s) by { ReachableInv(cap, s); }
    var order := ListSet(s.hub.pending);
    LoopRun(cap, s, order);
    var t := s.(hub := AtSelect, links := PushedAll(cap, s, |s.log| - 1, s.hub.msg, s.hub.pending));
    assert Run(cap, s, Offers(order) + [LoopEnd], t);
    assert Reaches(cap, s, t);
  }

  lemma RegistrationReturns(cap: nat, s: State)
    requires cap >= 2 && Reachable(cap, s) && (s.hub.SendingId? || s.hub.SendingList?)
    ensures HubCanReturn(cap, s)
  {
    RegistrationNeverBlocks(cap, s);
    if s.hub.SendingId? {
      var n := Step(cap, s, SendId);
      ReachableStep(cap, s, SendId);
      ListReturns(cap, n);
      ReturnAfter(cap, s, SendId);
    } else {
      ListReturns(cap, s);
    }
  }

  lemma ListReturns(cap: nat, s: State)
    requires cap >= 2 && Reachable(cap, s) && s.hub.SendingList?
    ensures HubCanReturn(cap, s)
  {
    RegistrationNeverBlocks(cap, s);
    var l := ListSet(s.peers.Keys - {s.hub.id});
    ReachableStep(cap, s, SendList(l));
    LoopReturns(cap, Step(cap, s, SendList(l)));
    ReturnAfter(cap, s, SendList(l));
  }

  function WriterRank(s: State): nat {
    if s.hub.SendingError? && s.hub.c in s.links then
      match s.links[s.hub.c].writer case WSelect => 0 case WWriting => 1 case _ => 2
    else 0
  }

  lemma ErrorReplyReturns(cap: nat, s: State)
    requires cap >= 2 && Reachable(cap, s) && s.hub.SendingError? && !Wedged(cap, s)
    ensures HubCanReturn(cap, s)
    decreases WriterRank(s)
  {
    assert PlaceOk(s) && RosterOk(s) by { ReachableInv(cap, s); }
    var c := s.hub.c;
    LinkOf(cap, s, c);
    if |s.links[c].queue| < cap {
      ReachesRefl(cap, Step(cap, s, SendError));
      ReturnAfter(cap, s, SendError);
    } else {
      match s.links[c].writer
      case WSelect =>
        OneDrainReleases(cap, s);
        var t := Step(cap, s, Local(c, Take));
        ReachesRefl(cap, Step(cap, t, SendError));
        ReturnAfter(cap, t, SendError);
        ReturnAfter(cap, s, Local(c, Take));
      case WWriting =>
        ReachableStep(cap, s, Local(c, WriteOk));
        ErrorReplyReturns(cap, Step(cap, s, Local(c, WriteOk)));
        ReturnAfter(cap, s, Local(c, WriteOk));
      case WIdle =>
        assert s.links[c].phase.Spawning?;
        ReachableStep(cap, s, Local(c, Spawn));
        ErrorReplyReturns(cap, Step(cap, s, Local(c, Spawn)));
        ReturnAfter(cap, s, Local(c, Spawn));
      case _ =>
    }
  }

  /** Exact progress: the hub can get back to its select if and only if it is not blocked in an
      error reply to a sender whose full channel nobody drains any more. */
  lemma HubReturnsUnlessWedged(cap: nat, s: State)
    requires cap >= 2 && Reachable(cap, s)
    ensures HubCanReturn(cap, s) <==> !Wedged(cap, s)
  {
    if Wedged(cap, s) {
      WedgedIsOpen(cap, s);
      forall t | Reaches(cap, s, t)
        ensures !t.hub.AtSelect?
      {
        var acts :| Run(cap, s, acts, t);
        WedgedForever(cap, s, acts, t);
      }
    } else {
      assert !s.hub.Panicked? by { ChannelSafety(cap, s); }
      match s.hub
      case AtSelect => ReachesRefl(cap, s);
      case SendingId(_, _) => RegistrationReturns(cap, s);
      case SendingList(_, _) => RegistrationReturns(cap, s);
      case Looping(_, _) => LoopReturns(cap, s);
      case SendingError(_, _) => ErrorReplyReturns(cap, s);
      case Panicked =>
    }
  }

  // ---------- Catching up ----------

  /** The write pump still drains the channel, or will once it is started. */
  predicate PumpRuns(l: Link) {
    l.writer.WSelect? || l.writer.WWriting? || (l.writer.WIdle? && l.phase.Spawning?)
  }

  function Backlog(l: Link): nat {
    3 * |l.queue| + 2 * |l.inflight| + (if l.writer.WIdle? then 1 else 0)
  }

  /** A step of c's write pump that makes progress, without any failure. */
  predicate Writes(a: Action, c: Conn) {
    a.Local? && a.c == c && (a.act.Spawn? || a.act.Take? || a.act.WriteOk?)
  }

  /** t is s but for what c's own pumps and client have moved along its pipeline. */
  predicate OnlyMoved(s: State, t: State, c: Conn) {
    && t.hub == s.hub && t.peers == s.peers && t.log == s.log && c in s.links && c in t.links
    && t.links[c].id == s.links[c].id && t.links[c].attempts == s.links[c].attempts
    && t.links[c].phase.Dialing? == s.links[c].phase.Dialing? && t.links[c].closed == s.links[c].closed
  }

  /** The write pump alone, without a failure and whatever the client does, writes all that is on the channel. */
  lemma {:induction false} FlushRun(cap: nat, s: State, c: Conn) returns (acts: seq<Action>, t: State)
    requires Reachable(cap, s) && c in s.links && PumpRuns(s.links[c])
    ensures Run(cap, s, acts, t) && forall a :: a in acts ==> Writes(a, c)
    ensures OnlyMoved(s, t, c) && PumpRuns(t.links[c])
    ensures t.links[c].inflight == [] && t.links[c].queue == [] && t.links[c].delivered == s.links[c].delivered
    decreases Backlog(s.links[c])
  {
    if s.links[c].inflight + s.links[c].queue == [] {
      acts, t := [], s;
    } else {
      var a := NextWrite(cap, s, c);
      ReachableStep(cap, s, a);
      var rest;
      rest, t := FlushRun(cap, Step(cap, s, a), c);
      acts := [a] + rest;
      assert acts[1..] == rest;
    }
  }

  lemma NextWrite(cap: nat, s: State, c: Conn) returns (a: Action)
    requires Reachable(cap, s) && c in s.links && PumpRuns(s.links[c])
    requires s.links[c].inflight + s.links[c].queue != []
    ensures Writes(a, c) && Enabled(cap, s, a) && OnlyMoved(s, Step(cap, s, a), c)
    ensures var l, l' := s.links[c], Step(cap, s, a).links[c];
            Backlog(l') < Backlog(l) && PumpRuns(l') && l'.delivered == l.delivered
  {
    var l := s.links[c];
    LinkOf(cap, s, c);
    a := Local(c, if l.writer.WIdle? then Spawn else if l.writer.WWriting? then WriteOk else Take);
    if a.act.Take? {
      assert l.inflight == [] && l.queue != [];
    }
  }

  /** The client alone processes what has been written to it. */
  lemma {:induction false} ProcessRun(cap: nat, s: State, c: Conn) returns (acts: seq<Action>, t: State)
    requires c in s.links
    ensures Run(cap, s, acts, t) && forall a :: a in acts ==> a == Local(c, Process)
    ensures OnlyMoved(s, t, c) && t.links[c].wire == [] && t.links[c].inflight == s.links[c].inflight
    ensures t.links[c].queue == s.links[c].queue && t.links[c].writer == s.links[c].writer && t.links[c].phase == s.links[c].phase
    decreases |s.links[c].wire|
  {
    if s.links[c].wire == [] {
      acts, t := [], s;
    } else {
      var rest;
      rest, t := ProcessRun(cap, Step(cap, s, Local(c, Process)), c);
      acts := [Local(c, Process)] + rest;
      assert acts[1..] == rest;
    }
  }

  /** The steps of one connection alone, none of them a failure, deliver its whole backlog; nothing else changes. */
  lemma DrainRun(cap: nat, s: State, c: Conn) returns (acts: seq<Action>, t: State)
    requires Reachable(cap, s) && c in s.links && PumpRuns(s.links[c])
    ensures Run(cap, s, acts, t) && forall a :: a in acts ==> Writes(a, c) || a == Local(c, Process)
    ensures OnlyMoved(s, t, c) && PumpRuns(t.links[c]) && Undelivered(t.links[c]) == []
  {
    var flush, u := FlushRun(cap, s, c);
    var process;
    process, t := ProcessRun(cap, u, c);
    RunConcat(cap, s, flush, u, process, t);
    acts := flush + process;
  }

  /** From any reachable state with the hub at its select, a member whose pump runs can empty its pipeline
      by its own steps alone; it then has the hub's exact membership if and only if no drop on its channel
      misleads it, in particular if no membership message was dropped. */
  lemma MemberCatchesUp(cap: nat, s: State, c: Conn) returns (t: State)
    requires Reachable(cap, s) && s.hub.AtSelect? && IsMember(s, c) && PumpRuns(s.links[c])
    ensures Reaches(cap, s, t) && t.hub.AtSelect? && t.peers == s.peers && c in t.links && Drained(t, c)
    ensures t.links[c].view == Others(s, c) <==> forall q :: !Misled(s.links[c].attempts, q)
    ensures DroppedMembership(s.links[c].attempts) == 0 ==> t.links[c].view == Others(s, c)
  {
    var acts;
    acts, t := DrainRun(cap, s, c);
    ReachesTrans(cap, INIT, s, t);
    DrainedAgreement(cap, t, c);
  }

  // ---------- The wedge does happen ----------

  /** One connected peer "a" with n messages in its channel, its write pump waiting. */
  predicate Filling(s: State, n: nat) {
    && s.hub.AtSelect? && s.peers == map["a" := 0]
    && s.links.Keys == {0} && s.links[0].id == "a" && !s.links[0].closed
    && s.links[0].writer.WSelect? && s.links[0].reader.RReading?
    && |s.links[0].queue| == n && Replay({}, Enqueued(s.links[0].attempts)) == {}
  }

  lemma EnqueuedPush(cap: nat, l: Link, k: nat, msg: Message)
    ensures Enqueued(Push(cap, l, k, msg).attempts)
            == Enqueued(l.attempts) + (if |l.queue| < cap then [msg] else [])
  {
    assert Front(Push(cap, l, k, msg).attempts) == l.attempts;
  }

  lemma TwoSteps(cap: nat, s: State, a: Action, b: Action)
    requires Enabled(cap, s, a) && Enabled(cap, Step(cap, s, a), b)
    ensures Reaches(cap, s, Step(cap, Step(cap, s, a), b))
  {
    ReachesStep(cap, s, a);
    ReachesStep(cap, Step(cap, s, a), b);
    ReachesTrans(cap, s, Step(cap, s, a), Step(cap, Step(cap, s, a), b));
  }

  /** Peer "a" as in Filling, while the hub offers it its own broadcast. */
  predicate Offering(s: State, n: nat) {
    s.hub == Looping(Signal("a", "", "x"), {"a"}) && Filling(s.(hub := AtSelect), n)
  }

  lemma FillSubmit(cap: nat, s: State, n: nat) returns (t: State)
    requires Filling(s, n)
    ensures Reaches(cap, s, t) && Offering(t, n)
  {
    var act := Local(0, Read("", "x"));
    var s1 := Step(cap, s, act);
    t := Step(cap, s1, Submit(0));
    assert t.hub == Looping(Signal("a", "", "x"), {"a"});
    TwoSteps(cap, s, act, Submit(0));
  }

  /** One more signal on a channel with room. */
  lemma FillPush(cap: nat, l: Link, k: nat, msg: Message)
    requires |l.queue| < cap && msg.Signal? && Replay({}, Enqueued(l.attempts)) == {}
    ensures |Push(cap, l, k, msg).queue| == |l.queue| + 1
    ensures Replay({}, Enqueued(Push(cap, l, k, msg).attempts)) == {}
  {
    EnqueuedPush(cap, l, k, msg);
    ReplaySnoc({}, Enqueued(l.attempts), msg);
  }

  lemma OfferAlone(cap: nat, s: State, n: nat)
    requires Offering(s, n)
    ensures Enabled(cap, s, OfferTo("a"))
    ensures Step(cap, s, OfferTo("a")) ==
            Put(s, 0, Push(cap, s.links[0], if s.log == [] then 0 else |s.log| - 1, s.hub.msg))
            .(hub := Looping(s.hub.msg, {}))
  {
    assert {"a"} - {"a"} == {};
  }

  lemma FillOffer(cap: nat, s: State, n: nat) returns (t: State)
    requires Offering(s, n) && n < cap
    ensures Reaches(cap, s, t) && Filling(t, n + 1)
  {
    OfferAlone(cap, s, n);
    FillPush(cap, s.links[0], if s.log == [] then 0 else |s.log| - 1, s.hub.msg);
    TwoSteps(cap, s, OfferTo("a"), LoopEnd);
    t := Step(cap, Step(cap, s, OfferTo("a")), LoopEnd);
  }

  lemma FillOne(cap: nat, s: State, n: nat)
    requires Filling(s, n) && n < cap
    ensures exists t :: Reaches(cap, s, t) && Filling(t, n + 1)
  {
    var t := FillSubmit(cap, s, n);
    var u := FillOffer(cap, t, n);
    ReachesTrans(cap, s, t, u);
  }

  lemma {:induction false} FillUp(cap: nat, s: State, n: nat)
    requires Filling(s, n) && n <= cap
    ensures exists t :: Reaches(cap, s, t) && Filling(t, cap)
    decreases cap - n
  {
    if n == cap {
      ReachesRefl(cap, s);
    } else {
      FillOne(cap, s, n);
      var t :| Reaches(cap, s, t) && Filling(t, n + 1);
      FillUp(cap, t, n + 1);
      var u :| Reaches(cap, t, u) && Filling(u, cap);
      ReachesTrans(cap, s, t, u);
    }
  }

  /** The first connection between its map entry and its welcome. */
  predicate FirstRegistering(s: State) {
    && s.hub == SendingId(0, "a") && s.peers == map["a" := 0] && s.links.Keys == {0}
    && s.links[0] == NewLink("a").(phase := Spawning)
  }

  lemma FirstDial(cap: nat) returns (t: State)
    ensures Reaches(cap, INIT, t) && FirstRegistering(t)
  {
    t := Step(cap, Step(cap, INIT, Dial(0, "a")), Register(0));
    TwoSteps(cap, INIT, Dial(0, "a"), Register(0));
  }

  /** The first connection with its ID on its channel. */
  predicate FirstListing(s: State) {
    && s.hub == SendingList(0, "a") && s.peers == map["a" := 0] && s.links.Keys == {0}
    && s.links[0].id == "a" && s.links[0].phase.Spawning? && !s.links[0].closed && |s.links[0].queue| == 1
    && Replay({}, Enqueued(s.links[0].attempts)) == {}
  }

  lemma FirstId(cap: nat, s: State) returns (t: State)
    requires cap >= 2 && FirstRegistering(s)
    ensures Reaches(cap, s, t) && FirstListing(t)
  {
    t := Step(cap, s, SendId);
    EnqueuedPush(cap, s.links[0], if s.log == [] then 0 else |s.log| - 1, Registered("a"));
    ReplaySnoc({}, [], Registered("a"));
    ReachesStep(cap, s, SendId);
  }

  lemma FirstList(cap: nat, s: State) returns (t: State)
    requires cap >= 2 && FirstListing(s)
    ensures Reaches(cap, s, t)
    ensures t.hub == Looping(Joined("a"), {}) && t.peers == s.peers && t.links.Keys == {0}
    ensures t.links[0].phase.Spawning? && t.links[0].id == "a" && !t.links[0].closed && |t.links[0].queue| == 2
    ensures Replay({}, Enqueued(t.links[0].attempts)) == {}
  {
    assert s.peers.Keys - {"a"} == {};
    assert IsListing([], {});
    t := Step(cap, s, SendList([]));
    EnqueuedPush(cap, s.links[0], if s.log == [] then 0 else |s.log| - 1, PeerList([]));
    ReplaySnoc({}, Enqueued(s.links[0].attempts), PeerList([]));
    ReachesStep(cap, s, SendList([]));
  }

  lemma FirstPeer(cap: nat)
    requires cap >= 2
    ensures exists t :: Reachable(cap, t) && Filling(t, 2)
  {
    var s1 := FirstDial(cap);
    var s0 := FirstId(cap, s1);
    ReachesTrans(cap, INIT, s1, s0);
    var s2 := FirstList(cap, s0);
    ReachesTrans(cap, INIT, s0, s2);
    var t := Step(cap, Step(cap, s2, LoopEnd), Local(0, Spawn));
    TwoSteps(cap, s2, LoopEnd, Local(0, Spawn));
    ReachesTrans(cap, INIT, s2, t);
    assert Filling(t, 2);
  }

  lemma FullAlone(cap: nat) returns (t: State)
    requires cap >= 2
    ensures Reachable(cap, t) && Filling(t, cap)
  {
    FirstPeer(cap);
    var s :| Reachable(cap, s) && Filling(s, 2);
    FillUp(cap, s, 2);
    t :| Reaches(cap, s, t) && Filling(t, cap);
    ReachesTrans(cap, INIT, s, t);
  }

  lemma ThreeReachable(cap: nat, s: State, a: Action, b: Action, c: Action) returns (t: State)
    requires Reachable(cap, s) && Enabled(cap, s, a) && Enabled(cap, Step(cap, s, a), b)
    requires Enabled(cap, Step(cap, Step(cap, s, a), b), c)
    ensures t == Step(cap, Step(cap, Step(cap, s, a), b), c) && Reachable(cap, t)
  {
    t := Step(cap, Step(cap, Step(cap, s, a), b), c);
    ReachableStep(cap, s, a);
    ReachableStep(cap, Step(cap, s, a), b);
    ReachableStep(cap, Step(cap, Step(cap, s, a), b), c);
  }

  /** For every channel capacity the wedge is reachable: a peer whose channel is full and whose
      write pump has failed addresses an unknown target. */
  lemma WedgeIsReachable(cap: nat)
    requires cap >= 2
    ensures exists s :: Reachable(cap, s) && Wedged(cap, s)
  {
    var t := FullAlone(cap);
    var w := ThreeReachable(cap, t, Local(0, Read("nobody", "x")), Local(0, PingFail), Submit(0));
    assert Wedged(cap, w);
  }

  // ---------- Loss does diverge ----------

  /** Peer "a" is full while "b" registers. */
  predicate FullBesideNewcomer(cap: nat, s: State) {
    && s.peers == map["a" := 0, "b" := 1] && s.links.Keys == {0, 1}
    && s.links[0].id == "a" && !s.links[0].closed && s.links[0].writer.WSelect? && |s.links[0].queue| == cap
    && Replay({}, Enqueued(s.links[0].attempts)) == {}
  }

  lemma NewcomerDials(cap: nat, s: State) returns (t: State)
    requires Filling(s, cap)
    ensures Reaches(cap, s, t) && FullBesideNewcomer(cap, t) && t.hub == SendingId(1, "b")
    ensures t.links[1].queue == [] && !t.links[1].closed
  {
    t := Step(cap, Step(cap, s, Dial(1, "b")), Register(1));
    TwoSteps(cap, s, Dial(1, "b"), Register(1));
  }

  lemma NewcomerWelcomed(cap: nat, s: State) returns (t: State)
    requires cap >= 2 && FullBesideNewcomer(cap, s) && s.hub == SendingId(1, "b")
    requires s.links[1].queue == [] && !s.links[1].closed
    ensures Reaches(cap, s, t) && FullBesideNewcomer(cap, t) && t.hub == Looping(Joined("b"), {"a"})
  {
    var s1 := Step(cap, s, SendId);
    assert s1.peers.Keys - {"b"} == {"a"};
    assert IsListing(["a"], s1.peers.Keys - {"b"});
    t := Step(cap, s1, SendList(["a"]));
    TwoSteps(cap, s, SendId, SendList(["a"]));
  }

  /** The joined message meets the full channel. */
  lemma JoinDropped(cap: nat, s: State) returns (t: State)
    requires FullBesideNewcomer(cap, s) && s.hub == Looping(Joined("b"), {"a"})
    ensures Reaches(cap, s, t) && FullBesideNewcomer(cap, t) && t.hub.AtSelect?
  {
    var s1 := Step(cap, s, OfferTo("a"));
    assert s1.hub.pending == {};
    t := Step(cap, s1, LoopEnd);
    EnqueuedPush(cap, s.links[0], if s.log == [] then 0 else |s.log| - 1, Joined("b"));
    assert Enqueued(t.links[0].attempts) == Enqueued(s.links[0].attempts);
    TwoSteps(cap, s, OfferTo("a"), LoopEnd);
  }

  /** The condition that nothing was dropped is needed: for every capacity some run ends with a member
      whose pipeline is empty and whose replica is not the hub's membership. */
  lemma DropDiverges(cap: nat)
    requires cap >= 2
    ensures exists s, c :: Reachable(cap, s) && s.hub.AtSelect? && IsMember(s, c)
                           && Undelivered(s.links[c]) == [] && s.links[c].view != Others(s, c)
  {
    var s := FullAlone(cap);
    var s1 := NewcomerDials(cap, s);
    var s2 := NewcomerWelcomed(cap, s1);
    var t := JoinDropped(cap, s2);
    ReachesTrans(cap, INIT, s, s1);
    ReachesTrans(cap, INIT, s1, s2);
    ReachesTrans(cap, INIT, s2, t);
    var acts, u := DrainRun(cap, t, 0);
    ReachesTrans(cap, INIT, t, u);
    LinkOf(cap, u, 0);
    var l := u.links[0];
    assert l.delivered + [] == l.delivered;
    assert l.view == {} && "b" in Others(u, 0);
    assert Reachable(cap, u) && IsMember(u, 0);
  }

  // ---------- The pumps ----------

  /** The handler has stopped listening: it received `done` from the other pump. */
  predicate HandlerGone(l: Link) {
    l.phase.Unregistering? || l.phase.Returned?
  }

  /** The write pump has ended and is blocked on `done`, which nobody receives any more. */
  predicate WriterStuck(s: State, c: Conn) {
    c in s.links && s.links[c].writer.WExited? && HandlerGone(s.links[c])
  }

  predicate ReaderStuck(s: State, c: Conn) {
    c in s.links && s.links[c].reader.RExited? && HandlerGone(s.links[c])
  }

  /** A second pump that ends stays blocked on `done` for the rest of the run. */
  lemma {:induction false} SecondPumpBlocksForever(cap: nat, s: State, acts: seq<Action>, t: State, c: Conn)
    requires Run(cap, s, acts, t)
    ensures WriterStuck(s, c) ==> WriterStuck(t, c)
    ensures ReaderStuck(s, c) ==> ReaderStuck(t, c)
    decreases |acts|
  {
    if acts != [] {
      var n := Step(cap, s, acts[0]);
      StuckStep(cap, s, acts[0], c);
      SecondPumpBlocksForever(cap, n, acts[1..], t, c);
    }
  }

  lemma StuckStep(cap: nat, s: State, a: Action, c: Conn)
    requires Enabled(cap, s, a)
    ensures WriterStuck(s, c) ==> WriterStuck(Step(cap, s, a), c)
    ensures ReaderStuck(s, c) ==> ReaderStuck(Step(cap, s, a), c)
  {
  }

  ghost predicate WriterCanBeReceived(cap: nat, s: State, c: Conn) {
    exists t :: Reaches(cap, s, t) && c in t.links && t.links[c].writer.WDone?
  }

  ghost predicate ReaderCanBeReceived(cap: nat, s: State, c: Conn) {
    exists t :: Reaches(cap, s, t) && c in t.links && t.links[c].reader.RDone?
  }

  /** Exactly when an ended pump can still be received: while the handler waits for `done`. */
  lemma EndedPumpIsReceived(cap: nat, s: State, c: Conn)
    requires Reachable(cap, s) && c in s.links
    ensures s.links[c].writer.WExited? ==> (WriterCanBeReceived(cap, s, c) <==> s.links[c].phase.Waiting?)
    ensures s.links[c].reader.RExited? ==> (ReaderCanBeReceived(cap, s, c) <==> s.links[c].phase.Waiting?)
  {
    LinkOf(cap, s, c);
    if s.links[c].phase.Waiting? {
      HandingOver(cap, s, c);
    } else {
      forall acts, t | Run(cap, s, acts, t)
        ensures WriterStuck(s, c) ==> WriterStuck(t, c)
        ensures ReaderStuck(s, c) ==> ReaderStuck(t, c)
      {
        SecondPumpBlocksForever(cap, s, acts, t, c);
      }
    }
  }

  lemma HandingOver(cap: nat, s: State, c: Conn)
    requires c in s.links && s.links[c].phase.Waiting?
    ensures s.links[c].writer.WExited? ==> WriterCanBeReceived(cap, s, c)
    ensures s.links[c].reader.RExited? ==> ReaderCanBeReceived(cap, s, c)
  {
    if s.links[c].writer.WExited? {
      ReachesStep(cap, s, Local(c, HandDone(true)));
    }
    if s.links[c].reader.RExited? {
      ReachesStep(cap, s, Local(c, HandDone(false)));
    }
  }

  /** Whenever both pumps of a connection have ended and its handler has moved on, exactly one is stuck. */
  lemma OnePumpIsStuck(cap: nat, s: State, c: Conn)
    requires Reachable(cap, s) && c in s.links && HandlerGone(s.links[c])
    requires s.links[c].writer.WExited? || s.links[c].writer.WDone?
    requires s.links[c].reader.RExited? || s.links[c].reader.RDone?
    ensures WriterStuck(s, c) <==> !ReaderStuck(s, c)
  {
    LinkOf(cap, s, c);
  }

  /** Either pump can be the one that stays behind: whichever ends after the other was received. */
  lemma StuckPumpsAreReachable(cap: nat)
    requires cap >= 2
    ensures exists s :: Reachable(cap, s) && WriterStuck(s, 0)
    ensures exists s :: Reachable(cap, s) && ReaderStuck(s, 0)
  {
    var t := FullAlone(cap);
    assert t.links[0].phase.Waiting? by { LinkOf(cap, t, 0); }
    var w := ThreeReachable(cap, t, Local(0, ReadFail), Local(0, HandDone(false)), Local(0, PingFail));
    assert WriterStuck(w, 0);
    var r := ThreeReachable(cap, t, Local(0, PingFail), Local(0, HandDone(true)), Local(0, ReadFail));
    assert ReaderStuck(r, 0);
  }
}
