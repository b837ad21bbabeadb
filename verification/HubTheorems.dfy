/** What the server guarantees in every reachable state, for every interleaving. */
module HubTheorems {
  import opened Messages
  import opened Replica
  import opened HubLog
  import opened HubSystem
  import opened HubInvariant

  /** c is a current entry of the hub's map. */
  predicate IsMember(s: State, c: Conn) {
    c in s.links && Holds(s.peers, s.links[c].id, c)
  }

  /** c has been sent its welcome (it may have left since). */
  predicate IsSettled(s: State, c: Conn) {
    && c in s.links && !s.links[c].phase.Dialing?
    && s.hub != SendingId(c, s.links[c].id)
    && s.hub != SendingList(c, s.links[c].id)
  }

  function OwedTo(s: State, c: Conn): seq<Note>
    requires c in s.links
  {
    if s.log == [] then [] else Owed(s.hub, s.peers, |s.log| - 1, c, s.links[c].id)
  }

  /** What the hub has still to send to c in the handler it is in: the message of a broadcast or a
      reply, or what is left of c's own welcome. */
  ghost function InHand(s: State, c: Conn): seq<Message>
    requires c in s.links
  {
    if s.hub == SendingId(c, s.links[c].id) then Welcome(s.links[c].id, SomeListing(Others(s, c)))
    else if s.hub == SendingList(c, s.links[c].id) then [PeerList(SomeListing(Others(s, c)))]
    else if OwedTo(s, c) == [] then []
    else [OwedTo(s, c)[0].msg]
  }

  /** The other members, as the hub knows them. */
  function Others(s: State, c: Conn): set<Id>
    requires c in s.links
  {
    s.peers.Keys - {s.links[c].id}
  }

  // ---------- The invariant, one part at a time ----------

  lemma LinkOf(cap: nat, s: State, c: Conn)
    requires Reachable(cap, s) && c in s.links
    ensures LinkOk(cap, s.links[c])
  {
    ReachableInv(cap, s);
  }

  lemma HistoryOf(cap: nat, s: State, c: Conn)
    requires Reachable(cap, s) && c in s.links
    ensures HistoryOk(s.hub, s.peers, s.log, c, s.links[c])
    ensures s.peers == Members(s.log)
  {
    ReachableInv(cap, s);
  }

  lemma SettledHistory(cap: nat, s: State, c: Conn)
    requires Reachable(cap, s) && IsSettled(s, c)
    ensures s.peers == Members(s.log)
    ensures Welcomed(s.log, c, s.links[c].id, s.links[c].attempts)
    ensures Notes(s.links[c].attempts[2..]) + OwedTo(s, c) == Tail(s.log, c, s.links[c].id)
  {
    HistoryOf(cap, s, c);
  }

  lemma EventOf(cap: nat, s: State, i: nat)
    requires Reachable(cap, s) && i < |s.log|
    ensures EventOk(s.links, s.log[i])
  {
    ReachableInv(cap, s);
  }

  // ---------- Channel safety ----------

  /** For any IDs, colliding or not: the hub never sends on a closed channel and never
      closes one twice; no closed connection is in the map, and entries of the map are
      different connections. */
  lemma ChannelSafety(cap: nat, s: State)
    requires Reachable(cap, s)
    ensures !s.hub.Panicked?
    ensures forall c :: c in s.links && s.links[c].closed ==> !(exists x :: x in s.peers && s.peers[x] == c)
    ensures forall x, y :: x in s.peers && y in s.peers && s.peers[x] == s.peers[y] ==> x == y
    ensures forall c :: c in s.links ==> |s.links[c].queue| <= cap
  {
    ReachableInv(cap, s);
    assert RosterOk(s) && PlaceOk(s);
    forall c | c in s.links
      ensures |s.links[c].queue| <= cap
    {
      assert LinkOk(cap, s.links[c]);
    }
  }

  // ---------- Registration ----------

  /** The two blocking sends of a registration always find an open channel with room. */
  lemma RegistrationNeverBlocks(cap: nat, s: State)
    requires cap >= 2 && Reachable(cap, s)
    requires s.hub.SendingId? || s.hub.SendingList?
    ensures s.hub.c in s.links && !s.links[s.hub.c].closed && |s.links[s.hub.c].queue| < cap
    ensures s.hub.SendingId? ==> Enabled(cap, s, SendId)
    ensures s.hub.SendingList? ==> s.log != [] && s.links[s.hub.c].attempts == [Attempt(|s.log| - 1, Registered(s.hub.id), true)]
  {
    ReachableInv(cap, s);
    var c := s.hub.c;
    assert PlaceOk(s);
    assert RosterOk(s);
    assert LinkOk(cap, s.links[c]);
    assert HistoryOk(s.hub, s.peers, s.log, c, s.links[c]);
    WelcomeHasRoom(cap, s.links[c]);
  }

  lemma {:induction false} TailKinds(log: seq<Event>, c: Conn, id: Id)
    ensures forall n :: n in Tail(log, c, id) ==> !n.msg.Registered? && !n.msg.PeerList?
  {
    if log != [] {
      TailKinds(Front(log), c, id);
    }
  }

  /** Every channel's history opens with the own ID and then the list of the other members,
      taken at the moment of registration; nothing comes between and neither kind comes again. */
  lemma RegistrationPrefix(cap: nat, s: State, c: Conn)
    requires Reachable(cap, s) && IsSettled(s, c)
    ensures var l := s.links[c];
            && Welcomed(s.log, c, l.id, l.attempts)
            && Welcome(l.id, l.attempts[1].msg.ids) <= Enqueued(l.attempts)
            && forall i :: 2 <= i < |l.attempts| ==> !l.attempts[i].msg.Registered? && !l.attempts[i].msg.PeerList?
  {
    ReachableInv(cap, s);
    var l := s.links[c];
    assert HistoryOk(s.hub, s.peers, s.log, c, l);
    var a := l.attempts;
    EnqueuedPrefix(a, 2);
    WelcomeKept(a[..2]);
    TailKinds(s.log, c, l.id);
    forall i | 2 <= i < |a|
      ensures !a[i].msg.Registered? && !a[i].msg.PeerList?
    {
      var n := Notes(a[2..])[i - 2];
      assert (Notes(a[2..]) + Owed(s.hub, s.peers, |s.log| - 1, c, l.id))[i - 2] == n;
      assert n in Tail(s.log, c, l.id);
    }
  }

  lemma WelcomeKept(a: seq<Attempt>)
    requires |a| == 2 && a[0].ok && a[1].ok
    ensures Enqueued(a) == [a[0].msg, a[1].msg] && Offered(a) == [a[0].msg, a[1].msg]
  {
    assert Front(a) == [a[0]] && Front([a[0]]) == [];
    assert Enqueued([a[0]]) == [a[0].msg] && Offered([a[0]]) == [a[0].msg];
  }

  lemma {:induction false} EnqueuedPrefix(a: seq<Attempt>, i: nat)
    requires i <= |a|
    ensures Enqueued(a[..i]) <= Enqueued(a)
  {
    if i < |a| {
      EnqueuedPrefix(Front(a), i);
      assert Front(a)[..i] == a[..i];
    } else {
      assert a[..i] == a;
    }
  }

  // ---------- Agreement and drift ----------

  /** The history of c's channel with what is in hand counted as kept. */
  ghost function Completed(s: State, c: Conn): seq<Attempt>
    requires c in s.links
  {
    s.links[c].attempts + Kept(if s.log == [] then 0 else |s.log| - 1, InHand(s, c))
  }

  lemma CompletedParts(s: State, c: Conn)
    requires c in s.links
    ensures Offered(Completed(s, c)) == Offered(s.links[c].attempts) + InHand(s, c)
    ensures Enqueued(Completed(s, c)) == Enqueued(s.links[c].attempts) + InHand(s, c)
    ensures DroppedMembership(Completed(s, c)) == DroppedMembership(s.links[c].attempts)
  {
    KeptParts(s.links[c].attempts, if s.log == [] then 0 else |s.log| - 1, InHand(s, c));
  }

  lemma {:induction false} OfferedSplit(a: seq<Attempt>)
    requires |a| >= 2
    ensures Offered(a) == [a[0].msg, a[1].msg] + Texts(Notes(a[2..]))
  {
    if |a| == 2 {
      assert Front(a) == [a[0]] && Front([a[0]]) == [];
      assert Offered([a[0]]) == [a[0].msg];
    } else {
      OfferedSplit(Front(a));
      assert Front(a)[2..] == Front(a[2..]) && Last(a[2..]) == Last(a);
      assert Front(Notes(a[2..])) == Notes(Front(a[2..]));
    }
  }

  lemma OneText(ns: seq<Note>)
    requires |ns| <= 1
    ensures Texts(ns) == if ns == [] then [] else [ns[0].msg]
  {
    if ns != [] { assert Texts(Front(ns)) == []; }
  }

  /** Everything offered to c, and the message in hand, is its welcome followed by what the log owes it. */
  lemma OfferedIsOwed(cap: nat, s: State, c: Conn)
    requires Reachable(cap, s) && IsSettled(s, c)
    ensures Welcomed(s.log, c, s.links[c].id, s.links[c].attempts)
    ensures Offered(Completed(s, c)) ==
            Welcome(s.links[c].id, s.links[c].attempts[1].msg.ids) + Texts(Tail(s.log, c, s.links[c].id))
  {
    var a := s.links[c].attempts;
    SettledHistory(cap, s, c);
    CompletedParts(s, c);
    OfferedAgainstTail(a, OwedTo(s, c), Tail(s.log, c, s.links[c].id));
  }

  lemma OfferedAgainstTail(a: seq<Attempt>, owed: seq<Note>, tail: seq<Note>)
    requires |a| >= 2 && |owed| <= 1 && Notes(a[2..]) + owed == tail
    ensures Offered(a) + (if owed == [] then [] else [owed[0].msg]) == [a[0].msg, a[1].msg] + Texts(tail)
  {
    OfferedSplit(a);
    OneText(owed);
    TextsConcat(Notes(a[2..]), owed);
    ConcatAssoc([a[0].msg, a[1].msg], Texts(Notes(a[2..])), Texts(owed));
  }

  /** A member whose welcome the hub has not finished: with what is in hand, it has the whole welcome. */
  lemma WelcomeInHand(cap: nat, s: State, c: Conn)
    requires Reachable(cap, s) && IsMember(s, c) && !IsSettled(s, c)
    ensures Offered(Completed(s, c)) == Welcome(s.links[c].id, SomeListing(Others(s, c)))
    ensures forall x :: x in s.links[c].attempts ==> x.ok
  {
    var a := s.links[c].attempts;
    assert !s.links[c].phase.Dialing? by { ReachableInv(cap, s); assert RosterOk(s); }
    HistoryOf(cap, s, c);
    CompletedParts(s, c);
    if a != [] {
      assert Front(a) == [];
      assert Offered(a) == [Registered(s.links[c].id)];
    }
  }

  /** What the hub means a member to know is exactly the other members. */
  lemma IntendedIsTruth(cap: nat, s: State, c: Conn)
    requires Reachable(cap, s) && IsMember(s, c)
    ensures Replay({}, Offered(Completed(s, c))) == Others(s, c)
  {
    var l := s.links[c];
    if IsSettled(s, c) {
      OfferedIsOwed(cap, s, c);
      SettledHistory(cap, s, c);
      KnowledgeIsMembership(s.log, c, l.id, l.attempts[0].at, l.attempts[1].msg.ids);
    } else {
      WelcomeInHand(cap, s, c);
      ReplayWelcome(l.id, SomeListing(Others(s, c)));
    }
  }

  lemma ReplayPipeline(v: View, delivered: seq<Message>, a: seq<Message>, b: seq<Message>)
    requires v == Replay({}, delivered)
    ensures Replay(v, a + b) == Replay({}, (delivered + a) + b)
  {
    assert (delivered + a) + b == delivered + (a + b);
    ReplayConcat({}, delivered, a + b);
  }

  /** The client's view, once everything on its way has arrived, is the replay of what entered the channel. */
  lemma ViewIsReplay(cap: nat, s: State, c: Conn)
    requires Reachable(cap, s) && c in s.links
    ensures Replay(s.links[c].view, Undelivered(s.links[c]) + InHand(s, c)) == Replay({}, Enqueued(Completed(s, c)))
  {
    var l := s.links[c];
    LinkOf(cap, s, c);
    CompletedParts(s, c);
    ReplayPipeline(l.view, l.delivered, Undelivered(l), InHand(s, c));
  }

  lemma CompletedListsKept(cap: nat, s: State, c: Conn)
    requires Reachable(cap, s) && IsMember(s, c)
    ensures ListsKept(Completed(s, c))
  {
    var a, all := s.links[c].attempts, Completed(s, c);
    if IsSettled(s, c) {
      RegistrationPrefix(cap, s, c);
    } else {
      WelcomeInHand(cap, s, c);
    }
    forall i | 0 <= i < |all| && all[i].msg.PeerList?
      ensures all[i].ok
    {
      if i < |a| {
        assert all[i] == a[i];
      } else {
        assert all[i] == all[|a|..][i - |a|];
      }
    }
  }

  /** Bounded drift: whatever is dropped, once a member's pipeline has drained its replica is
      off by at most as many IDs as membership messages were dropped on the way to it. */
  lemma BoundedDrift(cap: nat, s: State, c: Conn)
    requires Reachable(cap, s) && IsMember(s, c)
    ensures var l := s.links[c];
            |SymmetricDifference(Others(s, c), Replay(l.view, Undelivered(l) + InHand(s, c)))|
            <= DroppedMembership(l.attempts)
  {
    CompletedListsKept(cap, s, c);
    DriftBound(Completed(s, c));
    IntendedIsTruth(cap, s, c);
    ViewIsReplay(cap, s, c);
    CompletedParts(s, c);
  }

  /** Replica agreement, exactly: replaying what is on its way gives a member the hub's other members
      if and only if no lost message misleads it about anybody. That is so when no membership message
      was lost at all. */
  lemma ReplicaAgreement(cap: nat, s: State, c: Conn)
    requires Reachable(cap, s) && IsMember(s, c)
    ensures Replay(s.links[c].view, Undelivered(s.links[c]) + InHand(s, c)) == Others(s, c)
            <==> forall q :: !Misled(Completed(s, c), q)
    ensures DroppedMembership(s.links[c].attempts) == 0 ==> forall q :: !Misled(Completed(s, c), q)
  {
    LossIsHarmless(Completed(s, c));
    IntendedIsTruth(cap, s, c);
    ViewIsReplay(cap, s, c);
    CompletedParts(s, c);
    if DroppedMembership(s.links[c].attempts) == 0 {
      NothingDropped(Completed(s, c));
    }
  }

  /** Nothing is on its way to c. */
  ghost predicate Drained(s: State, c: Conn)
    requires c in s.links
  {
    Undelivered(s.links[c]) == [] && InHand(s, c) == []
  }

  /** With an empty pipeline the client's map is exact if and only if no drop on its channel misleads it. */
  lemma DrainedAgreement(cap: nat, s: State, c: Conn)
    requires Reachable(cap, s) && IsMember(s, c) && Drained(s, c)
    ensures s.links[c].view == Others(s, c) <==> forall q :: !Misled(s.links[c].attempts, q)
    ensures DroppedMembership(s.links[c].attempts) == 0 ==> s.links[c].view == Others(s, c)
  {
    ReplicaAgreement(cap, s, c);
    assert Completed(s, c) == s.links[c].attempts;
    assert Undelivered(s.links[c]) + InHand(s, c) == [];
  }

  /** With an empty pipeline the client lists whoever the latest kept message about them presents; the
      hub's members are those whom the latest message about them, kept or dropped, presents. */
  lemma DrainedVerdicts(cap: nat, s: State, c: Conn, q: Id)
    requires Reachable(cap, s) && IsMember(s, c) && Drained(s, c)
    ensures q in s.links[c].view <==> KeptPresent(s.links[c].attempts, q)
    ensures q in Others(s, c) <==> MeantPresent(s.links[c].attempts, q)
  {
    var l := s.links[c];
    IntendedIsTruth(cap, s, c);
    ViewIsReplay(cap, s, c);
    assert l.attempts + [] == l.attempts;
    KeptDecides(l.attempts, q);
    MeantDecides(l.attempts, q);
  }

  /** Two members with empty pipelines whom no drop misleads agree on who is there. */
  lemma ReplicasAgree(cap: nat, s: State, c: Conn, d: Conn)
    requires Reachable(cap, s) && IsMember(s, c) && IsMember(s, d) && Drained(s, c) && Drained(s, d)
    requires forall q :: !Misled(s.links[c].attempts, q) && !Misled(s.links[d].attempts, q)
    ensures s.links[c].view + {s.links[c].id} == s.links[d].view + {s.links[d].id}
  {
    DrainedAgreement(cap, s, c);
    DrainedAgreement(cap, s, d);
  }

  /** The history of c's channel and what is in hand, where an attempt counts as kept if the client has
      processed its message: what was dropped or is still on its way has not got through. */
  ghost function Reached(s: State, c: Conn): seq<Attempt>
    requires c in s.links
  {
    Received(Completed(s, c), |s.links[c].delivered|)
  }

  lemma ReachedParts(cap: nat, s: State, c: Conn)
    requires Reachable(cap, s) && c in s.links
    ensures Offered(Reached(s, c)) == Offered(Completed(s, c))
    ensures Enqueued(Reached(s, c)) == s.links[c].delivered
  {
    var l := s.links[c];
    LinkOf(cap, s, c);
    CompletedParts(s, c);
    ReceivedParts(Completed(s, c), |l.delivered|);
    ConcatAssoc(l.delivered, Undelivered(l), InHand(s, c));
  }

  /** Accuracy about one ID, exactly and at any time: the client is wrong about q if and only if the
      latest message about q has not reached it and contradicts the latest one that has. */
  lemma LatestFactAccuracy(cap: nat, s: State, c: Conn, q: Id)
    requires Reachable(cap, s) && IsMember(s, c)
    ensures (q in s.links[c].view <==> q in Others(s, c)) <==> !Misled(Reached(s, c), q)
    ensures q in s.links[c].view <==> KeptPresent(Reached(s, c), q)
    ensures q in Others(s, c) <==> MeantPresent(Reached(s, c), q)
  {
    LinkOf(cap, s, c);
    IntendedIsTruth(cap, s, c);
    ReachedParts(cap, s, c);
    KeptDecides(Reached(s, c), q);
    MeantDecides(Reached(s, c), q);
    WrongExactlyIfMisled(Reached(s, c), q);
  }

  // ---------- Conservation ----------

  /** Every message that entered a channel is processed, on its way, or still queued: none is lost,
      duplicated or reordered, also after the channel was closed. The client's map is the replay
      of what it processed. */
  lemma ChannelConservation(cap: nat, s: State, c: Conn)
    requires Reachable(cap, s) && c in s.links
    ensures var l := s.links[c];
            && l.delivered + l.wire + l.inflight + l.queue == Enqueued(l.attempts)
            && |l.inflight| <= 1
            && l.view == Replay({}, l.delivered)
  {
    var l := s.links[c];
    LinkOf(cap, s, c);
    assert l.delivered + (l.wire + l.inflight + l.queue) == l.delivered + l.wire + l.inflight + l.queue;
  }

  lemma {:induction false} DroppedBehind(cap: nat, a: seq<Attempt>, i: nat)
    requires DropsWhenFull(cap, a) && i < |a| && !a[i].ok
    ensures |Enqueued(a[..i])| >= cap
  {
    if i < |a| - 1 {
      assert Front(a)[..i] == a[..i];
      DroppedBehind(cap, Front(a), i);
    }
  }

  // ---------- Every attempt in its moment ----------

  lemma {:induction false} HistoryGrows(cap: nat, s: State, acts: seq<Action>, t: State, c: Conn)
    requires Run(cap, s, acts, t) && c in s.links
    ensures c in t.links && s.links[c].attempts <= t.links[c].attempts
    decreases |acts|
  {
    if acts != [] {
      AttemptStep(cap, s, acts[0], c);
      HistoryGrows(cap, Step(cap, s, acts[0]), acts[1..], t, c);
    }
  }

  /** A step makes at most one attempt on c's channel, and keeps the message exactly when there is room. */
  lemma AttemptStep(cap: nat, s: State, a: Action, c: Conn)
    requires Enabled(cap, s, a) && c in s.links
    ensures c in Step(cap, s, a).links
    ensures var l, l' := s.links[c], Step(cap, s, a).links[c];
            || l'.attempts == l.attempts
            || (l'.attempts != [] && Front(l'.attempts) == l.attempts && (Last(l'.attempts).ok <==> |l.queue| < cap))
  {
    if a.Local? && a.c == c {
      LocalAttempts(s.links[c], a.act);
    }
  }

  lemma LocalAttempts(l: Link, act: LocalAction)
    requires LocalEnabled(l, act)
    ensures LocalStep(l, act).attempts == l.attempts
  {
  }

  /** c's channel just before attempt i: the attempt was kept if and only if there was room. */
  ghost predicate Moment(cap: nat, s: State, t: State, c: Conn, i: nat, u: State) {
    && Reaches(cap, s, u) && Reaches(cap, u, t) && c in u.links
    && c in t.links && i < |t.links[c].attempts|
    && u.links[c].attempts == t.links[c].attempts[..i]
    && (t.links[c].attempts[i].ok <==> |u.links[c].queue| < cap)
  }

  lemma MomentIsNow(cap: nat, s: State, acts: seq<Action>, t: State, c: Conn, i: nat)
    requires acts != [] && Run(cap, s, acts, t) && c in s.links && |s.links[c].attempts| <= i
    requires c in Step(cap, s, acts[0]).links && |Step(cap, s, acts[0]).links[c].attempts| > i
    ensures Moment(cap, s, t, c, i, s)
  {
    var n := Step(cap, s, acts[0]);
    AttemptStep(cap, s, acts[0], c);
    HistoryGrows(cap, n, acts[1..], t, c);
    ReachesRefl(cap, s);
    FirstGrowth(s.links[c].attempts, n.links[c].attempts, t.links[c].attempts, i);
  }

  lemma FirstGrowth<T>(a: seq<T>, b: seq<T>, c: seq<T>, i: nat)
    requires b != [] && Front(b) == a && b <= c && |a| <= i < |b|
    ensures i < |c| && c[..i] == a && c[i] == Last(b)
  {
  }

  lemma {:induction false} MomentOf(cap: nat, s: State, acts: seq<Action>, t: State, c: Conn, i: nat) returns (u: State)
    requires Run(cap, s, acts, t) && c in t.links && i < |t.links[c].attempts|
    requires c in s.links ==> |s.links[c].attempts| <= i
    ensures Moment(cap, s, t, c, i, u)
    decreases |acts|
  {
    var n := Step(cap, s, acts[0]);
    assert c in s.links || c !in n.links || n.links[c].attempts == [];
    if c in n.links && |n.links[c].attempts| > i {
      MomentIsNow(cap, s, acts, t, c, i);
      u := s;
    } else {
      u := MomentOf(cap, n, acts[1..], t, c, i);
      ReachesStep(cap, s, acts[0]);
      ReachesTrans(cap, s, n, u);
    }
  }

  /** A message is dropped exactly when the channel is full: for every attempt in a channel's history the
      run went through a state in which that attempt was next, and it was kept if and only if there was
      room in that state. So a drop has cap kept messages before it, and the first cap messages offered
      to any connection are all kept. */
  lemma KeptIffRoom(cap: nat, s: State, c: Conn, i: nat)
    requires Reachable(cap, s) && c in s.links && i < |s.links[c].attempts|
    ensures exists u :: Moment(cap, INIT, s, c, i, u)
    ensures !s.links[c].attempts[i].ok ==> |Enqueued(s.links[c].attempts[..i])| >= cap && i >= cap
  {
    var acts :| Run(cap, INIT, acts, s);
    var u := MomentOf(cap, INIT, acts, s, c, i);
    if !s.links[c].attempts[i].ok {
      LinkOf(cap, s, c);
      DroppedBehind(cap, s.links[c].attempts, i);
      EnqueuedSize(s.links[c].attempts[..i]);
    }
  }

  // ---------- Submissions ----------

  /** Each handled submission has, towards each connection, exactly the outcome the routing demands: one
      send to its target, one error reply to a sender that is present, one send to each member, or
      nothing at all when both ends are absent. So has each other event but c's own registration. */
  lemma SubmissionOutcome(cap: nat, s: State, k: nat, c: Conn)
    requires Reachable(cap, s) && c in s.links && k < |s.log|
    requires !(s.log[k].Reg? && s.log[k].c == c)
    ensures s.log[k].Post? ==>
              s.log[k].msg.Signal? && s.log[k].c in s.links && s.log[k].msg.from == s.links[s.log[k].c].id
    ensures SendsAt(s, c, k) == Hears(Members(s.log[..k]), s.log[k], k, c, s.links[c].id)
  {
    EventOf(cap, s, k);
    TailAtEvent(s.log, c, s.links[c].id, k);
    if IsSettled(s, c) {
      SettledHistory(cap, s, c);
      SettledAtEvent(s, c, k);
    } else {
      UnsettledAtEvent(cap, s, c, k);
    }
  }

  /** The sends that event k caused towards c, counting one in the hub's hand. */
  function SendsAt(s: State, c: Conn, k: nat): seq<Note>
    requires c in s.links
  {
    AtEvent(Notes(s.links[c].attempts) + OwedTo(s, c), k)
  }

  /** A targeted submission causes exactly one send on the whole server, to the target if it was a member
      and otherwise back to the sender if that was one; with both absent it causes none. */
  lemma TargetedExactlyOnce(cap: nat, s: State, k: nat)
    requires Reachable(cap, s) && k < |s.log| && s.log[k].Post? && s.log[k].msg.Signal? && s.log[k].msg.to != ""
    ensures var m, msg := Members(s.log[..k]), s.log[k].msg;
            var receiver := if msg.to in m then msg.to else msg.from;
            if receiver in m then
              && m[receiver] in s.links
              && SendsAt(s, m[receiver], k) == [Note(k, if msg.to in m then msg else PeerNotFound(msg.from, msg.to))]
              && forall d :: d in s.links && d != m[receiver] ==> SendsAt(s, d, k) == []
            else forall d :: d in s.links ==> SendsAt(s, d, k) == []
  {
    var m, msg := Members(s.log[..k]), s.log[k].msg;
    var receiver := if msg.to in m then msg.to else msg.from;
    if receiver in m {
      var i := HoldsRegistered(s.log[..k], m[receiver], receiver);
      EventOf(cap, s, i);
    }
    forall d | d in s.links
      ensures SendsAt(s, d, k) == Hears(m, s.log[k], k, d, s.links[d].id)
    {
      SubmissionOutcome(cap, s, k, d);
    }
    EventOf(cap, s, k);
  }

  /** A submission without a target goes once to every member, its sender included; a registration and an
      unregistration are announced once to every other member; and to nobody else. */
  lemma BroadcastOutcome(cap: nat, s: State, k: nat, d: Conn)
    requires Reachable(cap, s) && d in s.links && k < |s.log|
    ensures var e, dId, was := s.log[k], s.links[d].id, Holds(Members(s.log[..k]), s.links[d].id, d);
            && (e.Post? && e.msg.Signal? && e.msg.to == "" ==> SendsAt(s, d, k) == if was then [Note(k, e.msg)] else [])
            && (e.Reg? && e.c != d ==>
                  SendsAt(s, d, k) == if was && dId != e.id then [Note(k, Joined(e.id))] else [])
            && (e.Unreg? ==> SendsAt(s, d, k) == if was && dId != e.id then [Note(k, Left(e.id))] else [])
  {
    if !(s.log[k].Reg? && s.log[k].c == d) {
      SubmissionOutcome(cap, s, k, d);
    }
  }

  lemma UnsettledAtEvent(cap: nat, s: State, c: Conn, k: nat)
    requires Reachable(cap, s) && c in s.links && !IsSettled(s, c)
    requires k < |s.log| && !(s.log[k].Reg? && s.log[k].c == c)
    ensures AtEvent(Notes(s.links[c].attempts) + OwedTo(s, c), k) == []
    ensures Tail(s.log, c, s.links[c].id) == []
  {
    var l := s.links[c];
    HistoryOf(cap, s, c);
    OwedNone(cap, s, c);
    assert Notes(l.attempts) + [] == Notes(l.attempts);
    AtEventNone(Notes(l.attempts), k);
  }

  /** Apart from its own registration, a settled connection hears of each event what the log owes it. */
  lemma SettledAtEvent(s: State, c: Conn, k: nat)
    requires IsSettled(s, c) && Welcomed(s.log, c, s.links[c].id, s.links[c].attempts)
    requires Notes(s.links[c].attempts[2..]) + OwedTo(s, c) == Tail(s.log, c, s.links[c].id)
    requires k != s.links[c].attempts[0].at
    ensures AtEvent(Notes(s.links[c].attempts) + OwedTo(s, c), k) == AtEvent(Tail(s.log, c, s.links[c].id), k)
  {
    HeadIsSilent(s.links[c].attempts, OwedTo(s, c), k);
  }

  lemma HeadIsSilent(a: seq<Attempt>, owed: seq<Note>, k: nat)
    requires |a| >= 2 && a[0].at != k && a[1].at != k
    ensures AtEvent(Notes(a) + owed, k) == AtEvent(Notes(a[2..]) + owed, k)
  {
    var head := Notes(a[..2]);
    assert Notes(a) == head + Notes(a[2..]);
    assert Notes(a) + owed == head + (Notes(a[2..]) + owed);
    AtEventConcat(head, Notes(a[2..]) + owed, k);
    AtEventNone(head, k);
  }

  lemma OwedNone(cap: nat, s: State, c: Conn)
    requires Reachable(cap, s) && c in s.links && !IsSettled(s, c)
    ensures OwedTo(s, c) == []
  {
    assert RosterOk(s) && PlaceOk(s) by { ReachableInv(cap, s); }
  }

  // ---------- Signals ----------

  /** No other connection uses the ID of c. */
  ghost predicate UniqueId(s: State, c: Conn) {
    c in s.links && forall d :: d in s.links && s.links[d].id == s.links[c].id ==> d == c
  }

  lemma LogStamps(cap: nat, s: State, a: Conn)
    requires Reachable(cap, s) && UniqueId(s, a)
    ensures StampedAs(s.log, a, s.links[a].id)
  {
    forall i | 0 <= i < |s.log| && s.log[i].Post?
      ensures s.log[i].msg.Signal? && (s.log[i].msg.from == s.links[a].id <==> s.log[i].c == a)
    {
      EventOf(cap, s, i);
    }
  }

  lemma LogOwnId(cap: nat, s: State, b: Conn)
    requires Reachable(cap, s) && b in s.links
    ensures OwnId(s.log, b, s.links[b].id)
  {
    forall i | 0 <= i < |s.log| && s.log[i].Reg? && s.log[i].c == b
      ensures s.log[i].id == s.links[b].id
    {
      EventOf(cap, s, i);
    }
  }

  lemma WelcomeHasNoSignals(id: Id, listing: seq<Id>, from: Id)
    ensures SignalsFrom(Welcome(id, listing), from) == []
  {
    var w := Welcome(id, listing);
    assert Front(w) == [Registered(id)] && Front([Registered(id)]) == [];
    assert SignalsFrom([Registered(id)], from) == [];
  }

  /** What b is offered from a is exactly what a submitted for b while b was a member. */
  lemma OfferedSignals(cap: nat, s: State, a: Conn, b: Conn)
    requires Reachable(cap, s) && UniqueId(s, a) && IsSettled(s, b)
    ensures SignalsFrom(Offered(Completed(s, b)), s.links[a].id) == PostsWhilePresent(s.log, a, b, s.links[b].id)
  {
    var aId, bId := s.links[a].id, s.links[b].id;
    OfferedIsOwed(cap, s, b);
    LogStamps(cap, s, a);
    LogOwnId(cap, s, b);
    TailSignals(s.log, a, aId, b, bId);
    var w := Welcome(bId, s.links[b].attempts[1].msg.ids);
    SignalsFromConcat(w, Texts(Tail(s.log, b, bId)), aId);
    WelcomeHasNoSignals(bId, s.links[b].attempts[1].msg.ids, aId);
    assert [] + PostsWhilePresent(s.log, a, b, bId) == PostsWhilePresent(s.log, a, b, bId);
  }

  // ---------- From the client to the hub ----------

  lemma IdsStay(cap: nat, s: State, a: Action, d: Conn)
    requires Enabled(cap, s, a) && d in s.links
    ensures d in Step(cap, s, a).links && Step(cap, s, a).links[d].id == s.links[d].id
  {
  }

  lemma {:induction false} IdsStayInRun(cap: nat, s: State, acts: seq<Action>, t: State, d: Conn)
    requires Run(cap, s, acts, t) && d in s.links
    ensures d in t.links && t.links[d].id == s.links[d].id
    decreases |acts|
  {
    if acts != [] {
      IdsStay(cap, s, acts[0], d);
      IdsStayInRun(cap, Step(cap, s, acts[0]), acts[1..], t, d);
    }
  }

  /** What a connection's read pump has handed over, and what it is about to. */
  function Taken(s: State, c: Conn): seq<Message> {
    if c !in s.links then []
    else s.links[c].submitted + (if s.links[c].reader.RSubmitting? then [s.links[c].reader.msg] else [])
  }

  lemma TakenLocal(cap: nat, l: Link, act: LocalAction)
    requires LinkOk(cap, l) && LocalEnabled(l, act)
    ensures LocalStep(l, act).submitted == l.submitted
    ensures act.Read? ==> l.reader.RReading? && LocalStep(l, act).reader == RSubmitting(Signal(l.id, act.to, act.data))
    ensures !act.Read? ==> (LocalStep(l, act).reader == l.reader || (!l.reader.RSubmitting? && !LocalStep(l, act).reader.RSubmitting?))
  {
  }

  lemma TakenStep(cap: nat, s: State, a: Action, c: Conn, id: Id)
    requires LinksOk(cap, s) && Enabled(cap, s, a) && (c in s.links ==> s.links[c].id == id)
    ensures Taken(Step(cap, s, a), c) == Taken(s, c) + SentIn(a, c, id)
  {
    if a.Local? && a.c == c {
      TakenLocal(cap, s.links[c], a.act);
      assert s.links[c].submitted + [] == s.links[c].submitted;
    } else {
      TakenOther(cap, s, a, c);
      assert Taken(s, c) + [] == Taken(s, c);
    }
  }

  lemma TakenOther(cap: nat, s: State, a: Action, c: Conn)
    requires Enabled(cap, s, a) && !(a.Local? && a.c == c)
    ensures Taken(Step(cap, s, a), c) == Taken(s, c)
  {
    if a.Submit? && a.c == c {
      assert s.links[c].submitted + [s.links[c].reader.msg] + [] == s.links[c].submitted + [s.links[c].reader.msg];
    }
  }

  lemma {:induction false} TakenInRun(cap: nat, s: State, acts: seq<Action>, t: State, c: Conn)
    requires Inv(cap, s) && Run(cap, s, acts, t) && c in t.links
    ensures Taken(t, c) == Taken(s, c) + SentBy(acts, c, t.links[c].id)
    decreases |acts|
  {
    var id := t.links[c].id;
    if acts == [] {
      assert Taken(s, c) + [] == Taken(s, c);
    } else {
      var n := Step(cap, s, acts[0]);
      if c in s.links { IdsStayInRun(cap, s, acts, t, c); }
      TakenStep(cap, s, acts[0], c, id);
      StepKeeps(cap, s, acts[0]);
      TakenInRun(cap, n, acts[1..], t, c);
      ConcatAssoc(Taken(s, c), SentIn(acts[0], c, id), SentBy(acts[1..], c, id));
    }
  }

  /** In every run the hub is handed exactly what the client sent, in order, with only the sender stamp
      added; at most the last message is still in the read pump. */
  lemma SubmittedIsSent(cap: nat, acts: seq<Action>, s: State, c: Conn)
    requires Run(cap, INIT, acts, s) && c in s.links
    ensures var l := s.links[c];
            SentBy(acts, c, l.id) == l.submitted + (if l.reader.RSubmitting? then [l.reader.msg] else [])
  {
    TakenInRun(cap, INIT, acts, s, c);
    assert [] + SentBy(acts, c, s.links[c].id) == SentBy(acts, c, s.links[c].id);
  }

  /** Pairwise FIFO, from client to client: the signals from a in b's channel, recognised by the sender
      stamp, are an order-preserving selection, without duplicates, of what a's client sent in the run to b
      or to everyone; so are those b's client has processed. With what is in hand for b they are exactly
      the submissions made while b was a member, if and only if none of them was dropped. */
  lemma PairwiseFifo(cap: nat, acts: seq<Action>, s: State, a: Conn, b: Conn)
    requires Run(cap, INIT, acts, s) && UniqueId(s, a) && IsSettled(s, b)
    ensures var aId, l := s.links[a].id, s.links[b];
            var sent := AddressedTo(SentBy(acts, a, aId), l.id);
            && Subsequence(SignalsFrom(Enqueued(l.attempts), aId), sent)
            && Subsequence(SignalsFrom(l.delivered, aId), sent)
            && Subsequence(PostsWhilePresent(s.log, a, b, l.id), sent)
            && (SignalsFrom(Enqueued(l.attempts) + InHand(s, b), aId) == PostsWhilePresent(s.log, a, b, l.id)
                <==> SignalsKept(l.attempts, aId))
  {
    var aId, l := s.links[a].id, s.links[b];
    var submitted, sent := AddressedTo(s.links[a].submitted, l.id), AddressedTo(SentBy(acts, a, aId), l.id);
    FifoSelection(cap, s, a, b);
    FifoComplete(cap, s, a, b);
    SubmittedIsSent(cap, acts, s, a);
    AddressedToMore(s.links[a], l.id);
    HistoryOf(cap, s, a);
    PresentSubsequence(s.log, a, b, l.id);
    SubsequenceTrans(SignalsFrom(Enqueued(l.attempts), aId), submitted, sent);
    SubsequenceTrans(SignalsFrom(l.delivered, aId), submitted, sent);
    SubsequenceTrans(PostsWhilePresent(s.log, a, b, l.id), submitted, sent);
  }

  lemma AddressedToMore(l: Link, r: Id)
    ensures Subsequence(AddressedTo(l.submitted, r),
                        AddressedTo(l.submitted + (if l.reader.RSubmitting? then [l.reader.msg] else []), r))
  {
    SubsequenceRefl(AddressedTo(l.submitted, r));
    if l.reader.RSubmitting? {
      assert Front(l.submitted + [l.reader.msg]) == l.submitted;
      SubsequenceWiden(AddressedTo(l.submitted, r), AddressedTo(l.submitted, r), l.reader.msg);
      assert AddressedTo(l.submitted, r) + [] == AddressedTo(l.submitted, r);
    } else {
      assert l.submitted + [] == l.submitted;
    }
  }

  lemma FifoSelection(cap: nat, s: State, a: Conn, b: Conn)
    requires Reachable(cap, s) && UniqueId(s, a) && IsSettled(s, b)
    ensures var aId, l, sent := s.links[a].id, s.links[b], AddressedTo(s.links[a].submitted, s.links[b].id);
            && Subsequence(SignalsFrom(Enqueued(l.attempts), aId), sent)
            && Subsequence(SignalsFrom(l.delivered, aId), sent)
  {
    var aId, l := s.links[a].id, s.links[b];
    var got, offered := Enqueued(l.attempts), Offered(Completed(s, b));
    var present := PostsWhilePresent(s.log, a, b, l.id);
    var sent := AddressedTo(s.links[a].submitted, l.id);
    HistoryOf(cap, s, a);
    OfferedSignals(cap, s, a, b);
    CompletedParts(s, b);
    PresentSubsequence(s.log, a, b, l.id);
    EnqueuedSubsequence(l.attempts);
    PrefixSubsequence(Offered(l.attempts), offered);
    SubsequenceTrans(got, Offered(l.attempts), offered);
    SignalsFromSubsequence(got, offered, aId);
    SubsequenceTrans(SignalsFrom(got, aId), present, sent);
    LinkOf(cap, s, b);
    PrefixSubsequence(l.delivered, got);
    SignalsFromSubsequence(l.delivered, got, aId);
    SubsequenceTrans(SignalsFrom(l.delivered, aId), SignalsFrom(got, aId), sent);
  }

  lemma FifoComplete(cap: nat, s: State, a: Conn, b: Conn)
    requires Reachable(cap, s) && UniqueId(s, a) && IsSettled(s, b)
    ensures var aId, l := s.links[a].id, s.links[b];
            SignalsFrom(Enqueued(l.attempts) + InHand(s, b), aId) == PostsWhilePresent(s.log, a, b, l.id)
            <==> SignalsKept(l.attempts, aId)
  {
    var aId, l := s.links[a].id, s.links[b];
    OfferedSignals(cap, s, a, b);
    CompletedParts(s, b);
    SignalsFromConcat(Offered(l.attempts), InHand(s, b), aId);
    SignalsFromConcat(Enqueued(l.attempts), InHand(s, b), aId);
    AllSignalsExactlyIfKept(l.attempts, aId);
    SameSuffix(SignalsFrom(Enqueued(l.attempts), aId), SignalsFrom(Offered(l.attempts), aId), SignalsFrom(InHand(s, b), aId));
  }

  /** The message presents q as a member. */
  predicate Announces(m: Message, q: Id) {
    (m.Joined? && m.id == q) || (m.PeerList? && q in m.ids)
  }

  lemma AttemptInTail(cap: nat, s: State, c: Conn, i: nat)
    requires Reachable(cap, s) && IsSettled(s, c) && 2 <= i < |s.links[c].attempts|
    ensures var k, l := s.links[c].attempts[i].at, s.links[c];
            && k < |s.log|
            && Notes(l.attempts[2..i]) == Tail(s.log[..k], c, l.id)
            && Hears(Members(s.log[..k]), s.log[k], k, c, l.id) == [Note(k, l.attempts[i].msg)]
  {
    var l := s.links[c];
    SettledHistory(cap, s, c);
    NoteAt(l.attempts, OwedTo(s, c), i);
    TailPrefix(s.log, c, l.id, i - 2);
  }

  lemma NoteAt(a: seq<Attempt>, owed: seq<Note>, i: nat)
    requires 2 <= i < |a|
    ensures var all := Notes(a[2..]) + owed;
            i - 2 < |all| && all[i - 2] == Note(a[i].at, a[i].msg) && all[..i - 2] == Notes(a[2..i])
  {
  }

  /** Announcement causality: if no membership message to c was dropped, a signal that q submitted
      while it was a member is preceded in c's channel by a list or a joined message naming q, and
      a client that has processed everything before the signal still lists q. */
  lemma AnnouncedBeforeSignal(cap: nat, s: State, c: Conn, i: nat, q: Conn) returns (j: nat)
    requires Reachable(cap, s) && IsSettled(s, c) && q in s.links && q != c
    requires DroppedMembership(s.links[c].attempts) == 0
    requires i < |s.links[c].attempts| && s.links[c].attempts[i].msg.Signal?
    requires var k := s.links[c].attempts[i].at;
             k < |s.log| && s.log[k].c == q && Holds(Members(s.log[..k]), s.links[q].id, q)
    ensures j < i && s.links[c].attempts[j].ok && Announces(s.links[c].attempts[j].msg, s.links[q].id)
    ensures s.links[q].id in Replay({}, Enqueued(s.links[c].attempts[..i]))
  {
    assert i >= 2 by { SettledHistory(cap, s, c); }
    ListedAtSignal(cap, s, c, i, q);
    j := LatestAnnouncement(s.links[c].attempts, i, s.links[q].id);
  }

  /** What has been offered before the signal presents the sender. */
  lemma ListedAtSignal(cap: nat, s: State, c: Conn, i: nat, q: Conn)
    requires Reachable(cap, s) && IsSettled(s, c) && q in s.links && q != c
    requires 2 <= i < |s.links[c].attempts| && s.links[c].attempts[i].msg.Signal?
    requires var k := s.links[c].attempts[i].at;
             k < |s.log| && s.log[k].c == q && Holds(Members(s.log[..k]), s.links[q].id, q)
    ensures s.links[q].id in Replay({}, Offered(s.links[c].attempts[..i]))
  {
    var a, k := s.links[c].attempts, s.links[c].attempts[i].at;
    AttemptInTail(cap, s, c, i);
    SignalIsPost(Members(s.log[..k]), s.log[k], k, c, s.links[c].id, a[i].msg, q);
    StoredUnder(cap, s, k, c);
    KnownBefore(cap, s, c, i);
  }

  lemma LatestAnnouncement(a: seq<Attempt>, i: nat, q: Id) returns (j: nat)
    requires i <= |a| && DroppedMembership(a) == 0 && q in Replay({}, Offered(a[..i]))
    ensures j < i && a[j].ok && Announces(a[j].msg, q)
    ensures q in Replay({}, Enqueued(a[..i]))
  {
    DroppedPrefix(a, i);
    NothingDropped(a[..i]);
    j := KeptAnnouncement(a[..i], q);
    assert a[..i][j] == a[j];
  }

  lemma KeptAnnouncement(a: seq<Attempt>, q: Id) returns (j: nat)
    requires DroppedMembership(a) == 0 && q in Replay({}, Offered(a))
    ensures j < |a| && a[j].ok && Announces(a[j].msg, q)
  {
    assert MeantPresent(a, q) by { MeantDecides(a, q); }
    j :| LatestAttempt(a, j, q) && !a[j].msg.Left?;
    MembershipKept(a);
  }

  lemma {:induction false} DroppedPrefix(a: seq<Attempt>, i: nat)
    requires i <= |a|
    ensures DroppedMembership(a[..i]) <= DroppedMembership(a)
  {
    if i < |a| {
      assert Front(a)[..i] == a[..i];
      DroppedPrefix(Front(a), i);
    } else {
      assert a[..i] == a;
    }
  }

  /** Just before attempt i, what c has been offered is what it must know at that event. */
  lemma KnownBefore(cap: nat, s: State, c: Conn, i: nat)
    requires Reachable(cap, s) && IsSettled(s, c) && 2 <= i < |s.links[c].attempts|
    requires var k := s.links[c].attempts[i].at;
             k < |s.log| && Holds(Members(s.log[..k]), s.links[c].id, c)
    ensures Replay({}, Offered(s.links[c].attempts[..i]))
            == Members(s.log[..s.links[c].attempts[i].at]).Keys - {s.links[c].id}
  {
    var l := s.links[c];
    var a := l.attempts;
    var before := s.log[..a[i].at];
    SettledHistory(cap, s, c);
    AttemptInTail(cap, s, c, i);
    var r := HoldsRegistered(before, c, l.id);
    assert s.log[r] == Reg(c, l.id) && r == a[0].at;
    assert before[..r] == s.log[..r];
    assert forall j :: 0 <= j < |before| ==> before[j] == s.log[j];
    KnowledgeIsMembership(before, c, l.id, r, a[1].msg.ids);
    OfferedSplit(a[..i]);
    assert a[..i][2..] == a[2..i];
  }

  lemma SignalIsPost(m: Roster, e: Event, k: nat, c: Conn, id: Id, msg: Message, q: Conn)
    requires Hears(m, e, k, c, id) == [Note(k, msg)] && msg.Signal? && e.c == q
    ensures e == Post(q, msg)
    ensures Holds(m, id, c) || (msg.to in m && m[msg.to] == c)
  {
  }

  lemma StoredUnder(cap: nat, s: State, k: nat, c: Conn)
    requires Reachable(cap, s) && c in s.links && k <= |s.log|
    ensures forall x :: x in Members(s.log[..k]) && Members(s.log[..k])[x] == c ==> x == s.links[c].id
  {
    LogOwnId(cap, s, c);
    StoredUnderOwnId(s.log[..k], c, s.links[c].id);
  }

  // ---------- The life of a connection ----------

  /** The log tells whether c has returned and whether its channel is closed. */
  ghost predicate Lives(s: State, c: Conn) {
    c in s.links ==>
      && (s.links[c].phase.Returned? <==> HasLeft(s.log, c))
      && (s.links[c].closed <==> HasRemoved(s.log, c))
  }

  lemma LivesStep(cap: nat, s: State, a: Action, c: Conn)
    requires StateOk(s) && Enabled(cap, s, a) && Lives(s, c)
    requires a.Local? ==> LinkOk(cap, s.links[a.c])
    requires a.Unregister? ==> !s.links[a.c].closed
    ensures Lives(Step(cap, s, a), c)
  {
    match a
    case Dial(d, id) => if d == c { LivesDialed(s, c, id); }
    case Local(d, act) => if d == c { LocalStanding(cap, s.links[d], act); }
    case Register(d) => LivesRegistered(cap, s, d, c);
    case Unregister(d) => LivesUnregistered(cap, s, d, c);
    case Submit(d) => LivesSubmitted(cap, s, d, c);
    case _ =>
  }

  lemma LivesRegistered(cap: nat, s: State, d: Conn, c: Conn)
    requires s.peers == Members(s.log) && Enabled(cap, s, Register(d)) && Lives(s, c)
    ensures Lives(Step(cap, s, Register(d)), c)
  {
    LivesLogged(s, Reg(d, s.links[d].id), c);
  }

  lemma LivesSubmitted(cap: nat, s: State, d: Conn, c: Conn)
    requires s.peers == Members(s.log) && Enabled(cap, s, Submit(d)) && Lives(s, c)
    ensures Lives(Step(cap, s, Submit(d)), c)
  {
    LivesLogged(s, Post(d, s.links[d].reader.msg), c);
  }

  lemma LivesUnregistered(cap: nat, s: State, d: Conn, c: Conn)
    requires s.peers == Members(s.log) && Enabled(cap, s, Unregister(d)) && !s.links[d].closed && Lives(s, c)
    ensures Lives(Step(cap, s, Unregister(d)), c)
  {
    LivesLogged(s, Unreg(d, s.links[d].id), c);
  }

  lemma LivesDialed(s: State, c: Conn, id: Id)
    requires StateOk(s) && c !in s.links
    ensures Lives(Put(s, c, NewLink(id)), c)
  {
    forall k: nat
      ensures !LeavesAt(s.log, k, c)
    {
      assert k < |s.log| ==> EventOk(s.links, s.log[k]);
    }
  }

  lemma LivesLogged(s: State, e: Event, c: Conn)
    requires s.peers == Members(s.log)
    ensures HasLeft(s.log + [e], c) <==> HasLeft(s.log, c) || (e.Unreg? && e.c == c)
    ensures HasRemoved(s.log + [e], c) <==> HasRemoved(s.log, c) || (e.Unreg? && e.c == c && e.id in s.peers)
  {
    HasLeftSnoc(s.log, e, c);
    HasRemovedSnoc(s.log, e, c);
  }

  lemma StepFacts(cap: nat, s: State, a: Action)
    requires LinksOk(cap, s) && Enabled(cap, s, a)
    ensures a.Local? ==> LinkOk(cap, s.links[a.c])
    ensures a.Unregister? ==> !s.links[a.c].closed
  {
    if a.Unregister? {
      assert LinkOk(cap, s.links[a.c]);
    }
  }

  lemma {:induction false} LivesRun(cap: nat, s: State, acts: seq<Action>, t: State, c: Conn)
    requires Inv(cap, s) && Run(cap, s, acts, t) && Lives(s, c)
    ensures Lives(t, c)
    decreases |acts|
  {
    if acts != [] {
      StepFacts(cap, s, acts[0]);
      LivesStep(cap, s, acts[0], c);
      StepKeeps(cap, s, acts[0]);
      LivesRun(cap, Step(cap, s, acts[0]), acts[1..], t, c);
    }
  }

  /** Exact lifetime, for any IDs: a connection is a member exactly when its own registration is the last
      thing that happened under its ID; its handler has returned exactly when it unregistered; its channel
      is closed exactly when it unregistered while its ID was in the map, under whatever connection. */
  lemma Lifetime(cap: nat, s: State, c: Conn)
    requires Reachable(cap, s) && c in s.links
    ensures var l := s.links[c];
            && (IsMember(s, c) <==> exists k: nat :: LatestChange(s.log, k, l.id) && s.log[k] == Reg(c, l.id))
            && (l.phase.Returned? <==> HasLeft(s.log, c))
            && (l.closed <==> HasRemoved(s.log, c))
  {
    HistoryOf(cap, s, c);
    HoldsIsLatestChange(s.log, s.links[c].id, c);
    var acts :| Run(cap, INIT, acts, s);
    LivesRun(cap, INIT, acts, s, c);
  }

  lemma RegistrationLogged(cap: nat, s: State, c: Conn) returns (k: nat)
    requires Reachable(cap, s) && c in s.links && !s.links[c].phase.Dialing?
    ensures k < |s.log| && s.log[k] == Reg(c, s.links[c].id) && RegisteredOnlyAt(s.log, c, k)
  {
    HistoryOf(cap, s, c);
    k := if IsSettled(s, c) then s.links[c].attempts[0].at else |s.log| - 1;
  }

  /** With an ID of its own, a connection is a member from its registration to its unregistration. */
  lemma MemberWhileOpen(cap: nat, s: State, c: Conn)
    requires Reachable(cap, s) && UniqueId(s, c)
    ensures IsMember(s, c) <==> !s.links[c].phase.Dialing? && !s.links[c].phase.Returned?
  {
    var id := s.links[c].id;
    Lifetime(cap, s, c);
    assert RosterOk(s) by { ReachableInv(cap, s); }
    if !s.links[c].phase.Dialing? && !s.links[c].phase.Returned? {
      var k := RegistrationLogged(cap, s, c);
      forall j | k < j < |s.log|
        ensures !Changes(s.log[j], id)
      {
        EventOf(cap, s, j);
        assert !LeavesAt(s.log, j, c);
      }
      assert LatestChange(s.log, k, id);
    }
  }

  lemma {:induction false} UniqueBefore(cap: nat, s: State, acts: seq<Action>, t: State, c: Conn)
    requires Run(cap, s, acts, t) && UniqueId(t, c) && c in s.links
    ensures UniqueId(s, c)
    decreases |acts|
  {
    if acts != [] {
      IdsStay(cap, s, acts[0], c);
      UniqueBefore(cap, Step(cap, s, acts[0]), acts[1..], t, c);
      forall d | d in s.links && s.links[d].id == s.links[c].id
        ensures d == c
      {
        IdsStay(cap, s, acts[0], d);
      }
    }
  }

  lemma ClosedStep(cap: nat, s: State, a: Action, c: Conn)
    requires Reachable(cap, s) && Enabled(cap, s, a) && (c in s.links ==> UniqueId(s, c))
    requires c in s.links && s.links[c].phase.Returned? ==> s.links[c].closed
    ensures var t := Step(cap, s, a); c in t.links && t.links[c].phase.Returned? ==> t.links[c].closed
  {
    if c in s.links {
      MemberWhileOpen(cap, s, c);
      if !a.Unregister? { ReturnsByUnregistering(cap, s, a, c); }
    }
  }

  lemma ReturnsByUnregistering(cap: nat, s: State, a: Action, c: Conn)
    requires Enabled(cap, s, a) && c in s.links && !a.Unregister?
    ensures c in Step(cap, s, a).links
    ensures Step(cap, s, a).links[c].phase.Returned? ==> s.links[c].phase.Returned?
    ensures Step(cap, s, a).links[c].closed == s.links[c].closed
  {
  }

  lemma {:induction false} ClosedRun(cap: nat, s: State, acts: seq<Action>, t: State, c: Conn)
    requires Reachable(cap, s) && Run(cap, s, acts, t) && UniqueId(t, c)
    requires c in s.links && s.links[c].phase.Returned? ==> s.links[c].closed
    ensures t.links[c].phase.Returned? ==> t.links[c].closed
    decreases |acts|
  {
    if acts != [] {
      if c in s.links { UniqueBefore(cap, s, acts, t, c); }
      ClosedStep(cap, s, acts[0], c);
      ReachableStep(cap, s, acts[0]);
      ClosedRun(cap, Step(cap, s, acts[0]), acts[1..], t, c);
    }
  }

  /** With an ID of its own, a connection is a member exactly between its registration and its
      unregistration, and its channel is closed exactly afterwards. */
  lemma OwnIdLifetime(cap: nat, s: State, c: Conn)
    requires Reachable(cap, s) && UniqueId(s, c)
    ensures IsMember(s, c) <==> !s.links[c].phase.Dialing? && !s.links[c].phase.Returned?
    ensures s.links[c].closed <==> s.links[c].phase.Returned?
  {
    MemberWhileOpen(cap, s, c);
    LinkOf(cap, s, c);
    ReachesRefl(cap, INIT);
    var acts :| Run(cap, INIT, acts, s);
    ClosedRun(cap, INIT, acts, s, c);
  }

  // ---------- The pump handshake ----------

  /** `done` is received once: at most one of the two pumps completes its send on it. */
  lemma OneHandshake(cap: nat, s: State, c: Conn)
    requires Reachable(cap, s) && c in s.links
    ensures !(s.links[c].writer.WDone? && s.links[c].reader.RDone?)
    ensures s.links[c].phase.Unregistering? || s.links[c].phase.Returned? <==>
            s.links[c].writer.WDone? || s.links[c].reader.RDone?
  {
    ReachableInv(cap, s);
    assert LinkOk(cap, s.links[c]);
  }
}
