/** The sequential specification of the hub: the log of events in the order its loop
    received them determines the membership and, for every connection, the exact list
    of messages that must be offered to that connection's channel. */
module HubLog {
  import opened Messages
  import opened Replica

  /** What the hub's `select` received: a registration, an unregistration, or a message
      submitted by the connection's read pump. */
  datatype Event =
    | Reg(c: Conn, id: Id)
    | Unreg(c: Conn, id: Id)
    | Post(c: Conn, msg: Message)

  type Roster = map<Id, Conn>

  /** The entry for id is connection c. */
  predicate Holds(m: Roster, id: Id, c: Conn) {
    id in m && m[id] == c
  }

  /** The hub's map after one event; an entry is deleted by ID, whoever holds it. */
  function After(m: Roster, e: Event): Roster {
    match e
    case Reg(c, id) => m[id := c]
    case Unreg(_, id) => m - {id}
    case Post(_, _) => m
  }

  function Members(log: seq<Event>): Roster {
    if log == [] then map[] else After(Members(Front(log)), Last(log))
  }

  /** What connection c (with the given ID) must be offered because of event number k;
      m is the map before the event. */
  function Hears(m: Roster, e: Event, k: nat, c: Conn, id: Id): (r: seq<Note>)
    ensures |r| <= 1
    ensures forall n :: n in r ==> n.at == k
  {
    match e
    case Reg(_, newId) =>
      if Holds(After(m, e), id, c) && id != newId then [Note(k, Joined(newId))] else []
    case Unreg(_, oldId) =>
      if Holds(After(m, e), id, c) then [Note(k, Left(oldId))] else []
    case Post(_, msg) =>
      if !msg.Signal? then []
      else if msg.to == "" then
        if Holds(m, id, c) then [Note(k, msg)] else []
      else if msg.to in m then
        if m[msg.to] == c then [Note(k, msg)] else []
      else if Holds(m, msg.from, c) then [Note(k, PeerNotFound(msg.from, msg.to))]
      else []
  }

  /** Everything connection c must be offered after its own registration. */
  function Tail(log: seq<Event>, c: Conn, id: Id): seq<Note> {
    if log == [] then []
    else Tail(Front(log), c, id) + Hears(Members(Front(log)), Last(log), |log| - 1, c, id)
  }

  ghost predicate RegisteredOnlyAt(log: seq<Event>, c: Conn, k: nat) {
    forall i :: 0 <= i < |log| && log[i].Reg? && log[i].c == c ==> i == k
  }

  lemma {:induction false} NeverRegistered(log: seq<Event>, c: Conn, id: Id)
    requires forall i :: 0 <= i < |log| ==> !(log[i].Reg? && log[i].c == c)
    ensures Tail(log, c, id) == []
    ensures forall x :: x in Members(log) ==> Members(log)[x] != c
  {
    if log != [] {
      var f := Front(log);
      assert forall i :: 0 <= i < |f| ==> f[i] == log[i];
      NeverRegistered(f, c, id);
    }
  }

  /** A connection in the map registered before, and under the ID it is stored at. */
  lemma {:induction false} HoldsRegistered(log: seq<Event>, c: Conn, id: Id) returns (k: nat)
    requires Holds(Members(log), id, c)
    ensures k < |log| && log[k] == Reg(c, id)
  {
    if Last(log) == Reg(c, id) {
      k := |log| - 1;
    } else {
      k := HoldsRegistered(Front(log), c, id);
    }
  }

  // ---------- Agreement: the log makes every member's knowledge exact ----------

  function Welcome(id: Id, listing: seq<Id>): seq<Message> {
    [Registered(id), PeerList(listing)]
  }

  /** A member that has seen its welcome and everything the log owes it knows exactly
      the other IDs in the map. No assumption is made on IDs being distinct. */
  lemma {:induction false} KnowledgeIsMembership(log: seq<Event>, c: Conn, id: Id, k: nat, listing: seq<Id>)
    requires k < |log| && log[k] == Reg(c, id) && RegisteredOnlyAt(log, c, k)
    requires IsListing(listing, Members(log[..k]).Keys - {id})
    requires Holds(Members(log), id, c)
    ensures Replay({}, Welcome(id, listing) + Texts(Tail(log, c, id))) == Members(log).Keys - {id}
  {
    var f, e := Front(log), Last(log);
    var w := Welcome(id, listing);
    assert forall i :: 0 <= i < |f| ==> f[i] == log[i];
    if k == |log| - 1 {
      KnowledgeAtStart(log, c, id, listing);
    } else {
      assert log[..k] == f[..k];
      assert RegisteredOnlyAt(f, c, k);
      KnowledgeIsMembership(f, c, id, k, listing);
      KnowledgeNext(log, c, id, w);
    }
  }

  lemma KnowledgeNext(log: seq<Event>, c: Conn, id: Id, w: seq<Message>)
    requires log != [] && Holds(Members(Front(log)), id, c) && Holds(Members(log), id, c)
    requires Replay({}, w + Texts(Tail(Front(log), c, id))) == Members(Front(log)).Keys - {id}
    ensures Replay({}, w + Texts(Tail(log, c, id))) == Members(log).Keys - {id}
  {
    var f, e := Front(log), Last(log);
    KnowledgeStep(Members(f), e, |log| - 1, c, id);
    KnowledgeExtends(w, Tail(f, c, id), Hears(Members(f), e, |log| - 1, c, id));
  }

  lemma ReplayWelcome(id: Id, listing: seq<Id>)
    ensures Replay({}, Welcome(id, listing)) == set x | x in listing
  {
    var w := Welcome(id, listing);
    var first := [Registered(id)];
    assert Front(first) == [];
    assert Replay({}, first) == {};
    assert Front(w) == first && Last(w) == PeerList(listing);
    assert Replay({}, w) == ApplyView(Replay({}, first), PeerList(listing));
  }

  lemma KnowledgeAtStart(log: seq<Event>, c: Conn, id: Id, listing: seq<Id>)
    requires log != [] && Last(log) == Reg(c, id) && RegisteredOnlyAt(log, c, |log| - 1)
    requires IsListing(listing, Members(Front(log)).Keys - {id})
    ensures Replay({}, Welcome(id, listing) + Texts(Tail(log, c, id))) == Members(log).Keys - {id}
  {
    var f, w := Front(log), Welcome(id, listing);
    assert forall i :: 0 <= i < |f| ==> f[i] == log[i];
    NeverRegistered(f, c, id);
    assert Tail(log, c, id) == [];
    assert w + [] == w;
    ReplayWelcome(id, listing);
    assert Members(log).Keys - {id} == Members(f).Keys - {id};
  }

  lemma KnowledgeExtends(w: seq<Message>, prior: seq<Note>, heard: seq<Note>)
    requires |heard| <= 1
    ensures Replay({}, w + Texts(prior + heard)) == Learn(Replay({}, w + Texts(prior)), heard)
  {
    TextsConcat(prior, heard);
    ReplayAfter(w, Texts(prior), heard);
  }

  lemma ReplayAfter(w: seq<Message>, texts: seq<Message>, heard: seq<Note>)
    requires |heard| <= 1
    ensures Replay({}, w + (texts + Texts(heard))) == Learn(Replay({}, w + texts), heard)
  {
    assert w + (texts + Texts(heard)) == (w + texts) + Texts(heard);
    ReplayConcat({}, w + texts, Texts(heard));
    ReplayHeard(Replay({}, w + texts), heard);
  }

  function Learn(v: View, heard: seq<Note>): View {
    if heard == [] then v else ApplyView(v, heard[0].msg)
  }

  lemma KnowledgeStep(m: Roster, e: Event, k: nat, c: Conn, id: Id)
    requires Holds(m, id, c) && Holds(After(m, e), id, c)
    ensures Learn(m.Keys - {id}, Hears(m, e, k, c, id)) == After(m, e).Keys - {id}
  {
    var before, after := m.Keys - {id}, After(m, e).Keys - {id};
    match e
    case Reg(_, x) => assert after == before + ({x} - {id});
    case Unreg(_, x) => assert after == before - {x};
    case Post(_, _) =>
  }

  lemma ReplayHeard(v: View, heard: seq<Note>)
    requires |heard| <= 1
    ensures Replay(v, Texts(heard)) == Learn(v, heard)
  {
    if heard != [] {
      assert Texts(heard) == [heard[0].msg] by { assert Texts(Front(heard)) == []; }
      assert Front([heard[0].msg]) == [];
    }
  }

  // ---------- One event, one outcome ----------

  function AtEvent(ns: seq<Note>, k: nat): seq<Note> {
    if ns == [] then []
    else AtEvent(Front(ns), k) + (if Last(ns).at == k then [Last(ns)] else [])
  }

  lemma {:induction false} AtEventSelects(ns: seq<Note>, k: nat)
    ensures IsSelection(AtEvent(ns, k), ns, (n: Note) => n.at == k)
  {
    if ns != [] {
      AtEventSelects(Front(ns), k);
      SelectionNext(AtEvent(Front(ns), k), Front(ns), Last(ns), (n: Note) => n.at == k);
      assert Front(ns) + [Last(ns)] == ns;
      assert AtEvent(Front(ns), k) + [] == AtEvent(Front(ns), k);
    }
  }

  lemma {:induction false} AtEventConcat(a: seq<Note>, b: seq<Note>, k: nat)
    ensures AtEvent(a + b, k) == AtEvent(a, k) + AtEvent(b, k)
  {
    if b == [] {
      assert a + b == a;
    } else {
      assert Front(a + b) == a + Front(b);
      AtEventConcat(a, Front(b), k);
    }
  }

  lemma {:induction false} TailBounded(log: seq<Event>, c: Conn, id: Id)
    ensures forall n :: n in Tail(log, c, id) ==> n.at < |log|
  {
    if log != [] {
      TailBounded(Front(log), c, id);
    }
  }

  lemma {:induction false} AtEventNone(ns: seq<Note>, k: nat)
    requires forall n :: n in ns ==> n.at != k
    ensures AtEvent(ns, k) == []
  {
    if ns != [] {
      assert Last(ns) in ns;
      AtEventNone(Front(ns), k);
    }
  }

  /** The tail holds, for each event, exactly what that event demands. */
  lemma {:induction false} TailAtEvent(log: seq<Event>, c: Conn, id: Id, k: nat)
    requires k < |log|
    ensures AtEvent(Tail(log, c, id), k) == Hears(Members(log[..k]), log[k], k, c, id)
  {
    var f := Front(log);
    var heard := Hears(Members(f), Last(log), |log| - 1, c, id);
    AtEventConcat(Tail(f, c, id), heard, k);
    if k == |log| - 1 {
      assert f == log[..k];
      TailBounded(f, c, id);
      AtEventNone(Tail(f, c, id), k);
      if heard != [] {
        assert AtEvent(Front(heard), k) == [];
        assert heard == [Last(heard)];
      }
    } else {
      assert log[..k] == f[..k];
      TailAtEvent(f, c, id, k);
      AtEventNone(heard, k);
    }
  }

  /** The part of the tail before an entry is the tail of the log before its event. */
  lemma {:induction false} TailPrefix(log: seq<Event>, c: Conn, id: Id, i: nat)
    requires i < |Tail(log, c, id)|
    ensures var k := Tail(log, c, id)[i].at;
            && k < |log|
            && Tail(log, c, id)[..i] == Tail(log[..k], c, id)
            && Hears(Members(log[..k]), log[k], k, c, id) == [Tail(log, c, id)[i]]
  {
    var f := Front(log);
    var tail := Tail(f, c, id);
    assert f == log[..|log| - 1];
    if i < |tail| {
      TailPrefix(f, c, id, i);
      assert f[..tail[i].at] == log[..tail[i].at] && f[tail[i].at] == log[tail[i].at];
      TailGrows(log, c, id, i);
    } else {
      LastHeard(tail, Hears(Members(f), Last(log), |log| - 1, c, id), i);
    }
  }

  lemma TailGrows(log: seq<Event>, c: Conn, id: Id, i: nat)
    requires log != [] && i < |Tail(Front(log), c, id)|
    ensures i < |Tail(log, c, id)| && Tail(log, c, id)[i] == Tail(Front(log), c, id)[i]
    ensures Tail(log, c, id)[..i] == Tail(Front(log), c, id)[..i]
  {
  }

  lemma LastHeard(tail: seq<Note>, heard: seq<Note>, i: nat)
    requires |heard| <= 1 && |tail| <= i < |tail + heard|
    ensures (tail + heard)[..i] == tail && heard == [(tail + heard)[i]]
  {
  }

  // ---------- Signals from one connection to another ----------

  predicate IsSignalFrom(m: Message, from: Id) {
    m.Signal? && m.from == from
  }

  function SignalsFrom(ms: seq<Message>, from: Id): seq<Message> {
    if ms == [] then []
    else SignalsFrom(Front(ms), from) +
         (if IsSignalFrom(Last(ms), from) then [Last(ms)] else [])
  }

  /** The messages meant for r: addressed to it, or to everyone. */
  function AddressedTo(ms: seq<Message>, r: Id): seq<Message> {
    if ms == [] then []
    else AddressedTo(Front(ms), r) +
         (if Last(ms).Signal? && Last(ms).to in {"", r} then [Last(ms)] else [])
  }

  /** The signals of one sender, all of them, in order. */
  lemma {:induction false} SignalsFromSelects(ms: seq<Message>, from: Id)
    ensures IsSelection(SignalsFrom(ms, from), ms, (m: Message) => m.Signal? && m.from == from)
  {
    if ms != [] {
      SignalsFromSelects(Front(ms), from);
      SelectionNext(SignalsFrom(Front(ms), from), Front(ms), Last(ms), (m: Message) => m.Signal? && m.from == from);
      assert Front(ms) + [Last(ms)] == ms;
      assert SignalsFrom(Front(ms), from) + [] == SignalsFrom(Front(ms), from);
    }
  }

  lemma {:induction false} AddressedToSelects(ms: seq<Message>, r: Id)
    ensures IsSelection(AddressedTo(ms, r), ms, (m: Message) => m.Signal? && (m.to == "" || m.to == r))
  {
    if ms != [] {
      var f, p := Front(ms), (m: Message) => m.Signal? && (m.to == "" || m.to == r);
      AddressedToSelects(f, r);
      SelectionNext(AddressedTo(f, r), f, Last(ms), p);
      assert f + [Last(ms)] == ms;
      assert AddressedTo(ms, r) == if p(Last(ms)) then AddressedTo(f, r) + [Last(ms)] else AddressedTo(f, r);
    }
  }

  /** What connection s submitted, in order. */
  function Posts(log: seq<Event>, s: Conn): seq<Message> {
    if log == [] then []
    else Posts(Front(log), s) +
         (if Last(log).Post? && Last(log).c == s then [Last(log).msg] else [])
  }

  predicate IsPostFor(e: Event, s: Conn, rId: Id) {
    e.Post? && e.c == s && e.msg.Signal? && e.msg.to in {"", rId}
  }

  /** What s submitted to r or to everyone while r was in the map. */
  function PostsWhilePresent(log: seq<Event>, s: Conn, r: Conn, rId: Id): seq<Message> {
    if log == [] then []
    else
      var e := Last(log);
      PostsWhilePresent(Front(log), s, r, rId) +
      (if IsPostFor(e, s, rId) && Holds(Members(Front(log)), rId, r) then [e.msg] else [])
  }

  /** Every submission is a signal, and the stamp `from` is sId exactly on those of s. */
  ghost predicate StampedAs(log: seq<Event>, s: Conn, sId: Id) {
    forall i :: 0 <= i < |log| && log[i].Post? ==>
      log[i].msg.Signal? && (log[i].msg.from == sId <==> log[i].c == s)
  }

  /** Connections are stored under their own ID only. */
  ghost predicate OwnId(log: seq<Event>, c: Conn, id: Id) {
    forall i :: 0 <= i < |log| && log[i].Reg? && log[i].c == c ==> log[i].id == id
  }

  lemma {:induction false} StoredUnderOwnId(log: seq<Event>, c: Conn, id: Id)
    requires OwnId(log, c, id)
    ensures forall x :: x in Members(log) && Members(log)[x] == c ==> x == id
  {
    if log != [] {
      var f := Front(log);
      assert forall i :: 0 <= i < |f| ==> f[i] == log[i];
      StoredUnderOwnId(f, c, id);
    }
  }

  lemma {:induction false} SignalsFromConcat(a: seq<Message>, b: seq<Message>, from: Id)
    ensures SignalsFrom(a + b, from) == SignalsFrom(a, from) + SignalsFrom(b, from)
  {
    if b == [] {
      assert a + b == a;
    } else {
      assert Front(a + b) == a + Front(b);
      SignalsFromConcat(a, Front(b), from);
    }
  }

  /** The signals of s that the log owes to r are s's submissions while r was present. */
  lemma {:induction false} TailSignals(log: seq<Event>, s: Conn, sId: Id, r: Conn, rId: Id)
    requires StampedAs(log, s, sId) && OwnId(log, r, rId)
    ensures SignalsFrom(Texts(Tail(log, r, rId)), sId) == PostsWhilePresent(log, s, r, rId)
  {
    if log != [] {
      var f, e := Front(log), Last(log);
      assert forall i :: 0 <= i < |f| ==> f[i] == log[i];
      assert e == log[|log| - 1];
      TailSignals(f, s, sId, r, rId);
      StoredUnderOwnId(f, r, rId);
      var heard := Hears(Members(f), e, |log| - 1, r, rId);
      TextsConcat(Tail(f, r, rId), heard);
      SignalsFromConcat(Texts(Tail(f, r, rId)), Texts(heard), sId);
      SignalsHeard(Members(f), e, |log| - 1, s, sId, r, rId);
    }
  }

  lemma SignalsHeard(m: Roster, e: Event, k: nat, s: Conn, sId: Id, r: Conn, rId: Id)
    requires e.Post? ==> e.msg.Signal? && (e.msg.from == sId <==> e.c == s)
    requires forall x :: x in m && m[x] == r ==> x == rId
    ensures SignalsFrom(Texts(Hears(m, e, k, r, rId)), sId) ==
            if IsPostFor(e, s, rId) && Holds(m, rId, r) then [e.msg] else []
  {
    SignalsFromHeard(Hears(m, e, k, r, rId), sId);
    match e
    case Reg(_, _) =>
    case Unreg(_, _) =>
    case Post(_, msg) => PostHeard(m, msg, k, e.c, r, rId);
  }

  lemma PostHeard(m: Roster, msg: Message, k: nat, c: Conn, r: Conn, rId: Id)
    requires msg.Signal?
    requires forall x :: x in m && m[x] == r ==> x == rId
    ensures var heard := Hears(m, Post(c, msg), k, r, rId);
            if msg.to in {"", rId} && Holds(m, rId, r) then heard == [Note(k, msg)]
            else heard == [] || heard[0].msg.PeerNotFound?
  {
  }

  lemma SignalsFromHeard(heard: seq<Note>, from: Id)
    requires |heard| <= 1
    ensures SignalsFrom(Texts(heard), from) ==
            if heard != [] && IsSignalFrom(heard[0].msg, from) then [heard[0].msg] else []
  {
    if heard != [] {
      assert Texts(heard) == [heard[0].msg] by { assert Texts(Front(heard)) == []; }
      assert Front([heard[0].msg]) == [];
    }
  }

  lemma {:induction false} PresentSubsequence(log: seq<Event>, s: Conn, r: Conn, rId: Id)
    ensures Subsequence(PostsWhilePresent(log, s, r, rId), AddressedTo(Posts(log, s), rId))
  {
    if log != [] {
      var f, e := Front(log), Last(log);
      PresentSubsequence(f, s, r, rId);
      var a, b := PostsWhilePresent(f, s, r, rId), AddressedTo(Posts(f, s), rId);
      AddressedStep(Posts(f, s), e, s, rId);
      if IsPostFor(e, s, rId) {
        if Holds(Members(f), rId, r) {
          SubsequenceBoth(a, b, e.msg);
        } else {
          SubsequenceWiden(a, b, e.msg);
          assert a + [] == a;
        }
      } else {
        assert a + [] == a && b + [] == b;
      }
    }
  }

  lemma AddressedStep(posts: seq<Message>, e: Event, s: Conn, rId: Id)
    ensures AddressedTo(posts + (if e.Post? && e.c == s then [e.msg] else []), rId) ==
            AddressedTo(posts, rId) + (if IsPostFor(e, s, rId) then [e.msg] else [])
  {
    if e.Post? && e.c == s {
      assert Front(posts + [e.msg]) == posts;
    } else {
      assert posts + [] == posts;
    }
  }

  lemma {:induction false} SignalsFromSubsequence(a: seq<Message>, b: seq<Message>, from: Id)
    requires Subsequence(a, b)
    ensures Subsequence(SignalsFrom(a, from), SignalsFrom(b, from))
  {
    if a != [] {
      if Last(a) == Last(b) && Subsequence(Front(a), Front(b)) {
        SignalsFromSubsequence(Front(a), Front(b), from);
        if IsSignalFrom(Last(a), from) {
          SubsequenceBoth(SignalsFrom(Front(a), from), SignalsFrom(Front(b), from), Last(a));
        }
      } else {
        SignalsFromSubsequence(a, Front(b), from);
        if IsSignalFrom(Last(b), from) {
          SubsequenceWiden(SignalsFrom(a, from), SignalsFrom(Front(b), from), Last(b));
        }
      }
      assert SignalsFrom(Front(a), from) + [] == SignalsFrom(Front(a), from);
      assert SignalsFrom(Front(b), from) + [] == SignalsFrom(Front(b), from);
    }
  }

  /** No signal stamped `from` was dropped. */
  ghost predicate SignalsKept(a: seq<Attempt>, from: Id) {
    forall i :: 0 <= i < |a| && IsSignalFrom(a[i].msg, from) ==> a[i].ok
  }

  /** The signals that got through are all that were offered if and only if none was dropped. */
  lemma {:induction false} AllSignalsExactlyIfKept(a: seq<Attempt>, from: Id)
    ensures |SignalsFrom(Enqueued(a), from)| <= |SignalsFrom(Offered(a), from)|
    ensures SignalsFrom(Enqueued(a), from) == SignalsFrom(Offered(a), from) <==> SignalsKept(a, from)
  {
    if a != [] {
      AllSignalsExactlyIfKept(Front(a), from);
      SignalsOffered(a, from);
      SignalsEnqueued(a, from);
      SignalsKeptLast(a, from);
      var got, offered := SignalsFrom(Enqueued(Front(a)), from), SignalsFrom(Offered(Front(a)), from);
      SameSuffix(got, offered, [Last(a).msg]);
    }
  }

  lemma SignalsOffered(a: seq<Attempt>, from: Id)
    requires a != []
    ensures var before := SignalsFrom(Offered(Front(a)), from);
            SignalsFrom(Offered(a), from) == if IsSignalFrom(Last(a).msg, from) then before + [Last(a).msg] else before
  {
    assert Front(Offered(a)) == Offered(Front(a));
  }

  lemma SignalsEnqueued(a: seq<Attempt>, from: Id)
    requires a != []
    ensures var before := SignalsFrom(Enqueued(Front(a)), from);
            SignalsFrom(Enqueued(a), from) ==
            if Last(a).ok && IsSignalFrom(Last(a).msg, from) then before + [Last(a).msg] else before
  {
    if Last(a).ok {
      assert Front(Enqueued(a)) == Enqueued(Front(a));
    } else {
      assert Enqueued(a) == Enqueued(Front(a));
    }
  }

  lemma SignalsKeptLast(a: seq<Attempt>, from: Id)
    requires a != []
    ensures SignalsKept(a, from) <==>
            SignalsKept(Front(a), from) && (IsSignalFrom(Last(a).msg, from) ==> Last(a).ok)
  {
    assert forall i :: 0 <= i < |Front(a)| ==> Front(a)[i] == a[i];
  }

  // ---------- Who came last under an ID ----------

  /** The event registers or unregisters under the ID. */
  predicate Changes(e: Event, id: Id) {
    !e.Post? && e.id == id
  }

  ghost predicate LatestChange(log: seq<Event>, k: nat, id: Id) {
    k < |log| && Changes(log[k], id) && forall j :: k < j < |log| ==> !Changes(log[j], id)
  }

  /** The map holds c under an ID exactly when the last change under that ID was c's registration. */
  lemma {:induction false} HoldsIsLatestChange(log: seq<Event>, id: Id, c: Conn)
    ensures Holds(Members(log), id, c) <==> exists k: nat :: LatestChange(log, k, id) && log[k] == Reg(c, id)
  {
    if log != [] {
      var f := Front(log);
      HoldsIsLatestChange(f, id, c);
      if Changes(Last(log), id) {
        assert LatestChange(log, |log| - 1, id);
        assert forall k: nat :: LatestChange(log, k, id) ==> k == |log| - 1;
      } else {
        forall k: nat
          ensures LatestChange(log, k, id) <==> LatestChange(f, k, id)
        {
          LatestChangeFront(log, k, id);
        }
        assert forall k: nat :: LatestChange(f, k, id) ==> log[k] == f[k];
      }
    }
  }

  lemma LatestChangeFront(log: seq<Event>, k: nat, id: Id)
    requires log != [] && !Changes(Last(log), id)
    ensures LatestChange(log, k, id) <==> LatestChange(Front(log), k, id)
  {
    assert forall j :: 0 <= j < |Front(log)| ==> Front(log)[j] == log[j];
  }

  // ---------- Unregistrations ----------

  predicate LeavesAt(log: seq<Event>, k: nat, c: Conn) {
    k < |log| && log[k].Unreg? && log[k].c == c
  }

  /** c has unregistered. */
  ghost predicate HasLeft(log: seq<Event>, c: Conn) {
    exists k: nat :: LeavesAt(log, k, c)
  }

  /** Event k unregisters c and finds an entry under its ID, whoever holds it. */
  predicate RemovesAt(log: seq<Event>, k: nat, c: Conn) {
    LeavesAt(log, k, c) && log[k].id in Members(log[..k])
  }

  /** c has unregistered while its ID was in the map. */
  ghost predicate HasRemoved(log: seq<Event>, c: Conn) {
    exists k: nat :: RemovesAt(log, k, c)
  }

  lemma HasLeftSnoc(log: seq<Event>, e: Event, c: Conn)
    ensures HasLeft(log + [e], c) <==> HasLeft(log, c) || (e.Unreg? && e.c == c)
  {
    if k: nat :| LeavesAt(log, k, c) {
      assert LeavesAt(log + [e], k, c);
    }
    if e.Unreg? && e.c == c {
      assert LeavesAt(log + [e], |log|, c);
    }
    if k: nat :| LeavesAt(log + [e], k, c) {
      assert k < |log| ==> LeavesAt(log, k, c);
    }
  }

  lemma HasRemovedSnoc(log: seq<Event>, e: Event, c: Conn)
    ensures HasRemoved(log + [e], c) <==> HasRemoved(log, c) || (e.Unreg? && e.c == c && e.id in Members(log))
  {
    assert forall k: nat :: k <= |log| ==> (log + [e])[..k] == log[..k];
    assert log[..|log|] == log;
    if k: nat :| RemovesAt(log, k, c) {
      assert RemovesAt(log + [e], k, c);
    }
    if e.Unreg? && e.c == c && e.id in Members(log) {
      assert RemovesAt(log + [e], |log|, c);
    }
    if k: nat :| RemovesAt(log + [e], k, c) {
      assert k < |log| ==> RemovesAt(log, k, c);
    }
  }
}
