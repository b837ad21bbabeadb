/** The vocabulary of the signaling protocol: identifiers, the message envelope,
    and the log of send attempts that the hub makes on one peer's channel. */
module Messages {

  /** A peer ID as it appears on the wire. The empty string means "no target". */
  type Id = string

  /** One WebSocket connection, i.e. one `*Peer` object; two connections may share an ID. */
  type Conn = nat

  /** The messages of internal/signaling/message.go. Timestamps are not modelled. */
  datatype Message =
    | Registered(id: Id)
    | PeerList(ids: seq<Id>)
    | Joined(id: Id)
    | Left(id: Id)
    | Signal(from: Id, to: Id, data: string)
    | PeerNotFound(to: Id, missing: Id)

  predicate IsMembership(m: Message) {
    m.PeerList? || m.Joined? || m.Left?
  }

  /** m is a membership fact about q. */
  predicate Concerns(m: Message, q: Id) {
    match m
    case PeerList(ids) => q in ids
    case Joined(id) => id == q
    case Left(id) => id == q
    case _ => false
  }

  /** One attempt of the hub to put a message on a peer's channel, made while it
      handled event number `at`; `ok` is false when the channel was full. */
  datatype Attempt = Attempt(at: nat, msg: Message, ok: bool)

  /** What an attempt is about, without its outcome. */
  datatype Note = Note(at: nat, msg: Message)

  function Notes(a: seq<Attempt>): (r: seq<Note>)
    ensures |r| == |a|
    ensures forall i :: 0 <= i < |a| ==> r[i] == Note(a[i].at, a[i].msg)
  {
    seq(|a|, i requires 0 <= i < |a| => Note(a[i].at, a[i].msg))
  }

  function Last<T>(s: seq<T>): T
    requires s != []
  {
    s[|s| - 1]
  }

  function Front<T>(s: seq<T>): seq<T>
    requires s != []
  {
    s[..|s| - 1]
  }

  lemma ConcatAssoc<T>(a: seq<T>, b: seq<T>, c: seq<T>)
    ensures (a + b) + c == a + (b + c)
  {
  }

  lemma SameSuffix<T>(a: seq<T>, b: seq<T>, c: seq<T>)
    ensures a + c == b + c <==> a == b
  {
    if a + c == b + c {
      assert a == (a + c)[..|a|] && b == (b + c)[..|b|];
    }
  }

  function Texts(ns: seq<Note>): seq<Message> {
    if ns == [] then [] else Texts(Front(ns)) + [Last(ns).msg]
  }

  /** Everything offered to the channel, kept or not. */
  function Offered(a: seq<Attempt>): seq<Message> {
    if a == [] then [] else Offered(Front(a)) + [Last(a).msg]
  }

  /** What actually entered the channel, in order. */
  function Enqueued(a: seq<Attempt>): seq<Message> {
    if a == [] then []
    else Enqueued(Front(a)) + (if Last(a).ok then [Last(a).msg] else [])
  }

  /** The number of membership messages that were dropped. */
  function DroppedMembership(a: seq<Attempt>): nat {
    if a == [] then 0
    else DroppedMembership(Front(a)) + (if !Last(a).ok && IsMembership(Last(a).msg) then 1 else 0)
  }

  /** A lossy send: the message is appended if the channel has room, otherwise dropped. */
  function Offer<T>(queue: seq<T>, m: T, cap: nat): seq<T> {
    if |queue| < cap then queue + [m] else queue
  }

  /** ids lists exactly the members of s, each once, in some order. */
  ghost predicate IsListing(ids: seq<Id>, s: set<Id>) {
    && (forall x :: x in ids <==> x in s)
    && (forall i, j :: 0 <= i < j < |ids| ==> ids[i] != ids[j])
  }

  // ---------- Subsequences ----------

  /** a can be obtained from b by deleting elements. */
  predicate Subsequence<T(==)>(a: seq<T>, b: seq<T>) {
    if a == [] then true
    else if b == [] then false
    else (Last(a) == Last(b) && Subsequence(Front(a), Front(b))) || Subsequence(a, Front(b))
  }

  lemma {:induction false} SubsequenceWiden<T>(a: seq<T>, b: seq<T>, x: T)
    requires Subsequence(a, b)
    ensures Subsequence(a, b + [x])
  {
    assert Front(b + [x]) == b;
  }

  lemma {:induction false} SubsequenceBoth<T>(a: seq<T>, b: seq<T>, x: T)
    requires Subsequence(a, b)
    ensures Subsequence(a + [x], b + [x])
  {
    assert Front(a + [x]) == a && Front(b + [x]) == b;
  }

  lemma {:induction false} SubsequenceRefl<T>(a: seq<T>)
    ensures Subsequence(a, a)
  {
    if a != [] {
      SubsequenceRefl(Front(a));
    }
  }

  lemma {:induction false} SubsequenceTrans<T>(a: seq<T>, b: seq<T>, c: seq<T>)
    requires Subsequence(a, b) && Subsequence(b, c)
    ensures Subsequence(a, c)
    decreases |b| + |c|
  {
    if a != [] {
      assert b != [] && c != [];
      if Last(b) == Last(c) && Subsequence(Front(b), Front(c)) {
        if Last(a) == Last(b) && Subsequence(Front(a), Front(b)) {
          SubsequenceTrans(Front(a), Front(b), Front(c));
        } else {
          SubsequenceTrans(a, Front(b), Front(c));
        }
      } else {
        SubsequenceTrans(a, b, Front(c));
      }
    }
  }

  lemma {:induction false} PrefixSubsequence<T>(a: seq<T>, b: seq<T>)
    requires a <= b
    ensures Subsequence(a, b)
  {
    if a == b {
      SubsequenceRefl(a);
    } else {
      PrefixSubsequence(a, Front(b));
      SubsequenceWiden(a, Front(b), Last(b));
      assert Front(b) + [Last(b)] == b;
    }
  }

  /** r consists of the elements of s that satisfy p, in order and as often as they occur in s. */
  ghost predicate IsSelection<T(!new)>(r: seq<T>, s: seq<T>, p: T -> bool) {
    && Subsequence(r, s)
    && forall x: T :: multiset(r)[x] == if p(x) then multiset(s)[x] else 0
  }

  lemma SelectionNext<T(!new)>(r: seq<T>, s: seq<T>, x: T, p: T -> bool)
    requires IsSelection(r, s, p)
    ensures IsSelection(if p(x) then r + [x] else r, s + [x], p)
  {
    if p(x) {
      SubsequenceBoth(r, s, x);
    } else {
      SubsequenceWiden(r, s, x);
    }
  }

  // ---------- Attempts, notes and texts ----------

  lemma {:induction false} TextsConcat(a: seq<Note>, b: seq<Note>)
    ensures Texts(a + b) == Texts(a) + Texts(b)
  {
    if b == [] {
      assert a + b == a;
    } else {
      assert Front(a + b) == a + Front(b);
      TextsConcat(a, Front(b));
    }
  }

  lemma {:induction false} EnqueuedSubsequence(a: seq<Attempt>)
    ensures Subsequence(Enqueued(a), Offered(a))
  {
    if a != [] {
      EnqueuedSubsequence(Front(a));
      if Last(a).ok {
        SubsequenceBoth(Enqueued(Front(a)), Offered(Front(a)), Last(a).msg);
      } else {
        SubsequenceWiden(Enqueued(Front(a)), Offered(Front(a)), Last(a).msg);
        assert Enqueued(a) == Enqueued(Front(a));
      }
    }
  }

  lemma {:induction false} OfferedAt(a: seq<Attempt>)
    ensures |Offered(a)| == |a| && forall i :: 0 <= i < |a| ==> Offered(a)[i] == a[i].msg
  {
    if a != [] {
      OfferedAt(Front(a));
    }
  }

  /** The count of dropped membership messages, position by position. */
  lemma {:induction false} DroppedMembershipCounts(a: seq<Attempt>)
    ensures DroppedMembership(a) ==
            |set i | 0 <= i < |a| && !a[i].ok && (a[i].msg.PeerList? || a[i].msg.Joined? || a[i].msg.Left?)|
  {
    if a != [] {
      var f, n := Front(a), |a| - 1;
      DroppedMembershipCounts(f);
      var before := set i | 0 <= i < |f| && !f[i].ok && (f[i].msg.PeerList? || f[i].msg.Joined? || f[i].msg.Left?);
      var all := set i | 0 <= i < |a| && !a[i].ok && (a[i].msg.PeerList? || a[i].msg.Joined? || a[i].msg.Left?);
      assert all == if !a[n].ok && IsMembership(a[n].msg) then before + {n} else before;
    }
  }

  // ---------- Messages counted as kept ----------

  /** Attempts of event k that put all of ms on the channel. */
  function Kept(k: nat, ms: seq<Message>): (r: seq<Attempt>)
    ensures forall x :: x in r ==> x.ok
  {
    if ms == [] then [] else Kept(k, Front(ms)) + [Attempt(k, Last(ms), true)]
  }

  lemma {:induction false} KeptParts(a: seq<Attempt>, k: nat, ms: seq<Message>)
    ensures Offered(a + Kept(k, ms)) == Offered(a) + ms
    ensures Enqueued(a + Kept(k, ms)) == Enqueued(a) + ms
    ensures DroppedMembership(a + Kept(k, ms)) == DroppedMembership(a)
  {
    if ms == [] {
      assert a + Kept(k, ms) == a;
    } else {
      KeptParts(a, k, Front(ms));
      assert Front(a + Kept(k, ms)) == a + Kept(k, Front(ms));
      assert Last(a + Kept(k, ms)) == Attempt(k, Last(ms), true);
      assert Front(ms) + [Last(ms)] == ms;
      ConcatAssoc(Offered(a), Front(ms), [Last(ms)]);
      ConcatAssoc(Enqueued(a), Front(ms), [Last(ms)]);
    }
  }

  // ---------- Listings ----------

  lemma ListSet(s: set<Id>) returns (r: seq<Id>)
    ensures IsListing(r, s)
  {
    r := [];
    var rest := s;
    while rest != {}
      invariant rest <= s && IsListing(r, s - rest)
      decreases rest
    {
      var x :| x in rest;
      rest := rest - {x};
      r := r + [x];
    }
    assert s - rest == s;
  }

  lemma SomeListingExists(s: set<Id>)
    ensures exists ids :: IsListing(ids, s)
  {
    var ids := ListSet(s);
  }

  /** Some list of the members of s. */
  ghost function SomeListing(s: set<Id>): (ids: seq<Id>)
    ensures IsListing(ids, s)
  {
    SomeListingExists(s);
    var ids :| IsListing(ids, s);
    ids
  }
}
