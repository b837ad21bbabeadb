/** What becomes of a connection's requests and of its pumps: every request is accepted exactly as long as
    the hub is not wedged, and a pump can end at any time, cleanly once its channel is closed. */
module HubRequests {
  import opened Messages
  import opened Replica
  import opened HubLog
  import opened HubSystem
  import opened HubInvariant
  import opened HubTheorems
  import opened HubProgress

  lemma WedgedLog(cap: nat, s: State, t: State)
    requires Reachable(cap, s) && Wedged(cap, s) && Reaches(cap, s, t)
    ensures t.log == s.log && Reachable(cap, t)
  {
    WedgedIsOpen(cap, s);
    var acts :| Run(cap, s, acts, t);
    WedgedForever(cap, s, acts, t);
    ReachesTrans(cap, INIT, s, t);
  }

  /** Unless wedged, the hub gets to its select; what a run does before that is left open. */
  lemma ToSelect(cap: nat, s: State) returns (acts: seq<Action>, t: State)
    requires cap >= 2 && Reachable(cap, s) && !Wedged(cap, s)
    ensures Run(cap, s, acts, t) && t.hub.AtSelect? && Reachable(cap, t)
  {
    HubReturnsUnlessWedged(cap, s);
    t :| Reaches(cap, s, t) && t.hub.AtSelect?;
    acts :| Run(cap, s, acts, t);
    ReachesTrans(cap, INIT, s, t);
  }

  lemma OneMore(cap: nat, s: State, acts: seq<Action>, t: State, a: Action)
    requires Run(cap, s, acts, t) && Enabled(cap, t, a)
    ensures Reaches(cap, s, Step(cap, t, a))
  {
    ReachesStep(cap, t, a);
    ReachesTrans(cap, s, t, Step(cap, t, a));
  }

  // ---------- Unregistrations ----------

  lemma GoneStep(cap: nat, s: State, a: Action, c: Conn)
    requires Enabled(cap, s, a) && c in s.links && HandlerGone(s.links[c])
    ensures c in Step(cap, s, a).links && HandlerGone(Step(cap, s, a).links[c])
  {
  }

  lemma {:induction false} GoneStays(cap: nat, s: State, acts: seq<Action>, t: State, c: Conn)
    requires Run(cap, s, acts, t) && c in s.links && HandlerGone(s.links[c])
    ensures c in t.links && HandlerGone(t.links[c])
    decreases |acts|
  {
    if acts != [] {
      GoneStep(cap, s, acts[0], c);
      GoneStays(cap, Step(cap, s, acts[0]), acts[1..], t, c);
    }
  }

  lemma LeavesNow(cap: nat, s: State, c: Conn)
    requires Reachable(cap, s) && s.hub.AtSelect? && c in s.links && s.links[c].phase.Unregistering?
    ensures Enabled(cap, s, Unregister(c))
    ensures c in Step(cap, s, Unregister(c)).links && Step(cap, s, Unregister(c)).links[c].phase.Returned?
  {
    LinkOf(cap, s, c);
  }

  /** A departing connection is let go if and only if the hub is not wedged. */
  lemma DepartureCompletes(cap: nat, s: State, c: Conn)
    requires cap >= 2 && Reachable(cap, s) && c in s.links && s.links[c].phase.Unregistering?
    ensures (exists t :: Reaches(cap, s, t) && c in t.links && t.links[c].phase.Returned?) <==> !Wedged(cap, s)
  {
    if Wedged(cap, s) {
      forall t | Reaches(cap, s, t) && c in t.links
        ensures !t.links[c].phase.Returned?
      {
        WedgedLog(cap, s, t);
        Lifetime(cap, s, c);
        Lifetime(cap, t, c);
      }
    } else {
      var acts, t := ToSelect(cap, s);
      GoneStays(cap, s, acts, t, c);
      if t.links[c].phase.Unregistering? {
        LeavesNow(cap, t, c);
        OneMore(cap, s, acts, t, Unregister(c));
      }
    }
  }

  // ---------- Registrations ----------

  /** A connection that wants to register is entered if and only if the hub is not wedged. */
  lemma RegistrationAccepted(cap: nat, s: State, c: Conn)
    requires cap >= 2 && Reachable(cap, s) && c in s.links && s.links[c].phase.Dialing?
    ensures (exists t :: Reaches(cap, s, t) && Reg(c, s.links[c].id) in t.log) <==> !Wedged(cap, s)
  {
    if Wedged(cap, s) {
      HistoryOf(cap, s, c);
      forall t | Reaches(cap, s, t)
        ensures Reg(c, s.links[c].id) !in t.log
      {
        WedgedLog(cap, s, t);
      }
    } else {
      var acts, t := ToSelect(cap, s);
      IdsStayInRun(cap, s, acts, t, c);
      if t.links[c].phase.Dialing? {
        OneMore(cap, s, acts, t, Register(c));
        assert Last(Step(cap, t, Register(c)).log) == Reg(c, s.links[c].id);
      } else {
        var k := RegistrationLogged(cap, t, c);
      }
    }
  }

  /** Anyone can connect, under any non-empty ID, taken or not, if and only if the hub is not wedged. */
  lemma NewcomerAccepted(cap: nat, s: State, c: Conn, id: Id)
    requires cap >= 2 && Reachable(cap, s) && c !in s.links && id != ""
    ensures (exists t :: Reaches(cap, s, t) && Reg(c, id) in t.log) <==> !Wedged(cap, s)
  {
    if Wedged(cap, s) {
      forall t | Reaches(cap, s, t)
        ensures Reg(c, id) !in t.log
      {
        WedgedLog(cap, s, t);
        NoEventYet(cap, s, c, Reg(c, id));
      }
    } else {
      var n := Step(cap, s, Dial(c, id));
      ReachableStep(cap, s, Dial(c, id));
      assert !Wedged(cap, n) by { WedgedNotNew(cap, s, c, id); }
      RegistrationAccepted(cap, n, c);
      var t :| Reaches(cap, n, t) && Reg(c, id) in t.log;
      ReachesStep(cap, s, Dial(c, id));
      ReachesTrans(cap, s, n, t);
    }
  }

  lemma WedgedNotNew(cap: nat, s: State, c: Conn, id: Id)
    requires Reachable(cap, s) && Enabled(cap, s, Dial(c, id)) && !Wedged(cap, s)
    ensures !Wedged(cap, Step(cap, s, Dial(c, id)))
  {
    assert PlaceOk(s) by { ReachableInv(cap, s); }
  }

  lemma NoEventYet(cap: nat, s: State, c: Conn, e: Event)
    requires Reachable(cap, s) && c !in s.links && e.c == c
    ensures e !in s.log
  {
    forall i | 0 <= i < |s.log|
      ensures s.log[i] != e
    {
      EventOf(cap, s, i);
    }
  }

  // ---------- Submissions ----------

  lemma SubmissionStep(cap: nat, s: State, a: Action, c: Conn)
    requires Enabled(cap, s, a) && c in s.links && (a.Local? && a.c == c ==> LinkOk(cap, s.links[c]))
    ensures c in Step(cap, s, a).links
    ensures var l, l' := s.links[c], Step(cap, s, a).links[c];
            && l.submitted <= l'.submitted
            && (l.reader.RSubmitting? ==>
                  (l'.reader == l.reader && l'.submitted == l.submitted) || l'.submitted == l.submitted + [l.reader.msg])
  {
    if a.Local? && a.c == c {
      TakenLocal(cap, s.links[c], a.act);
    }
  }

  lemma {:induction false} SubmittedGrows(cap: nat, s: State, acts: seq<Action>, t: State, c: Conn)
    requires Reachable(cap, s) && Run(cap, s, acts, t) && c in s.links
    ensures c in t.links && s.links[c].submitted <= t.links[c].submitted
    decreases |acts|
  {
    if acts != [] {
      LinkOf(cap, s, c);
      SubmissionStep(cap, s, acts[0], c);
      ReachableStep(cap, s, acts[0]);
      SubmittedGrows(cap, Step(cap, s, acts[0]), acts[1..], t, c);
    }
  }

  /** A message that the read pump is handing over stays there until the hub takes it. */
  lemma {:induction false} SubmissionWaits(cap: nat, s: State, acts: seq<Action>, t: State, c: Conn)
    requires Reachable(cap, s) && Run(cap, s, acts, t) && c in s.links && s.links[c].reader.RSubmitting?
    ensures c in t.links
    ensures var l, l' := s.links[c], t.links[c];
            (l'.reader == l.reader && l'.submitted == l.submitted) || l.submitted + [l.reader.msg] <= l'.submitted
    decreases |acts|
  {
    if acts != [] {
      var n := Step(cap, s, acts[0]);
      LinkOf(cap, s, c);
      SubmissionStep(cap, s, acts[0], c);
      ReachableStep(cap, s, acts[0]);
      if n.links[c].reader == s.links[c].reader && n.links[c].submitted == s.links[c].submitted {
        SubmissionWaits(cap, n, acts[1..], t, c);
      } else {
        SubmittedGrows(cap, n, acts[1..], t, c);
      }
    }
  }

  ghost predicate CanBeLogged(cap: nat, s: State, c: Conn, msg: Message) {
    exists t :: Reaches(cap, s, t) && Posts(s.log, c) + [msg] <= Posts(t.log, c)
  }

  /** A message in a read pump, also one whose connection has returned meanwhile, is the next of that
      connection that the hub takes, if and only if the hub is not wedged. */
  lemma SubmissionAccepted(cap: nat, s: State, c: Conn)
    requires cap >= 2 && Reachable(cap, s) && c in s.links && s.links[c].reader.RSubmitting?
    ensures CanBeLogged(cap, s, c, s.links[c].reader.msg) <==> !Wedged(cap, s)
  {
    if Wedged(cap, s) {
      NothingLogged(cap, s, c, s.links[c].reader.msg);
    } else {
      var acts, t := ToSelect(cap, s);
      SubmissionWaits(cap, s, acts, t, c);
      HistoryOf(cap, s, c);
      HistoryOf(cap, t, c);
      if t.links[c].reader == s.links[c].reader && t.links[c].submitted == s.links[c].submitted {
        OneMore(cap, s, acts, t, Submit(c));
        PostsSnoc(t.log, Post(c, s.links[c].reader.msg), c);
      }
    }
  }

  lemma NothingLogged(cap: nat, s: State, c: Conn, msg: Message)
    requires Reachable(cap, s) && Wedged(cap, s)
    ensures !CanBeLogged(cap, s, c, msg)
  {
    forall t | Reaches(cap, s, t)
      ensures !(Posts(s.log, c) + [msg] <= Posts(t.log, c))
    {
      WedgedLog(cap, s, t);
    }
  }

  /** Whatever a client sends to a read pump that is reading, to whomever, can be the next thing the hub
      takes from it, with the payload as sent and the sender's ID, if and only if the hub is not wedged. */
  lemma AnySignalAccepted(cap: nat, s: State, c: Conn, to: Id, data: string)
    requires cap >= 2 && Reachable(cap, s) && c in s.links && s.links[c].reader.RReading?
    ensures CanBeLogged(cap, s, c, Signal(s.links[c].id, to, data)) <==> !Wedged(cap, s)
  {
    if Wedged(cap, s) {
      NothingLogged(cap, s, c, Signal(s.links[c].id, to, data));
    } else {
      var a := Local(c, Read(to, data));
      var n := Step(cap, s, a);
      ReachableStep(cap, s, a);
      SubmissionAccepted(cap, n, c);
      var t :| Reaches(cap, n, t) && Posts(n.log, c) + [n.links[c].reader.msg] <= Posts(t.log, c);
      ReachesStep(cap, s, a);
      ReachesTrans(cap, s, n, t);
    }
  }

  // ---------- The ends of the pumps ----------

  predicate WriterEnded(l: Link) {
    l.writer.WExited? || l.writer.WDone?
  }

  predicate ReaderEnded(l: Link) {
    l.reader.RExited? || l.reader.RDone?
  }

  /** Between l and l' an ended writer has written nothing and an ended reader submitted nothing. */
  predicate Silent(l: Link, l': Link) {
    && (WriterEnded(l) ==>
          WriterEnded(l') && l'.inflight == l.inflight && l'.delivered + l'.wire == l.delivered + l.wire)
    && (ReaderEnded(l) ==> ReaderEnded(l') && l'.submitted == l.submitted)
  }

  lemma SilentLocal(cap: nat, l: Link, act: LocalAction)
    requires LinkOk(cap, l) && LocalEnabled(l, act)
    ensures Silent(l, LocalStep(l, act))
  {
    if act.Process? {
      assert (l.delivered + [l.wire[0]]) + l.wire[1..] == l.delivered + l.wire;
    }
  }

  lemma SilentStep(cap: nat, s: State, a: Action, c: Conn)
    requires Enabled(cap, s, a) && c in s.links && (a.Local? && a.c == c ==> LinkOk(cap, s.links[c]))
    ensures c in Step(cap, s, a).links && Silent(s.links[c], Step(cap, s, a).links[c])
  {
    if a.Local? && a.c == c {
      SilentLocal(cap, s.links[c], a.act);
    }
  }

  /** An ended write pump writes nothing more, what it had in flight is never delivered; an ended read pump
      submits nothing more. */
  lemma {:induction false} EndedPumpIsSilent(cap: nat, s: State, acts: seq<Action>, t: State, c: Conn)
    requires Reachable(cap, s) && Run(cap, s, acts, t) && c in s.links
    ensures c in t.links && Silent(s.links[c], t.links[c])
    decreases |acts|
  {
    if acts != [] {
      LinkOf(cap, s, c);
      SilentStep(cap, s, acts[0], c);
      ReachableStep(cap, s, acts[0]);
      EndedPumpIsSilent(cap, Step(cap, s, acts[0]), acts[1..], t, c);
    }
  }

  /** A running pump can fail at any moment: the write pump with a message in flight, which is then lost,
      or none; the read pump before it reads the next message. */
  lemma PumpsMayFail(cap: nat, s: State, c: Conn)
    requires Reachable(cap, s) && c in s.links
    ensures s.links[c].writer.WSelect? || s.links[c].writer.WWriting? ==>
              exists t :: Reaches(cap, s, t) && c in t.links && t.links[c] == s.links[c].(writer := WExited)
    ensures s.links[c].reader.RReading? ==>
              exists t :: Reaches(cap, s, t) && c in t.links && t.links[c] == s.links[c].(reader := RExited)
  {
    if s.links[c].writer.WSelect? { ReachesStep(cap, s, Local(c, PingFail)); }
    if s.links[c].writer.WWriting? { ReachesStep(cap, s, Local(c, WriteFail)); }
    if s.links[c].reader.RReading? { ReachesStep(cap, s, Local(c, ReadFail)); }
  }

  /** Once a connection has registered its pumps can start, whatever the hub is doing. */
  lemma PumpsStart(cap: nat, s: State, c: Conn)
    requires Reachable(cap, s) && c in s.links && s.links[c].phase.Spawning?
    ensures exists t :: Reaches(cap, s, t) && c in t.links
              && t.links[c] == s.links[c].(phase := Waiting, writer := WSelect, reader := RReading)
  {
    ReachesStep(cap, s, Local(c, Spawn));
  }

  predicate ReaderRuns(l: Link) {
    l.reader.RReading? || l.reader.RSubmitting?
  }

  lemma ReaderStep(cap: nat, s: State, a: Action, c: Conn)
    requires Enabled(cap, s, a) && c in s.links && ReaderRuns(s.links[c]) && a != Local(c, ReadFail)
    requires LinkOk(cap, s.links[c])
    ensures c in Step(cap, s, a).links && ReaderRuns(Step(cap, s, a).links[c])
  {
  }

  /** The read pump reads and submits, one message after the other, until a read fails; it does not matter
      whether its connection is still in the map. */
  lemma {:induction false} ReaderRunsUntilFailure(cap: nat, s: State, acts: seq<Action>, t: State, c: Conn)
    requires Reachable(cap, s) && Run(cap, s, acts, t) && c in s.links && ReaderRuns(s.links[c])
    requires forall i :: 0 <= i < |acts| ==> acts[i] != Local(c, ReadFail)
    ensures c in t.links && ReaderRuns(t.links[c])
    decreases |acts|
  {
    if acts != [] {
      LinkOf(cap, s, c);
      ReaderStep(cap, s, acts[0], c);
      ReachableStep(cap, s, acts[0]);
      ReaderRunsUntilFailure(cap, Step(cap, s, acts[0]), acts[1..], t, c);
    }
  }

  // ---------- Closed channels ----------

  lemma ClosedStep(cap: nat, s: State, a: Action, c: Conn)
    requires RosterOk(s) && PlaceOk(s) && Enabled(cap, s, a) && c in s.links && s.links[c].closed
    requires LinkOk(cap, s.links[c])
    ensures c in Step(cap, s, a).links
    ensures Step(cap, s, a).links[c].closed && Step(cap, s, a).links[c].attempts == s.links[c].attempts
  {
  }

  /** Nothing is offered to a connection after its channel was closed. */
  lemma {:induction false} NothingAfterClose(cap: nat, s: State, acts: seq<Action>, t: State, c: Conn)
    requires Reachable(cap, s) && Run(cap, s, acts, t) && c in s.links && s.links[c].closed
    ensures c in t.links && t.links[c].closed && t.links[c].attempts == s.links[c].attempts
    decreases |acts|
  {
    if acts != [] {
      assert RosterOk(s) && PlaceOk(s) by { ReachableInv(cap, s); }
      LinkOf(cap, s, c);
      ClosedStep(cap, s, acts[0], c);
      ReachableStep(cap, s, acts[0]);
      NothingAfterClose(cap, Step(cap, s, acts[0]), acts[1..], t, c);
    }
  }

  lemma {:induction false} RunAppend(cap: nat, s: State, acts: seq<Action>, t: State, a: Action)
    requires Run(cap, s, acts, t) && Enabled(cap, t, a)
    ensures Run(cap, s, acts + [a], Step(cap, t, a))
  {
    assert Run(cap, Step(cap, t, a), [a][1..], Step(cap, t, a));
    RunConcat(cap, s, acts, t, [a], Step(cap, t, a));
  }

  /** The write pump of a closed channel first writes everything that is still on it, then sees the close and
      ends; that takes no failure and nothing of the client. */
  lemma ClosedChannelDrains(cap: nat, s: State, c: Conn) returns (acts: seq<Action>, t: State)
    requires Reachable(cap, s) && c in s.links && s.links[c].closed && PumpRuns(s.links[c])
    ensures Run(cap, s, acts, t) && forall a :: a in acts ==> Writes(a, c) || a == Local(c, SeeClosed)
    ensures c in t.links && t.links[c].writer.WExited?
    ensures t.links[c].delivered + t.links[c].wire == Enqueued(s.links[c].attempts)
  {
    var flush, u := FlushRun(cap, s, c);
    ReachesTrans(cap, INIT, s, u);
    LinkOf(cap, u, c);
    assert u.links[c].wire + [] + [] == u.links[c].wire;
    assert u.links[c].writer.WSelect?;
    acts, t := flush + [Local(c, SeeClosed)], Step(cap, u, Local(c, SeeClosed));
    RunAppend(cap, s, flush, u, Local(c, SeeClosed));
  }

  /** The write pump has not ended, or it has with a closed and empty channel and nothing in flight. */
  predicate EndsClean(l: Link) {
    WriterEnded(l) ==> l.closed && l.queue == [] && l.inflight == []
  }

  predicate WriterFails(a: Action, c: Conn) {
    a == Local(c, PingFail) || a == Local(c, WriteFail)
  }

  lemma CleanStep(cap: nat, s: State, a: Action, c: Conn)
    requires RosterOk(s) && PlaceOk(s) && Enabled(cap, s, a) && c in s.links && LinkOk(cap, s.links[c])
    requires EndsClean(s.links[c]) && !WriterFails(a, c)
    ensures c in Step(cap, s, a).links && EndsClean(Step(cap, s, a).links[c])
  {
    if s.links[c].closed {
      ClosedStep(cap, s, a, c);
    }
  }

  lemma {:induction false} CleanRun(cap: nat, s: State, acts: seq<Action>, t: State, c: Conn)
    requires Reachable(cap, s) && Run(cap, s, acts, t) && c in s.links && EndsClean(s.links[c])
    requires forall i :: 0 <= i < |acts| ==> !WriterFails(acts[i], c)
    ensures c in t.links && EndsClean(t.links[c])
    decreases |acts|
  {
    if acts != [] {
      assert RosterOk(s) && PlaceOk(s) by { ReachableInv(cap, s); }
      LinkOf(cap, s, c);
      CleanStep(cap, s, acts[0], c);
      ReachableStep(cap, s, acts[0]);
      CleanRun(cap, Step(cap, s, acts[0]), acts[1..], t, c);
    }
  }

  /** A write pump that ends without a failure has written everything: its channel is closed, and the client
      has received or has on its wire all that ever entered the channel. */
  lemma CleanEndLosesNothing(cap: nat, s: State, acts: seq<Action>, t: State, c: Conn)
    requires Reachable(cap, s) && Run(cap, s, acts, t) && c in s.links && !WriterEnded(s.links[c])
    requires forall i :: 0 <= i < |acts| ==> !WriterFails(acts[i], c)
    ensures c in t.links
    ensures WriterEnded(t.links[c]) ==>
              t.links[c].closed && t.links[c].delivered + t.links[c].wire == Enqueued(t.links[c].attempts)
  {
    CleanRun(cap, s, acts, t, c);
    ReachesTrans(cap, INIT, s, t);
    LinkOf(cap, t, c);
    var l := t.links[c];
    if WriterEnded(l) {
      assert l.wire + [] + [] == l.wire;
    }
  }
}
