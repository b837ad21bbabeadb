/** Gathering host candidates and pairing them with sockets: pkg/p2p/ice/gatherer.go and the
    agent of pkg/p2p/ice/connection.go, as functions on a state and as objects refining them. */
module Gathering {
  import opened Decimal
  import opened CandidateText
  import Priority

  datatype Option<+T> = None | Some(value: T)

  // ---------- Addresses ----------

  type Octet = x: nat | x < 256
  type Port = x: nat | x < 0x1_0000

  datatype Ip = Ip(a: Octet, b: Octet, c: Octet, d: Octet)

  /** A socket is identified by the address and port it is bound to. */
  datatype Endpoint = Endpoint(ip: Ip, port: Port)

  function IpText(ip: Ip): string {
    Digits(ip.a) + ("." + (Digits(ip.b) + ("." + (Digits(ip.c) + ("." + Digits(ip.d))))))
  }

  /** The private ranges 10/8, 172.16/12 and 192.168/16. */
  predicate IsPrivate(ip: Ip) {
    ip.a == 10 || (ip.a == 172 && 16 <= ip.b < 32) || (ip.a == 192 && ip.b == 168)
  }

  lemma Assoc3(a: string, b: string, c: string)
    ensures a + ("." + (b + c)) == ((a + ".") + b) + c
  {
  }

  /** Four decimal numerals with dots between them. */
  lemma IpLayout(ip: Ip)
    ensures IpText(ip) == Digits(ip.a) + "." + Digits(ip.b) + "." + Digits(ip.c) + "." + Digits(ip.d)
  {
    var a, b, c, d := Digits(ip.a), Digits(ip.b), Digits(ip.c), Digits(ip.d);
    Assoc3(a, b, "." + (c + ("." + d)));
    Assoc3((a + ".") + b, c, "." + d);
    assert a + "." + b + "." + c + "." + d == ((a + "." + b + ".") + c) + ("." + d);
  }

  lemma SameNumber(m: nat, x: string, n: nat, y: string)
    requires x == [] || !IsDigit(x[0])
    requires y == [] || !IsDigit(y[0])
    requires Digits(m) + x == Digits(n) + y
    ensures m == n && x == y
  {
    var t := Digits(m) + x;
    DigitCountOf(Digits(m), x);
    DigitCountOf(Digits(n), y);
    assert t[..|Digits(m)|] == Digits(m) && t[..|Digits(n)|] == Digits(n);
    assert t[|Digits(m)|..] == x && t[|Digits(n)|..] == y;
    ValueOfDigits(m);
    ValueOfDigits(n);
  }

  lemma AfterDot(x: string, y: string)
    requires "." + x == "." + y
    ensures x == y
  {
    assert ("." + x)[1..] == x && ("." + y)[1..] == y;
  }

  /** Different addresses have different texts. */
  lemma IpTextInjective(p: Ip, q: Ip)
    requires IpText(p) == IpText(q)
    ensures p == q
  {
    var p3, q3 := "." + Digits(p.d), "." + Digits(q.d);
    var p2, q2 := "." + (Digits(p.c) + p3), "." + (Digits(q.c) + q3);
    var p1, q1 := "." + (Digits(p.b) + p2), "." + (Digits(q.b) + q2);
    SameNumber(p.a, p1, q.a, q1);
    AfterDot(Digits(p.b) + p2, Digits(q.b) + q2);
    SameNumber(p.b, p2, q.b, q2);
    AfterDot(Digits(p.c) + p3, Digits(q.c) + q3);
    SameNumber(p.c, p3, q.c, q3);
    AfterDot(Digits(p.d), Digits(q.d));
    ValueOfDigits(p.d);
    ValueOfDigits(q.d);
  }

  // ---------- Binding ----------

  datatype Config = Config(portStart: int, portEnd: int)

  predicate Ranged(cfg: Config) {
    cfg.portStart > 0 && cfg.portEnd > 0
  }

  /** Port p of the address can be bound: it is a port number and nobody holds it. */
  predicate Free(inUse: set<Endpoint>, ip: Ip, p: int) {
    0 < p < 0x1_0000 && Endpoint(ip, p) !in inUse
  }

  /** The lowest free port between lo and hi. */
  function FirstFree(inUse: set<Endpoint>, ip: Ip, lo: int, hi: int): Option<Endpoint>
    decreases hi - lo
  {
    if lo > hi then None
    else if Free(inUse, ip, lo) then Some(Endpoint(ip, lo))
    else FirstFree(inUse, ip, lo + 1, hi)
  }

  lemma {:induction false} FirstFreeIsLowest(inUse: set<Endpoint>, ip: Ip, lo: int, hi: int)
    ensures FirstFree(inUse, ip, lo, hi).None? <==> forall p: int :: lo <= p <= hi ==> !Free(inUse, ip, p)
    ensures FirstFree(inUse, ip, lo, hi).Some? ==>
      var e := FirstFree(inUse, ip, lo, hi).value;
      && e.ip == ip && lo <= e.port <= hi && Free(inUse, ip, e.port)
      && forall p: int :: lo <= p < e.port ==> !Free(inUse, ip, p)
    decreases hi - lo
  {
    if lo <= hi && !Free(inUse, ip, lo) {
      FirstFreeIsLowest(inUse, ip, lo + 1, hi);
    }
  }

  /** What `bindUDP` may return: with a port range the first free port of it, otherwise any free
      port the system picks, or nothing. */
  predicate BindOutcome(cfg: Config, inUse: set<Endpoint>, ip: Ip, r: Option<Endpoint>) {
    if Ranged(cfg) then r == FirstFree(inUse, ip, cfg.portStart, cfg.portEnd)
    else r.Some? ==> r.value.ip == ip && Free(inUse, ip, r.value.port)
  }

  lemma {:induction false} ChosenPrefix(rs: seq<Option<Endpoint>>, k: nat)
    requires k <= |rs|
    ensures Chosen(rs[..k]) <= Chosen(rs)
  {
    if k < |rs| {
      ChosenPrefix(rs[..|rs| - 1], k);
      assert rs[..|rs| - 1][..k] == rs[..k];
    } else {
      assert rs[..k] == rs;
    }
  }

  /** Each successful bind gives one endpoint, and those of the first binds come first. */
  lemma {:induction false} ChosenExactly(rs: seq<Option<Endpoint>>, e: Endpoint, k: nat)
    requires k <= |rs|
    ensures multiset(Chosen(rs))[e] == multiset(rs)[Some(e)]
    ensures Chosen(rs[..k]) <= Chosen(rs)
  {
    if rs != [] {
      ChosenExactly(rs[..|rs| - 1], e, 0);
      assert rs == rs[..|rs| - 1] + [rs[|rs| - 1]];
    }
    ChosenPrefix(rs, k);
  }

  /** The endpoints bound so far, in order. */
  function Chosen(rs: seq<Option<Endpoint>>): seq<Endpoint> {
    if rs == [] then []
    else Chosen(rs[..|rs| - 1]) + (if rs[|rs| - 1].Some? then [rs[|rs| - 1].value] else [])
  }

  function Elements(es: seq<Endpoint>): set<Endpoint> {
    set e | e in es
  }

  /** One bind outcome per address, each given what was in use before and what was bound just before. */
  ghost predicate Outcomes(cfg: Config, inUse: set<Endpoint>, ips: seq<Ip>, rs: seq<Option<Endpoint>>) {
    && |rs| == |ips|
    && forall i :: 0 <= i < |ips| ==> BindOutcome(cfg, inUse + Elements(Chosen(rs[..i])), ips[i], rs[i])
  }

  predicate Distinct<T(==)>(s: seq<T>) {
    forall i, j :: 0 <= i < j < |s| ==> s[i] != s[j]
  }

  predicate PortAllowed(cfg: Config, p: int) {
    0 < p && (Ranged(cfg) ==> cfg.portStart <= p <= cfg.portEnd)
  }

  /** Whatever the addresses, the bound endpoints are pairwise different, were not in use, and lie in
      the configured range. */
  lemma {:induction false} ChosenAreFresh(cfg: Config, inUse: set<Endpoint>, ips: seq<Ip>, rs: seq<Option<Endpoint>>)
    requires Outcomes(cfg, inUse, ips, rs)
    ensures Distinct(Chosen(rs))
    ensures forall e :: e in Chosen(rs) ==>
      && e !in inUse && 0 < e.port < 65536
      && (cfg.portStart > 0 && cfg.portEnd > 0 ==> cfg.portStart <= e.port <= cfg.portEnd)
  {
    if rs != [] {
      var n := |rs| - 1;
      var f, r := rs[..n], rs[n];
      assert forall i :: 0 <= i < n ==> f[..i] == rs[..i];
      ChosenAreFresh(cfg, inUse, ips[..n], f);
      FirstFreeIsLowest(inUse + Elements(Chosen(f)), ips[n], cfg.portStart, cfg.portEnd);
      if r.Some? {
        assert r.value !in Elements(Chosen(f));
        assert forall i :: 0 <= i < |Chosen(f)| ==> Chosen(f)[i] in Elements(Chosen(f));
      }
    }
  }

  /** Port p of the address is no port number, or was in use before the gather or bound earlier in it. */
  predicate Taken(inUse: set<Endpoint>, rs: seq<Option<Endpoint>>, i: nat, ip: Ip, p: int)
    requires i <= |rs|
  {
    p < 1 || p > 65535 || Endpoint(ip, p) in inUse || Endpoint(ip, p) in Chosen(rs[..i])
  }

  lemma TakenIsNotFree(inUse: set<Endpoint>, rs: seq<Option<Endpoint>>, i: nat, ip: Ip, p: int)
    requires i <= |rs|
    ensures Taken(inUse, rs, i, ip, p) <==> !Free(inUse + Elements(Chosen(rs[..i])), ip, p)
  {
  }

  /** With a port range, an address is skipped exactly if every port of the range was taken for it,
      and otherwise gets the lowest free one; without, it gets a port that was free or is skipped. */
  lemma SkippedMeansFull(cfg: Config, inUse: set<Endpoint>, ips: seq<Ip>, rs: seq<Option<Endpoint>>, i: nat)
    requires Outcomes(cfg, inUse, ips, rs) && i < |ips|
    ensures cfg.portStart > 0 && cfg.portEnd > 0 ==>
              && (rs[i].None? <==>
                  forall p: int :: cfg.portStart <= p <= cfg.portEnd ==> Taken(inUse, rs, i, ips[i], p))
              && (rs[i].Some? ==>
                    && cfg.portStart <= rs[i].value.port <= cfg.portEnd
                    && forall p: int :: cfg.portStart <= p < rs[i].value.port ==> Taken(inUse, rs, i, ips[i], p))
    ensures rs[i].Some? ==>
              && rs[i].value.ip == ips[i] && 0 < rs[i].value.port < 65536
              && rs[i].value !in inUse && rs[i].value !in Chosen(rs[..i])
  {
    var before := inUse + Elements(Chosen(rs[..i]));
    assert BindOutcome(cfg, before, ips[i], rs[i]);
    FirstFreeIsLowest(before, ips[i], cfg.portStart, cfg.portEnd);
    forall p: int
      ensures Taken(inUse, rs, i, ips[i], p) <==> !Free(before, ips[i], p)
    {
      TakenIsNotFree(inUse, rs, i, ips[i], p);
    }
    if rs[i].Some? {
      assert !Taken(inUse, rs, i, ips[i], rs[i].value.port);
    }
  }

  // ---------- Candidates ----------

  /** The host candidate for a bound socket. */
  function HostCandidate(e: Endpoint, foundation: nat): Candidate {
    Candidate("host", Print(foundation), 1, "udp", Priority.Calculate(Priority.Host, IsPrivate(e.ip)),
              IpText(e.ip), e.port, "")
  }

  function HostCandidates(es: seq<Endpoint>): (r: seq<Candidate>)
    ensures |r| == |es|
  {
    seq(|es|, i requires 0 <= i < |es| => HostCandidate(es[i], i + 1))
  }

  /** Each candidate of a gather describes its socket: a host candidate for UDP and component 1, with its
      number in the gather as foundation, and the priority that the address gives it. */
  lemma HostFields(es: seq<Endpoint>, i: nat)
    requires i < |es|
    ensures var c, ip := HostCandidates(es)[i], es[i].ip;
            var isPrivate := || ip.a == 10
                             || (ip.a == 172 && 16 <= ip.b <= 31)
                             || (ip.a == 192 && ip.b == 168);
            && c.typ == "host" && c.component == 1 && c.protocol == "udp" && c.base == ""
            && c.foundation == Digits(i + 1) && c.ip == IpText(ip) && c.port == es[i].port
            && c.priority == 126 * 16777216 + 256 * (if isPrivate then 100 else 200) + 255
  {
    Priority.CalculateNeverWraps(Priority.Host, IsPrivate(es[i].ip));
    PrintedSign(i + 1);
  }

  /** A gather leaves the candidates there were and adds one for each socket it bound, in order. */
  lemma GatheredCandidates(cfg: Config, s: Agent, ips: seq<Ip>, rs: seq<Option<Endpoint>>, i: nat)
    requires CanDo(cfg, s, Gather(ips, rs)) && i < |Chosen(rs)|
    ensures var cs, e := Do(s, Gather(ips, rs)).candidates, Chosen(rs)[i];
            var isPrivate := || e.ip.a == 10
                             || (e.ip.a == 172 && 16 <= e.ip.b <= 31)
                             || (e.ip.a == 192 && e.ip.b == 168);
            && |cs| == |s.candidates| + |Chosen(rs)| && cs[..|s.candidates|] == s.candidates
            && cs[|s.candidates| + i] ==
               Candidate("host", Digits(i + 1), 1, "udp", 126 * 16777216 + 256 * (if isPrivate then 100 else 200) + 255,
                         IpText(e.ip), e.port, "")
  {
    HostFields(Chosen(rs), i);
  }

  /** The candidate names the socket. */
  predicate Names(c: Candidate, e: Endpoint) {
    c.ip == IpText(e.ip) && c.port == e.port
  }

  /** A candidate names one socket only. */
  lemma NamesOne(c: Candidate, e: Endpoint, f: Endpoint)
    requires Names(c, e) && Names(c, f)
    ensures e == f
  {
    IpTextInjective(e.ip, f.ip);
  }

  lemma DigitIsNoSpace(ch: char)
    requires IsDigit(ch) || ch == '.'
    ensures !IsSpace(ch)
  {
  }

  lemma DigitsToken(n: nat)
    ensures IsToken(Digits(n))
  {
    forall i | 0 <= i < |Digits(n)|
      ensures !IsSpace(Digits(n)[i])
    {
      DigitIsNoSpace(Digits(n)[i]);
    }
  }

  lemma JoinTokens(s: string, t: string)
    requires IsToken(s) && IsToken(t)
    ensures IsToken(s + ("." + t))
  {
    DigitIsNoSpace('.');
  }

  lemma IpTextToken(ip: Ip)
    ensures IsToken(IpText(ip))
  {
    DigitsToken(ip.a);
    DigitsToken(ip.b);
    DigitsToken(ip.c);
    DigitsToken(ip.d);
    JoinTokens(Digits(ip.c), Digits(ip.d));
    JoinTokens(Digits(ip.b), Digits(ip.c) + ("." + Digits(ip.d)));
    JoinTokens(Digits(ip.a), Digits(ip.b) + ("." + (Digits(ip.c) + ("." + Digits(ip.d)))));
  }

  /** Every gathered candidate survives its text form unchanged. */
  lemma GatheredRoundTrip(e: Endpoint, foundation: nat)
    ensures Parse(Text(HostCandidate(e, foundation))) == Got(HostCandidate(e, foundation), [])
  {
    var c := HostCandidate(e, foundation);
    DigitsToken(foundation);
    IpTextToken(e.ip);
    assert IsToken("udp") && IsToken("host");
    RoundTrip(c);
  }

  // ---------- The agent as a state machine ----------

  /** The socket and the two candidates of an established connection. */
  datatype Connection = Connection(local: Candidate, remote: Candidate, socket: Endpoint)

  datatype Agent = Agent(
    inUse: set<Endpoint>,       // every bound endpoint of the machine, ours and others'
    candidates: seq<Candidate>,
    listeners: seq<Endpoint>,
    remote: seq<Candidate>,
    connection: Option<Connection>
  )

  function NewAgent(inUse: set<Endpoint>): Agent {
    Agent(inUse, [], [], [], None)
  }

  /** `Others` is not a call: the rest of the machine binds and releases ports. */
  datatype Op =
    | Gather(ips: seq<Ip>, rs: seq<Option<Endpoint>>)
    | AddRemote(c: Candidate)
    | Connect(resolves: bool)
    | Close
    | Others(inUse: set<Endpoint>)

  ghost predicate CanDo(cfg: Config, s: Agent, op: Op) {
    match op
    case Gather(ips, rs) => Outcomes(cfg, s.inUse, ips, rs)
    case Others(inUse) => forall e :: e in s.listeners ==> e in inUse
    case _ => true
  }

  datatype ConnectError = NoLocal | NoRemote | NoListener | BadRemote
  datatype Result<+T, +E> = Ok(value: T) | Err(error: E)

  /** `Agent.Connect`: the first local candidate, the listener at its index, the first remote. */
  function ConnectResult(s: Agent, resolves: bool): Result<Connection, ConnectError> {
    if s.candidates == [] then Err(NoLocal)
    else if s.remote == [] then Err(NoRemote)
    else if s.listeners == [] then Err(NoListener)
    else if !resolves then Err(BadRemote)
    else Ok(Connection(s.candidates[0], s.remote[0], s.listeners[0]))
  }

  function Do(s: Agent, op: Op): Agent {
    match op
    case Gather(_, rs) =>
      s.(inUse := s.inUse + Elements(Chosen(rs)),
         candidates := s.candidates + HostCandidates(Chosen(rs)),
         listeners := s.listeners + Chosen(rs))
    case AddRemote(c) => s.(remote := s.remote + [c])
    case Connect(resolves) =>
      (match ConnectResult(s, resolves)
       case Ok(conn) => s.(connection := Some(conn))
       case Err(_) => s)
    case Close => s.(inUse := s.inUse - Elements(s.listeners), listeners := [])
    case Others(inUse) => s.(inUse := inUse)
  }

  /** A run of calls from state s to state t. */
  ghost predicate AgentRun(cfg: Config, s: Agent, ops: seq<Op>, t: Agent)
    decreases |ops|
  {
    if ops == [] then t == s
    else CanDo(cfg, s, ops[0]) && AgentRun(cfg, Do(s, ops[0]), ops[1..], t)
  }

  /** Listeners belong to the candidates from index off on, one each, in order; their sockets are
      bound, pairwise different, on allowed ports. */
  ghost predicate Aligned(cfg: Config, s: Agent, off: nat) {
    && off + |s.listeners| == |s.candidates|
    && (forall i :: 0 <= i < |s.listeners| ==> Names(s.candidates[off + i], s.listeners[i]))
    && Distinct(s.listeners)
    && (forall e :: e in s.listeners ==> e in s.inUse && PortAllowed(cfg, e.port))
  }

  /** The number of candidates that had been gathered at the last close of the run. */
  function Offset(s: Agent, off: nat, ops: seq<Op>): nat
    decreases |ops|
  {
    if ops == [] then off
    else Offset(Do(s, ops[0]), if ops[0].Close? then |s.candidates| else off, ops[1..])
  }

  lemma DistinctConcat(a: seq<Endpoint>, b: seq<Endpoint>)
    requires Distinct(a) && Distinct(b) && forall e :: e in a ==> e !in b
    ensures Distinct(a + b)
  {
    forall i, j | 0 <= i < j < |a + b|
      ensures (a + b)[i] != (a + b)[j]
    {
      if i < |a| <= j {
        assert a[i] in a && b[j - |a|] in b;
      }
    }
  }

  lemma NewNames(cs: seq<Candidate>, ls: seq<Endpoint>, off: nat, es: seq<Endpoint>)
    requires off + |ls| == |cs| && forall i :: 0 <= i < |ls| ==> Names(cs[off + i], ls[i])
    ensures forall i :: 0 <= i < |ls + es| ==> Names((cs + HostCandidates(es))[off + i], (ls + es)[i])
  {
  }

  lemma GatherKeepsAligned(cfg: Config, s: Agent, off: nat, ips: seq<Ip>, rs: seq<Option<Endpoint>>)
    requires Aligned(cfg, s, off) && CanDo(cfg, s, Gather(ips, rs))
    ensures Aligned(cfg, Do(s, Gather(ips, rs)), off)
  {
    ChosenAreFresh(cfg, s.inUse, ips, rs);
    DistinctConcat(s.listeners, Chosen(rs));
    NewNames(s.candidates, s.listeners, off, Chosen(rs));
  }

  /** One call keeps the alignment; closing moves the offset to the end of the candidates. */
  lemma DoKeepsAligned(cfg: Config, s: Agent, off: nat, op: Op)
    requires Aligned(cfg, s, off) && CanDo(cfg, s, op)
    ensures Aligned(cfg, Do(s, op), if op.Close? then |s.candidates| else off)
  {
    match op
    case Gather(ips, rs) => GatherKeepsAligned(cfg, s, off, ips, rs);
    case _ =>
  }

  /** Over every run, closing included, the lists are aligned from the offset of the last close on. */
  lemma {:induction false} AlwaysAligned(cfg: Config, s: Agent, off: nat, ops: seq<Op>, t: Agent)
    requires Aligned(cfg, s, off) && AgentRun(cfg, s, ops, t)
    ensures Aligned(cfg, t, Offset(s, off, ops))
    decreases |ops|
  {
    if ops != [] {
      DoKeepsAligned(cfg, s, off, ops[0]);
      AlwaysAligned(cfg, Do(s, ops[0]), if ops[0].Close? then |s.candidates| else off, ops[1..], t);
    }
  }

  predicate NeverCloses(ops: seq<Op>) {
    forall i :: 0 <= i < |ops| ==> !ops[i].Close?
  }

  lemma {:induction false} NoCloseNoOffset(s: Agent, off: nat, ops: seq<Op>)
    requires NeverCloses(ops)
    ensures Offset(s, off, ops) == off
    decreases |ops|
  {
    if ops != [] {
      NoCloseNoOffset(Do(s, ops[0]), off, ops[1..]);
    }
  }

  lemma AlignedDistinct(cfg: Config, t: Agent, i: nat, j: nat)
    requires Aligned(cfg, t, 0) && i < j < |t.candidates|
    ensures t.candidates[i].ip != t.candidates[j].ip || t.candidates[i].port != t.candidates[j].port
  {
    assert Names(t.candidates[0 + i], t.listeners[i]) && Names(t.candidates[0 + j], t.listeners[j]);
    if t.candidates[i].ip == t.candidates[j].ip && t.candidates[i].port == t.candidates[j].port {
      NamesOne(t.candidates[i], t.listeners[i], t.listeners[j]);
    }
  }

  /** Gather invariant: in every run without a close, candidates and listeners stay equally long and
      aligned, and their sockets are bound, pairwise different and in the configured range. */
  lemma GatherInvariant(cfg: Config, inUse: set<Endpoint>, ops: seq<Op>, t: Agent)
    requires AgentRun(cfg, NewAgent(inUse), ops, t) && NeverCloses(ops)
    ensures |t.candidates| == |t.listeners|
    ensures forall i :: 0 <= i < |t.listeners| ==> Names(t.candidates[i], t.listeners[i])
    ensures forall i, j :: 0 <= i < j < |t.candidates| ==>
      t.candidates[i].ip != t.candidates[j].ip || t.candidates[i].port != t.candidates[j].port
    ensures forall e :: e in t.listeners ==>
      && e in t.inUse && 0 < e.port
      && (cfg.portStart > 0 && cfg.portEnd > 0 ==> cfg.portStart <= e.port <= cfg.portEnd)
  {
    AlwaysAligned(cfg, NewAgent(inUse), 0, ops, t);
    NoCloseNoOffset(NewAgent(inUse), 0, ops);
    forall i, j | 0 <= i < j < |t.candidates|
      ensures t.candidates[i].ip != t.candidates[j].ip || t.candidates[i].port != t.candidates[j].port
    {
      AlignedDistinct(cfg, t, i, j);
    }
    forall i | 0 <= i < |t.listeners|
      ensures Names(t.candidates[i], t.listeners[i])
    {
      assert Names(t.candidates[0 + i], t.listeners[i]);
    }
  }

  /** The remote candidates in the order they were added. */
  function Added(ops: seq<Op>): seq<Candidate> {
    if ops == [] then [] else (if ops[0].AddRemote? then [ops[0].c] else []) + Added(ops[1..])
  }

  lemma RemoteStep(s: Agent, op: Op)
    ensures Do(s, op).remote == s.remote + (if op.AddRemote? then [op.c] else [])
  {
    assert s.remote + [] == s.remote;
  }

  lemma {:induction false} RemoteIsAdded(cfg: Config, s: Agent, ops: seq<Op>, t: Agent)
    requires AgentRun(cfg, s, ops, t)
    ensures t.remote == s.remote + Added(ops)
    decreases |ops|
  {
    if ops == [] {
      assert s.remote + [] == s.remote;
    } else {
      var one := if ops[0].AddRemote? then [ops[0].c] else [];
      RemoteStep(s, ops[0]);
      RemoteIsAdded(cfg, Do(s, ops[0]), ops[1..], t);
      assert (s.remote + one) + Added(ops[1..]) == s.remote + (one + Added(ops[1..]));
    }
  }

  /** The connection is the pairing of the first candidates and the first listener. */
  predicate Paired(s: Agent) {
    s.connection.Some? ==>
      && s.candidates != [] && s.remote != [] && s.listeners != []
      && s.connection.value == Connection(s.candidates[0], s.remote[0], s.listeners[0])
  }

  lemma {:induction false} StaysPaired(cfg: Config, s: Agent, ops: seq<Op>, t: Agent)
    requires AgentRun(cfg, s, ops, t) && NeverCloses(ops) && Paired(s)
    ensures Paired(t)
    decreases |ops|
  {
    if ops != [] {
      StaysPaired(cfg, Do(s, ops[0]), ops[1..], t);
    }
  }

  /** Connect pairing: in every run without a close, the connection joins the first local candidate
      ever gathered, the bound socket that this candidate names, and the first remote candidate added. */
  lemma ConnectPairs(cfg: Config, inUse: set<Endpoint>, ops: seq<Op>, t: Agent)
    requires AgentRun(cfg, NewAgent(inUse), ops, t) && NeverCloses(ops)
    requires t.connection.Some?
    ensures var c := t.connection.value;
            && t.candidates != [] && c.local == t.candidates[0]
            && Names(c.local, c.socket) && c.socket in t.inUse
            && Added(ops) != [] && c.remote == Added(ops)[0]
  {
    StaysPaired(cfg, NewAgent(inUse), ops, t);
    RemoteIsAdded(cfg, NewAgent(inUse), ops, t);
    GatherInvariant(cfg, inUse, ops, t);
  }

  /** With closes allowed: a successful connect takes the socket of the first candidate gathered after
      the last close, so it is the first candidate's own socket exactly when the two share an endpoint;
      and straight after a close there is no socket to take. */
  lemma ConnectAfterClose(cfg: Config, inUse: set<Endpoint>, ops: seq<Op>, t: Agent, resolves: bool)
    requires AgentRun(cfg, NewAgent(inUse), ops, t)
    ensures var off, r := Offset(NewAgent(inUse), 0, ops), ConnectResult(t, resolves);
            && (r.Ok? <==> t.remote != [] && resolves && off < |t.candidates|)
            && (r.Ok? ==>
                  && Names(t.candidates[off], r.value.socket) && r.value.socket in t.inUse
                  && r.value.local == t.candidates[0]
                  && (Names(r.value.local, r.value.socket) <==>
                      t.candidates[0].ip == t.candidates[off].ip && t.candidates[0].port == t.candidates[off].port))
  {
    AlwaysAligned(cfg, NewAgent(inUse), 0, ops, t);
    var off := Offset(NewAgent(inUse), 0, ops);
    assert t.listeners != [] ==> Names(t.candidates[off + 0], t.listeners[0]) && t.listeners[0] in t.listeners;
  }

  /** Which error `Connect` returns, over all runs: there is no candidate; none was added by the other side;
      nothing was bound since the last close; the remote address does not resolve; checked in this order. */
  lemma ConnectErrors(cfg: Config, inUse: set<Endpoint>, ops: seq<Op>, t: Agent, resolves: bool)
    requires AgentRun(cfg, NewAgent(inUse), ops, t)
    ensures var off, r := Offset(NewAgent(inUse), 0, ops), ConnectResult(t, resolves);
            && (r == Err(NoLocal) <==> t.candidates == [])
            && (r == Err(NoRemote) <==> t.candidates != [] && Added(ops) == [])
            && (r == Err(NoListener) <==> t.candidates != [] && Added(ops) != [] && off == |t.candidates|)
            && (r == Err(BadRemote) <==> Added(ops) != [] && off < |t.candidates| && !resolves)
            && (r.Ok? <==> Added(ops) != [] && off < |t.candidates| && resolves)
  {
    AlwaysAligned(cfg, NewAgent(inUse), 0, ops, t);
    RemoteIsAdded(cfg, NewAgent(inUse), ops, t);
    assert [] + Added(ops) == Added(ops);
  }

  lemma AgentRunCons(cfg: Config, s: Agent, op: Op, ops: seq<Op>, t: Agent)
    requires CanDo(cfg, s, op) && AgentRun(cfg, Do(s, op), ops, t)
    ensures AgentRun(cfg, s, [op] + ops, t)
  {
    assert ([op] + ops)[1..] == ops;
  }

  lemma OneOutcome(cfg: Config, inUse: set<Endpoint>, ip: Ip, e: Endpoint)
    requires Ranged(cfg) && FirstFree(inUse, ip, cfg.portStart, cfg.portEnd) == Some(e)
    ensures Outcomes(cfg, inUse, [ip], [Some(e)]) && Chosen([Some(e)]) == [e]
  {
    var rs := [Some(e)];
    assert rs[..0] == [] && inUse + Elements(Chosen([])) == inUse;
  }

  const DEFAULT := Config(10000, 10100)

  /** The exclusion of close is necessary: gather, close, let another process take the port, gather
      and connect pairs the first candidate with a socket it does not name. */
  lemma CloseBreaksPairing(ip: Ip, remote: Candidate)
    ensures exists ops, t ::
      && AgentRun(DEFAULT, NewAgent({}), ops, t) && t.connection.Some?
      && !Names(t.connection.value.local, t.connection.value.socket)
  {
    var e := Endpoint(ip, 10000);
    var s0 := NewAgent({});
    var g := Gather([ip], [Some(e)]);
    OneOutcome(DEFAULT, {}, ip, e);
    var s1, s2 := Do(s0, g), Do(Do(s0, g), Close);
    var s3 := Do(s2, Others({e}));
    assert s1.listeners == [e] && s1.candidates == [HostCandidate(e, 1)] && s3.listeners == [];
    var ops, t := RegatherElsewhere(s3, ip, remote);
    AgentRunCons(DEFAULT, s2, Others({e}), ops, t);
    AgentRunCons(DEFAULT, s1, Close, [Others({e})] + ops, t);
    AgentRunCons(DEFAULT, s0, g, [Close] + ([Others({e})] + ops), t);
    var c := t.connection.value;
    assert !Names(c.local, c.socket);
  }

  lemma RegatherElsewhere(s: Agent, ip: Ip, remote: Candidate) returns (ops: seq<Op>, t: Agent)
    requires s.inUse == {Endpoint(ip, 10000)} && s.listeners == [] && s.remote == []
    requires s.candidates == [HostCandidate(Endpoint(ip, 10000), 1)]
    ensures AgentRun(DEFAULT, s, ops, t)
    ensures t.connection.Some? && t.connection.value.local == s.candidates[0]
    ensures t.connection.value.socket == Endpoint(ip, 10001)
  {
    var f := Endpoint(ip, 10001);
    assert !Free(s.inUse, ip, 10000) && Free(s.inUse, ip, 10001);
    assert FirstFree(s.inUse, ip, 10001, 10100) == Some(f);
    OneOutcome(DEFAULT, s.inUse, ip, f);
    var g := Gather([ip], [Some(f)]);
    var s1 := Do(s, g);
    assert s1.listeners == [f] && s1.candidates[0] == s.candidates[0];
    var s2 := Do(s1, AddRemote(remote));
    t := Do(s2, Connect(true));
    ops := [g] + ([AddRemote(remote)] + ([Connect(true)] + []));
    AgentRunCons(DEFAULT, s2, Connect(true), [], t);
    AgentRunCons(DEFAULT, s1, AddRemote(remote), [Connect(true)] + [], t);
    AgentRunCons(DEFAULT, s, g, [AddRemote(remote)] + ([Connect(true)] + []), t);
  }
}
