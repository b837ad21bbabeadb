/** The gatherer and the agent as objects. Each call refines one step of the state machine of
    module Gathering, which is what its run-level properties are proved about. */
module IceAgents {
  import opened CandidateText
  import opened Gathering

  /** The machine's UDP ports. */
  class Net {
    var inUse: set<Endpoint>

    /** `net.ListenUDP` on a given port. */
    method ListenUDP(ip: Ip, port: int) returns (r: Option<Endpoint>)
      modifies this
      ensures r == if Free(old(inUse), ip, port) then Some(Endpoint(ip, port)) else None
      ensures inUse == old(inUse) + (if r.Some? then {r.value} else {})
    {
      r := None;
      if Free(inUse, ip, port) {
        r := Some(Endpoint(ip, port));
        inUse := inUse + {r.value};
      }
    }

    /** `net.ListenUDP` on port 0: the system picks a free port, or fails. */
    method ListenAny(ip: Ip) returns (r: Option<Endpoint>)
      modifies this
      ensures r.Some? ==> r.value.ip == ip && Free(old(inUse), ip, r.value.port)
      ensures inUse == old(inUse) + (if r.Some? then {r.value} else {})
    {
      r := None;
      if p: Port :| Free(inUse, ip, p) {
        if * {
          r := Some(Endpoint(ip, p));
          inUse := inUse + {r.value};
        }
      }
    }

    method Release(e: Endpoint)
      modifies this
      ensures inUse == old(inUse) - {e}
    {
      inUse := inUse - {e};
    }
  }

  class Gatherer {
    const cfg: Config
    const net: Net
    var candidates: seq<Candidate>
    var listeners: seq<Endpoint>

    constructor (cfg: Config, net: Net)
      ensures this.cfg == cfg && this.net == net && candidates == [] && listeners == []
    {
      this.cfg, this.net := cfg, net;
      candidates, listeners := [], [];
    }

    method BindUDP(ip: Ip) returns (r: Option<Endpoint>)
      modifies net
      ensures BindOutcome(cfg, old(net.inUse), ip, r)
      ensures net.inUse == old(net.inUse) + (if r.Some? then {r.value} else {})
    {
      if cfg.portStart > 0 && cfg.portEnd > 0 {
        var port := cfg.portStart;
        while port <= cfg.portEnd
          invariant net.inUse == old(net.inUse)
          invariant FirstFree(old(net.inUse), ip, cfg.portStart, cfg.portEnd)
                    == FirstFree(old(net.inUse), ip, port, cfg.portEnd)
          decreases cfg.portEnd - port
        {
          r := net.ListenUDP(ip, port);
          if r.Some? {
            return;
          }
          port := port + 1;
        }
        return None;
      }
      r := net.ListenAny(ip);
    }

    /** One bind per address; addresses that cannot be bound are skipped. `rs` records the binds. */
    method Gather(ips: seq<Ip>) returns (ok: bool, ghost rs: seq<Option<Endpoint>>)
      modifies this`candidates, this`listeners, net
      ensures Outcomes(cfg, old(net.inUse), ips, rs)
      ensures candidates == old(candidates) + HostCandidates(Chosen(rs))
      ensures listeners == old(listeners) + Chosen(rs)
      ensures net.inUse == old(net.inUse) + Elements(Chosen(rs))
      ensures ok <==> candidates != []
    {
      rs := [];
      var foundation := 1;
      for i := 0 to |ips|
        invariant Outcomes(cfg, old(net.inUse), ips[..i], rs)
        invariant foundation == |Chosen(rs)| + 1
        invariant Extends(old(candidates), candidates, old(listeners), listeners, rs)
        invariant net.inUse == old(net.inUse) + Elements(Chosen(rs))
      {
        var r := BindUDP(ips[i]);
        OutcomesExtend(cfg, old(net.inUse), ips, rs, i, r);
        ExtendsNext(old(candidates), candidates, old(listeners), listeners, rs, r);
        if r.Some? {
          candidates := candidates + [HostCandidate(r.value, foundation)];
          listeners := listeners + [r.value];
          foundation := foundation + 1;
        }
        rs := rs + [r];
      }
      assert ips[..|ips|] == ips;
      ok := candidates != [];
    }

    /** Closes every socket and forgets the listeners, but keeps the candidates. */
    method Close()
      modifies this`listeners, net
      ensures listeners == []
      ensures net.inUse == old(net.inUse) - Elements(old(listeners))
    {
      for i := 0 to |listeners|
        invariant listeners == old(listeners)
        invariant net.inUse == old(net.inUse) - Elements(listeners[..i])
      {
        assert listeners[..i + 1] == listeners[..i] + [listeners[i]];
        net.Release(listeners[i]);
      }
      assert listeners[..|listeners|] == listeners;
      listeners := [];
    }
  }

  lemma OutcomesExtend(cfg: Config, inUse: set<Endpoint>, ips: seq<Ip>, rs: seq<Option<Endpoint>>, i: nat, r: Option<Endpoint>)
    requires i < |ips| && Outcomes(cfg, inUse, ips[..i], rs)
    requires BindOutcome(cfg, inUse + Elements(Chosen(rs)), ips[i], r)
    ensures Outcomes(cfg, inUse, ips[..i + 1], rs + [r])
    ensures Chosen(rs + [r]) == Chosen(rs) + (if r.Some? then [r.value] else [])
    ensures Elements(Chosen(rs + [r])) == Elements(Chosen(rs)) + (if r.Some? then {r.value} else {})
  {
    var all := rs + [r];
    assert all[..i] == rs;
    forall k | 0 <= k < i + 1
      ensures BindOutcome(cfg, inUse + Elements(Chosen(all[..k])), ips[..i + 1][k], all[k])
    {
      if k < i {
        assert all[..k] == rs[..k];
        assert BindOutcome(cfg, inUse + Elements(Chosen(rs[..k])), ips[..i][k], rs[k]);
      }
    }
  }

  /** The two lists have grown by what was bound, in order. */
  ghost predicate Extends(
    candidates: seq<Candidate>, candidates': seq<Candidate>,
    listeners: seq<Endpoint>, listeners': seq<Endpoint>, rs: seq<Option<Endpoint>>
  ) {
    candidates' == candidates + HostCandidates(Chosen(rs)) && listeners' == listeners + Chosen(rs)
  }

  /** One more bind, in the body of the loop. */
  lemma ExtendsNext(
    candidates: seq<Candidate>, candidates': seq<Candidate>,
    listeners: seq<Endpoint>, listeners': seq<Endpoint>, rs: seq<Option<Endpoint>>, r: Option<Endpoint>
  )
    requires Extends(candidates, candidates', listeners, listeners', rs)
    requires Chosen(rs + [r]) == Chosen(rs) + (if r.Some? then [r.value] else [])
    ensures if r.Some? then
              Extends(candidates, candidates' + [HostCandidate(r.value, |Chosen(rs)| + 1)],
                      listeners, listeners' + [r.value], rs + [r])
            else Extends(candidates, candidates', listeners, listeners', rs + [r])
  {
    if r.Some? {
      HostCandidatesExtend(Chosen(rs), r.value);
    } else {
      assert Chosen(rs) + [] == Chosen(rs);
    }
  }

  lemma HostCandidatesExtend(es: seq<Endpoint>, e: Endpoint)
    ensures HostCandidates(es + [e]) == HostCandidates(es) + [HostCandidate(e, |es| + 1)]
  {
  }

  class IceAgent {
    const gatherer: Gatherer
    var localCandidates: seq<Candidate>
    var remoteCandidates: seq<Candidate>
    var connection: Option<Connection>

    ghost predicate Valid()
      reads this, gatherer
    {
      localCandidates == gatherer.candidates
    }

    ghost function State(): Agent
      reads this, gatherer, gatherer.net
    {
      Agent(gatherer.net.inUse, gatherer.candidates, gatherer.listeners, remoteCandidates, connection)
    }

    constructor (cfg: Config, net: Net)
      ensures Valid() && State() == NewAgent(net.inUse)
      ensures gatherer.cfg == cfg && gatherer.net == net && fresh(gatherer)
    {
      gatherer := new Gatherer(cfg, net);
      localCandidates, remoteCandidates, connection := [], [], None;
    }

    /** On failure nothing was gathered, now or before, and nothing has changed. */
    method Gather(ips: seq<Ip>) returns (ok: bool, ghost op: Op)
      requires Valid()
      modifies this`localCandidates, gatherer`candidates, gatherer`listeners, gatherer.net
      ensures Valid()
      ensures op.Gather? && op.ips == ips && CanDo(gatherer.cfg, old(State()), op)
      ensures State() == Do(old(State()), op)
      ensures ok <==> localCandidates != []
    {
      ghost var rs;
      ok, rs := gatherer.Gather(ips);
      op := Op.Gather(ips, rs);
      if ok {
        localCandidates := gatherer.candidates;
      }
    }

    method AddRemoteCandidate(c: Candidate)
      requires Valid()
      modifies this`remoteCandidates
      ensures Valid() && State() == Do(old(State()), AddRemote(c))
    {
      remoteCandidates := remoteCandidates + [c];
    }

    /** The loop looks for the first candidate's own listener; index 0 always is the first match. The
        outcome of resolving the remote address is a parameter. */
    method Connect(resolves: bool) returns (r: Result<Connection, ConnectError>)
      requires Valid()
      modifies this`connection
      ensures Valid() && State() == Do(old(State()), Op.Connect(resolves))
      ensures r == ConnectResult(old(State()), resolves)
    {
      if localCandidates == [] {
        return Err(NoLocal);
      }
      if remoteCandidates == [] {
        return Err(NoRemote);
      }
      var listeners := gatherer.listeners;
      var local := localCandidates[0];
      var localConn: Option<Endpoint> := None;
      for i := 0 to |localCandidates|
        invariant localConn.None?
        invariant i > 0 ==> listeners == []
      {
        if localCandidates[i] == local && i < |listeners| {
          localConn := Some(listeners[i]);
          break;
        }
      }
      if localConn.None? {
        return Err(NoListener);
      }
      if !resolves {
        return Err(BadRemote);
      }
      var conn := Connection(local, remoteCandidates[0], localConn.value);
      connection := Some(conn);
      r := Ok(conn);
    }

    method Close()
      requires Valid()
      modifies gatherer`listeners, gatherer.net
      ensures Valid() && State() == Do(old(State()), Op.Close)
    {
      gatherer.Close();
    }
  }
}
