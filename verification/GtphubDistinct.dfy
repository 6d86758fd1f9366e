/** The endpoints of checked tunnels over whole runs of the GTP hub: they stay distinct exactly as long as no create response
    takes an endpoint onto that of another tunnel without telling its TEI, and so as long as none moves an endpoint that was
    announced already (src/gtphub/gtphub.c:1295-1356, 1576-1613). */
module GtphubDistinct {
  import opened GtphubState
  import opened GtphubTei
  import opened GtphubOps
  import opened GtphubSeq
  import opened GtphubEvents
  import opened GtphubExpiry
  import opened GtphubPackets
  import opened GtphubCreate
  import opened GtphubRuns
  import opened GtphubDwindles
  import opened GtphubStops
  import opened GtphubClash

  // ---- Create messages ----

  lemma NewNeverDisplaces(h: Hub, p: Packet, t: nat, from: nat, cfg: Config)
    requires Inv(h) && from in h.net.ports && PeerOf(h, from) in h.peers && t in TunIds(h.lists.tunnels)
    requires TunnelOf(h, t).teiOrig == map[]
    ensures !Displaces(h, p, t, from, cfg)
  {
    hide Inv, TunIds, AddrAt, PlaneSpent, Place, PeerOf, Reused;
  }

  /** The message is a create response of a GGSN that takes an endpoint of its tunnel onto another's. */
  ghost predicate DisplacesThere(h: Hub, p: Packet, tun: Option<nat>, from: nat, cfg: Config)
    requires Inv(h) && from in h.net.ports && (tun.Some? ==> tun.value in TunIds(h.lists.tunnels))
  {
    PeerLive(h, from);
    p.plane == Ctrl && p.kind == CreateRsp && p.side == Ggsn && tun.Some? && Displaces(h, p, tun.value, from, cfg)
  }

  /** What is handled leaves the endpoints distinct or, if `breaks`, does not; it does not break them when it stops the
      program. */
  ghost predicate Breaks(r: Handled, breaks: bool) {
    if r.HandledStop? then !breaks else EndpointsDistinct(r.h) <==> !breaks
  }

  lemma RequestDistinct(h: Hub, p: Packet, from: nat, to: nat, cfg: Config)
    requires Inv(h) && EndpointsDistinct(h) && from in h.net.ports && to in h.net.ports
    ensures var (g, t) := NewTunnel(h, Some(to));
      && Inv(g) && from in g.net.ports && t in TunIds(g.lists.tunnels) && Breaks(CreatePlanes(g, p, t, from, cfg), false)
  {
    hide Inv, NetOk, CreatePlanes, NewTunnel, TunIds, EndpointsDistinct, Displaces, Grows, PeerOf;
    NewTunnelOk(h, Some(to));
    NewDwindles(h, to);
    var (g, t) := NewTunnel(h, Some(to));
    DwindlesDistinct(h, g);
    PortStays(h, g, from);
    PeerLive(g, from);
    FreshTunnel(h);
    InvNet(h);
    NewCalm(h, to);
    TunnelUnique(g, Tunnel(t, TeiNext(h.teiLast), map[], false));
    NewNeverDisplaces(g, p, t, from, cfg);
    PlanesExact(g, p, t, from, cfg);
  }

  lemma CreateExact(h: Hub, p: Packet, tun: Option<nat>, from: nat, to: nat, cfg: Config)
    requires Inv(h) && EndpointsDistinct(h) && from in h.net.ports && to in h.net.ports
    requires tun.Some? ==> tun.value in TunIds(h.lists.tunnels)
    requires p.plane == Ctrl && (p.kind == CreateReq || p.kind == CreateRsp)
    ensures Breaks(HandleCreate(h, p, tun, from, to, cfg), DisplacesThere(h, p, tun, from, cfg))
  {
    hide Inv, CreatePlanes, NewTunnel, TunIds, EndpointsDistinct, Displaces, Grows, PeerOf;
    PeerLive(h, from);
    if p.kind == CreateReq {
      if p.side == Sgsn && tun.None? { RequestDistinct(h, p, from, to, cfg); }
    } else if p.side == Ggsn && tun.Some? {
      PlanesExact(h, p, tun.value, from, cfg);
    }
  }

  // ---- Packets ----

  lemma PdpExact(h: Hub, p: Packet, tun: Option<nat>, from: nat, to: nat, cfg: Config)
    requires Inv(h) && EndpointsDistinct(h) && from in h.net.ports && to in h.net.ports
    requires tun.Some? ==> tun.value in TunIds(h.lists.tunnels)
    ensures Breaks(HandlePdp(h, p, tun, from, to, cfg), DisplacesThere(h, p, tun, from, cfg))
  {
    hide Inv, HandleCreate, HandleDelete, TunIds, EndpointsDistinct, Displaces, PeerOf;
    if p.plane == Ctrl {
      if p.kind == CreateReq || p.kind == CreateRsp {
        CreateExact(h, p, tun, from, to, cfg);
      } else {
        DeleteDwindles(h, p, tun);
        DwindlesDistinct(h, HandleDelete(h, p, tun).h);
      }
    }
  }

  lemma DeliverExact(h: Hub, p: Packet, u: Unmapped, from: nat, to: nat, cfg: Config)
    requires Inv(h) && EndpointsDistinct(h) && u.Unmapped? && from in h.net.ports && to in h.net.ports
    requires u.tun.Some? ==> u.tun.value in TunIds(h.lists.tunnels)
    ensures EndpointsDistinct(Deliver(h, p, u, from, to, cfg).0) <==> !DisplacesThere(h, p, u.tun, from, cfg)
  {
    hide Inv, HandlePdp, Forward, TunIds, EndpointsDistinct, DisplacesThere, Grows, Rests;
    HandlePdpOk(h, p, u.tun, from, to, cfg);
    PdpExact(h, p, u.tun, from, to, cfg);
    StopsWithout(h, p, u.tun, from, to, cfg);
    var r := HandlePdp(h, p, u.tun, from, to, cfg);
    if r.Handled? {
      ForwardRests(r.h, p, u, from, to);
      RestsSame(r.h, Forward(r.h, p, u, from, to).0);
      SameDistinct(r.h, Forward(r.h, p, u, from, to).0);
    }
  }

  /** What has lost its tunnel displaces none. */
  lemma StopsWithout(h: Hub, p: Packet, tun: Option<nat>, from: nat, to: nat, cfg: Config)
    requires Inv(h) && from in h.net.ports && to in h.net.ports && (tun.Some? ==> tun.value in TunIds(h.lists.tunnels))
    ensures var r := HandlePdp(h, p, tun, from, to, cfg); r.Handled? && r.ok && r.tun.None? ==> !DisplacesThere(h, p, tun, from, cfg)
  {
    hide Inv, CreatePlane, HandleDelete, NewTunnel, TunIds, Displaces, PeerOf;
  }

  ghost predicate DisplacesFrom(h: Hub, p: Packet, from: nat, cfg: Config)
    requires Inv(h) && from in h.net.ports && h.queues.clock <= p.later
  {
    LocateOk(h, p, from);
    match Locate(h, p, from)
    case Ends(_, _) => false
    case Located(g, u, _) => DisplacesThere(g, p, u.tun, from, cfg)
  }

  /** The packet is a create response that takes an endpoint of its tunnel onto that of another checked tunnel, in the tables
      that it is delivered in. */
  ghost predicate Displacing(h: Hub, p: Packet, cfg: Config)
    requires Inv(h) && h.queues.clock <= p.now <= p.later
  {
    ArriveOk(h, p);
    match Arrive(h, p)
    case Refused(_, _) => false
    case Arrived(g, from) => DisplacesFrom(g, p, from, cfg)
  }

  lemma RouteExact(h: Hub, p: Packet, from: nat, cfg: Config)
    requires Inv(h) && EndpointsDistinct(h) && from in h.net.ports && h.queues.clock <= p.later
    ensures EndpointsDistinct(Route(h, p, from, cfg).0) <==> !DisplacesFrom(h, p, from, cfg)
  {
    hide Inv, Locate, Deliver, TunIds, EndpointsDistinct, DisplacesThere;
    LocateOk(h, p, from);
    LocateDwindles(h, p, from);
    var l := Locate(h, p, from);
    DwindlesDistinct(h, l.h);
    if l.Located? { DeliverExact(l.h, p, l.u, from, l.to, cfg); }
  }

  lemma HandleExact(h: Hub, p: Packet, cfg: Config)
    requires Inv(h) && EndpointsDistinct(h) && h.queues.clock <= p.now <= p.later
    ensures EndpointsDistinct(HandleBuf(h, p, cfg).0) <==> !Displacing(h, p, cfg)
  {
    hide Inv, Arrive, Route, EndpointsDistinct, DisplacesFrom;
    ArriveOk(h, p);
    ArriveDwindles(h, p);
    var r := Arrive(h, p);
    DwindlesDistinct(h, r.h);
    if r.Arrived? { RouteExact(r.h, p, r.from, cfg); }
  }

  // ---- Whole runs ----

  /** From a hub with distinct endpoints exactly a displacing packet leads to one where two checked tunnels share one. */
  lemma StepExact(h: Hub, e: Event, cfg: Config)
    requires Inv(h) && EndpointsDistinct(h) && h.queues.clock <= TimeOf(e) && (e.Packets? ==> e.p.now <= e.p.later)
    ensures EndpointsDistinct(Step(h, e, cfg)) <==> !(e.Packets? && Displacing(h, e.p, cfg))
  {
    hide Inv, HandleBuf, Gc, LookupDone, EndpointsDistinct, Displacing, Dwindles;
    match e
    case Packets(p) => HandleExact(h, p, cfg);
    case Collects(now) =>
      var g := Advance(h, now);
      AdvanceOk(h, now);
      QuietDwindles(h, g);
      GcDwindles(g, now);
      DwindlesChain(h, g, Gc(g, now));
      DwindlesDistinct(h, Gc(g, now));
    case Resolves(id, addr, now) =>
      var g := Advance(h, now);
      AdvanceOk(h, now);
      QuietDwindles(h, g);
      DwindlesDistinct(h, g);
      var l := FindLookup(g.lists.lookups, id);
      if l.Some? {
        LookupDwindles(g, l.value, addr);
        DwindlesDistinct(g, LookupDone(g, l.value, addr));
      }
  }

  /** The endpoints are distinct at the beginning and after every event. */
  ghost predicate DistinctThroughout(h: Hub, es: seq<Event>, cfg: Config)
    requires Inv(h) && Timed(es, h.queues.clock)
    decreases |es|
  {
    && EndpointsDistinct(h)
    && (es == [] ||
        (StepOk(h, es[0], cfg);
         var g := Step(h, es[0], cfg);
         TimedEarlier(es[1..], EndOf(es[0]), g.queues.clock);
         DistinctThroughout(g, es[1..], cfg)))
  }

  /** No packet of the run is displacing when it comes in. */
  ghost predicate NoneDisplaces(h: Hub, es: seq<Event>, cfg: Config)
    requires Inv(h) && Timed(es, h.queues.clock)
    decreases |es|
  {
    if es == [] then true
    else
      StepOk(h, es[0], cfg);
      var g := Step(h, es[0], cfg);
      TimedEarlier(es[1..], EndOf(es[0]), g.queues.clock);
      (es[0].Packets? ==> !Displacing(h, es[0].p, cfg)) && NoneDisplaces(g, es[1..], cfg)
  }

  lemma {:induction false} RunExact(h: Hub, es: seq<Event>, cfg: Config)
    requires Inv(h) && EndpointsDistinct(h) && Timed(es, h.queues.clock)
    ensures DistinctThroughout(h, es, cfg) <==> NoneDisplaces(h, es, cfg)
    decreases |es|
  {
    hide Inv, Step, EndpointsDistinct, Displacing;
    if es != [] {
      StepOk(h, es[0], cfg);
      StepExact(h, es[0], cfg);
      var g := Step(h, es[0], cfg);
      TimedEarlier(es[1..], EndOf(es[0]), g.queues.clock);
      if EndpointsDistinct(g) {
        RunExact(g, es[1..], cfg);
      } else {
        ThroughoutFirst(g, es[1..], cfg);
      }
    }
  }

  lemma ThroughoutFirst(h: Hub, es: seq<Event>, cfg: Config)
    requires Inv(h) && Timed(es, h.queues.clock)
    ensures DistinctThroughout(h, es, cfg) ==> EndpointsDistinct(h)
  {
    hide Inv, Step, EndpointsDistinct;
  }

  lemma {:induction false} ProxiesNoTunnels(h: Hub, proxies: seq<ProxyAddr>)
    requires Inv(h)
    ensures WithProxies(h, proxies).lists == h.lists
  {
    hide Inv, PortHave, SetRef;
    if proxies != [] {
      var last := |proxies| - 1;
      ProxiesNoTunnels(h, proxies[..last]);
      ProxiesOk(h, proxies[..last]);
      PortHaveOk(WithProxies(h, proxies[..last]), proxies[last].b, proxies[last].addr, proxies[last].num);
    }
  }

  lemma StartedDistinct(now: nat, proxies: seq<ProxyAddr>)
    ensures Started(now, proxies).lists.tunnels == [] && EndpointsDistinct(Started(now, proxies))
  {
    InitOk(now);
    ProxiesNoTunnels(Init(now), proxies);
    hide Inv, WithProxies;
  }

  /** In a run of a hub, proxies or not, checked tunnels have distinct addresses and TEIs at every endpoint throughout if and
      only if no packet of it is displacing. */
  lemma DistinctExact(now: nat, proxies: seq<ProxyAddr>, es: seq<Event>, cfg: Config)
    requires Timed(es, Started(now, proxies).queues.clock)
    ensures DistinctThroughout(Started(now, proxies), es, cfg) <==> NoneDisplaces(Started(now, proxies), es, cfg)
  {
    StartedDistinct(now, proxies);
    hide Inv, Started, EndpointsDistinct, DistinctThroughout, NoneDisplaces, Timed;
    RunExact(Started(now, proxies), es, cfg);
  }

  // ---- A condition on the message and its own tunnel alone ----

  /** A plane of a create response that its tunnel's announced endpoint is moved by: it has no TEI, one was announced before,
      and the address is another. */
  ghost predicate MovesPlane(h: Hub, p: Packet, t: nat, plane: Plane)
    requires t in TunIds(h.lists.tunnels)
  {
    var b := Bind(p.side, plane);
    && plane in p.gsn && TeiIn(p, plane) == 0 && TeiOf(TunnelOf(h, t), b) != 0
    && AddrAt(h, Endpoint(t, b)) != Some(p.gsn[plane])
  }

  /** The packet is a create response of a GGSN, for a tunnel, that moves an endpoint. */
  ghost predicate MovesThere(h: Hub, p: Packet, tun: Option<nat>)
    requires tun.Some? ==> tun.value in TunIds(h.lists.tunnels)
  {
    && p.plane == Ctrl && p.kind == CreateRsp && p.side == Ggsn && tun.Some?
    && (MovesPlane(h, p, tun.value, Ctrl) || MovesPlane(h, p, tun.value, User))
  }

  ghost predicate MovesFrom(h: Hub, p: Packet, from: nat)
    requires Inv(h) && from in h.net.ports && h.queues.clock <= p.later
  {
    LocateOk(h, p, from);
    match Locate(h, p, from)
    case Ends(_, _) => false
    case Located(g, u, _) => MovesThere(g, p, u.tun)
  }

  /** The packet moves an announced endpoint of the tables as it finds them. */
  ghost predicate Moves(h: Hub, p: Packet)
    requires Inv(h) && h.queues.clock <= p.now <= p.later
  {
    ArriveOk(h, p);
    match Arrive(h, p)
    case Refused(_, _) => false
    case Arrived(g, from) => MovesFrom(g, p, from)
  }

  lemma OntoMoves(h: Hub, p: Packet, t: nat, plane: Plane)
    requires Inv(h) && EndpointsDistinct(h) && t in TunIds(h.lists.tunnels) && plane in p.gsn && TeiIn(p, plane) == 0
    requires Onto(h, t, Bind(p.side, plane), p.gsn[plane])
    ensures MovesPlane(h, p, t, plane)
  {
    hide Inv, AddrAt, TunIds, Holds, TeiOf, TeiIn;
    var b := Bind(p.side, plane);
    var x := HeldBy(h, t, b, p.gsn[plane]);
    FourBinds(b);
    assert !SharesAny(h, x, TunnelOf(h, t)) by { HoldsListed(h, t, b, p.gsn[plane], x); }
    HoldsMoves(h, p, t, plane, x);
  }

  lemma HoldsListed(h: Hub, t: nat, b: Bind, a: Addr, x: Tunnel)
    requires t in TunIds(h.lists.tunnels) && Holds(h, t, b, a, x)
    ensures x in h.lists.tunnels && x.checked && x.id != t
  {
    hide AddrAt, TunIds, TeiOf;
  }

  lemma HoldsMoves(h: Hub, p: Packet, t: nat, plane: Plane, x: Tunnel)
    requires t in TunIds(h.lists.tunnels) && plane in p.gsn && TeiIn(p, plane) == 0
    requires Holds(h, t, Bind(p.side, plane), p.gsn[plane], x) && !Shares(h, x, TunnelOf(h, t), Bind(p.side, plane))
    ensures MovesPlane(h, p, t, plane)
  {
    hide AddrAt, TunIds, TeiOf, TeiIn;
  }

  lemma LateMoves(h: Hub, p: Packet, t: nat, a: Addr)
    requires Inv(h) && t in TunIds(h.lists.tunnels) && User in p.gsn && TeiIn(p, User) == 0
    requires HeldLate(h, t, Bind(p.side, Ctrl), a, TeiIn(p, Ctrl), Bind(p.side, User), p.gsn[User])
    ensures MovesPlane(h, p, t, User)
  {
    hide Inv, AddrAt, TunIds, Holds, TeiOf, TeiIn, Shares;
    var x :| Holds(h, t, Bind(p.side, User), p.gsn[User], x) && !Reused(h, t, Bind(p.side, Ctrl), a, TeiIn(p, Ctrl), x);
    FourBinds(Bind(p.side, User));
    HoldsMoves(h, p, t, User, x);
  }

  /** A displacing response moves an announced endpoint of its tunnel. */
  lemma DisplacesMoves(h: Hub, p: Packet, tun: Option<nat>, from: nat, cfg: Config)
    requires Inv(h) && EndpointsDistinct(h) && from in h.net.ports && (tun.Some? ==> tun.value in TunIds(h.lists.tunnels))
    requires DisplacesThere(h, p, tun, from, cfg)
    ensures MovesThere(h, p, tun)
  {
    hide Inv, TunIds, EndpointsDistinct, TeiOf, TeiIn, Onto, HeldLate, PlaneSpent, MovesPlane, PeerOf;
    PeerLive(h, from);
    var t := tun.value;
    var b := Bind(p.side, Ctrl);
    if TeiIn(p, Ctrl) != 0 {
      LateMoves(h, p, t, p.gsn[Ctrl]);
    } else if Onto(h, t, b, p.gsn[Ctrl]) {
      OntoMoves(h, p, t, Ctrl);
    } else {
      OntoMoves(h, p, t, User);
    }
  }

  lemma DisplacingMoves(h: Hub, p: Packet, cfg: Config)
    requires Inv(h) && EndpointsDistinct(h) && h.queues.clock <= p.now <= p.later && Displacing(h, p, cfg)
    ensures Moves(h, p)
  {
    hide Inv, Arrive, Locate, TunIds, EndpointsDistinct, DisplacesThere, MovesThere;
    ArriveOk(h, p);
    ArriveDwindles(h, p);
    var r := Arrive(h, p);
    DwindlesDistinct(h, r.h);
    LocateOk(r.h, p, r.from);
    LocateDwindles(r.h, p, r.from);
    var l := Locate(r.h, p, r.from);
    DwindlesDistinct(r.h, l.h);
    DisplacesMoves(l.h, p, l.u.tun, r.from, cfg);
  }

  lemma StepDistinct(h: Hub, e: Event, cfg: Config)
    requires Inv(h) && EndpointsDistinct(h) && h.queues.clock <= TimeOf(e) && (e.Packets? ==> e.p.now <= e.p.later)
    requires e.Packets? ==> !Moves(h, e.p)
    ensures EndpointsDistinct(Step(h, e, cfg))
  {
    hide Inv, Step, EndpointsDistinct, Moves, Displacing;
    StepExact(h, e, cfg);
    if e.Packets? && Displacing(h, e.p, cfg) { DisplacingMoves(h, e.p, cfg); }
  }

  /** No packet of the run moves an announced endpoint. */
  ghost predicate NoneMoves(h: Hub, es: seq<Event>, cfg: Config)
    requires Inv(h) && Timed(es, h.queues.clock)
    decreases |es|
  {
    if es == [] then true
    else
      StepOk(h, es[0], cfg);
      var g := Step(h, es[0], cfg);
      TimedEarlier(es[1..], EndOf(es[0]), g.queues.clock);
      (es[0].Packets? ==> !Moves(h, es[0].p)) && NoneMoves(g, es[1..], cfg)
  }

  lemma {:induction false} RunDistinct(h: Hub, es: seq<Event>, cfg: Config)
    requires Inv(h) && EndpointsDistinct(h) && Timed(es, h.queues.clock) && NoneMoves(h, es, cfg)
    ensures EndpointsDistinct(Run(h, es, cfg))
    decreases |es|
  {
    hide Inv, Step, EndpointsDistinct, Moves;
    if es != [] {
      StepOk(h, es[0], cfg);
      StepDistinct(h, es[0], cfg);
      var g := Step(h, es[0], cfg);
      TimedEarlier(es[1..], EndOf(es[0]), g.queues.clock);
      RunDistinct(g, es[1..], cfg);
    }
  }

  /** In every run of a hub, proxies or not, in which no create response without a TEI moves an announced endpoint to
      another address, no two checked tunnels ever have the same address and TEI at the same endpoint. */
  lemma DistinctEveryRun(now: nat, proxies: seq<ProxyAddr>, es: seq<Event>, cfg: Config)
    requires Timed(es, Started(now, proxies).queues.clock) && NoneMoves(Started(now, proxies), es, cfg)
    ensures EndpointsDistinct(Run(Started(now, proxies), es, cfg))
  {
    StartedDistinct(now, proxies);
    hide Inv, Started, EndpointsDistinct, Run, NoneMoves, Timed;
    RunDistinct(Started(now, proxies), es, cfg);
  }
}
