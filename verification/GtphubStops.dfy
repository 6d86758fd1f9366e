/** Which packets stop the GTP hub: the assertions on port numbers, on the version of the protocol and on the tunnel of a
    message, and the exhausted range of replacement TEIs
    (src/gtphub/gtphub.c:957-962, 1235-1238, 1306-1345, 1494-1517, 1595-1613, 2271-2297, 2599-2602). */
module GtphubStops {
  import opened GtphubState
  import opened GtphubTei
  import opened GtphubOps
  import opened GtphubSeq
  import opened GtphubEvents
  import opened GtphubPackets
  import opened GtphubCreate
  import opened GtphubDwindles
  import opened GtphubRoutes

  /** A message that must belong to a tunnel and does not: any on the user plane but for a delete response, and on the
      control plane a create response of a GGSN or one the hub does not look into. */
  predicate Astray<T>(p: Packet, tun: Option<T>) {
    && tun.None?
    && (if p.plane == User then p.kind != DeleteRsp else p.kind == OtherMessage || (p.kind == CreateRsp && p.side == Ggsn))
  }

  /** No replacement TEI is left for the tunnel once the endpoint has its new peer and TEI. */
  ghost predicate Spent(h: Hub, x: Tunnel) {
    Stuck(Pick(x.teiRepl, TEI_MAX, NO_RANGE_YET), {}, OtherTeis(h, h.lists.tunnels, x))
  }

  /** One plane of a create message finds no TEI. */
  ghost predicate PlaneSpent(h: Hub, p: Packet, t: nat, from: nat, plane: Plane, cfg: Config)
    requires Inv(h) && from in h.net.ports && PeerOf(h, from) in h.peers && t in TunIds(h.lists.tunnels)
  {
    && plane in p.gsn && TeiIn(p, plane) != 0
    && var b := Bind(p.side, plane);
       PeerFromIeOk(h, p, from, plane, cfg);
       var (g, peer) := PeerFromIe(h, p, from, plane, cfg);
       var e := SetEndpoint(g, t, b, Some(peer));
       var x := TunnelOf(e, t);
       var y := x.(teiOrig := x.teiOrig[b := TeiIn(p, plane)]);
       Spent(PutTunnel(e, y), y)
  }

  /** A create message finds none, on its first plane or, that one handled, on its second. */
  ghost predicate PlanesSpent(h: Hub, p: Packet, t: nat, from: nat, cfg: Config)
    requires Inv(h) && from in h.net.ports && t in TunIds(h.lists.tunnels)
  {
    CreatePlaneOk(h, p, t, from, Ctrl, cfg);
    var one := CreatePlane(h, p, t, from, Ctrl, cfg);
    || PlaneSpent(h, p, t, from, Ctrl, cfg)
    || (one.PlaneDone? && from in one.h.net.ports && PeerOf(one.h, from) in one.h.peers
        && PlaneSpent(one.h, p, t, from, User, cfg))
  }

  ghost predicate OutOfTeis(h: Hub, p: Packet, tun: Option<nat>, from: nat, to: nat, cfg: Config)
    requires Inv(h) && from in h.net.ports && to in h.net.ports && (tun.Some? ==> tun.value in TunIds(h.lists.tunnels))
  {
    NewTunnelOk(h, Some(to));
    var (g, t) := NewTunnel(h, Some(to));
    && p.plane == Ctrl
    && ((p.kind == CreateReq && p.side == Sgsn && tun.None? && from in g.net.ports && PlanesSpent(g, p, t, from, cfg))
        || (p.kind == CreateRsp && p.side == Ggsn && tun.Some? && PlanesSpent(h, p, tun.value, from, cfg)))
  }

  lemma AnnounceAborts(h: Hub, x: Tunnel, b: Bind, tei: nat)
    requires Inv(h) && x in h.lists.tunnels
    ensures var y := x.(teiOrig := x.teiOrig[b := tei]); Announce(h, x, b, tei).PlaneAbort? <==> Spent(PutTunnel(h, y), y)
  {
    var y := x.(teiOrig := x.teiOrig[b := tei]);
    assert x.id in TunIds(h.lists.tunnels);
    hide Inv, CheckReused, PutTunnel, TunIds, Stuck, OtherTeis;
    TunnelRange(h, x);
    PutTunnelOk(h, y);
    PutTunnelGrows(h, y);
    CheckReusedFails(PutTunnel(h, y), y);
  }

  lemma PlaneIeAborts(h: Hub, t: nat, b: Bind, peer: nat, tei: nat)
    requires Inv(h) && t in TunIds(h.lists.tunnels) && peer in h.net.ports
    ensures var e := SetEndpoint(h, t, b, Some(peer));
      && t in TunIds(e.lists.tunnels)
      && var x := TunnelOf(e, t); var y := x.(teiOrig := x.teiOrig[b := tei]);
         PlaneIe(h, t, b, peer, tei).PlaneAbort? <==> tei != 0 && Spent(PutTunnel(e, y), y)
  {
    hide Inv, TunIds, Announce, SetEndpoint, Spent, PutTunnel, SamePorts;
    SetEndpointOk(h, t, b, Some(peer));
    var e := SetEndpoint(h, t, b, Some(peer));
    AnnounceAborts(e, TunnelOf(e, t), b, tei);
  }

  lemma PlaneAborts(h: Hub, p: Packet, t: nat, from: nat, plane: Plane, cfg: Config)
    requires Inv(h) && from in h.net.ports && PeerOf(h, from) in h.peers && t in TunIds(h.lists.tunnels)
    ensures CreatePlane(h, p, t, from, plane, cfg).PlaneAbort? <==> PlaneSpent(h, p, t, from, plane, cfg)
  {
    hide Inv, TunIds, PlaneIe, PeerFromIe, SetEndpoint, Spent, PutTunnel, PeerOf;
    if plane in p.gsn {
      PeerFromIeOk(h, p, from, plane, cfg);
      var (g, peer) := PeerFromIe(h, p, from, plane, cfg);
      KeepsInv(h, g);
      PlaneIeAborts(g, t, Bind(p.side, plane), peer, TeiIn(p, plane));
    }
  }

  lemma PlanesStop(h: Hub, p: Packet, t: nat, from: nat, cfg: Config)
    requires Inv(h) && from in h.net.ports && t in TunIds(h.lists.tunnels)
    ensures CreatePlanes(h, p, t, from, cfg).HandledStop? <==> PlanesSpent(h, p, t, from, cfg)
  {
    hide Inv, TunIds, CreatePlane, PlaneSpent, PeerOf;
    CreatePlaneOk(h, p, t, from, Ctrl, cfg);
    PlaneAborts(h, p, t, from, Ctrl, cfg);
    var one := CreatePlane(h, p, t, from, Ctrl, cfg);
    if one.PlaneDone? {
      PortStays(h, one.h, from);
      CreatePlaneOk(one.h, p, t, from, User, cfg);
      PlaneAborts(one.h, p, t, from, User, cfg);
    }
  }

  lemma CreateStops(h: Hub, p: Packet, tun: Option<nat>, from: nat, to: nat, cfg: Config)
    requires Inv(h) && from in h.net.ports && to in h.net.ports && (tun.Some? ==> tun.value in TunIds(h.lists.tunnels))
    requires p.plane == Ctrl && (p.kind == CreateReq || p.kind == CreateRsp)
    ensures HandleCreate(h, p, tun, from, to, cfg).HandledStop?
       <==> Astray(p, tun) || OutOfTeis(h, p, tun, from, to, cfg)
  {
    hide Inv, TunIds, CreatePlanes, PlanesSpent, NewTunnel;
    NewTunnelOk(h, Some(to));
    var (g, t) := NewTunnel(h, Some(to));
    PortStays(h, g, from);
    PlanesStop(g, p, t, from, cfg);
    if tun.Some? { PlanesStop(h, p, tun.value, from, cfg); }
  }

  /** A create message that goes through has a tunnel. */
  lemma CreateHasTunnel(h: Hub, p: Packet, tun: Option<nat>, from: nat, to: nat, cfg: Config)
    requires Inv(h) && from in h.net.ports && to in h.net.ports && (tun.Some? ==> tun.value in TunIds(h.lists.tunnels))
    requires p.plane == Ctrl && (p.kind == CreateReq || p.kind == CreateRsp)
    ensures var r := HandleCreate(h, p, tun, from, to, cfg); r.Handled? && r.ok ==> r.tun.Some?
  {
    hide Inv, TunIds, CreatePlane, NewTunnel;
    NewTunnelOk(h, Some(to));
    var (g, t) := NewTunnel(h, Some(to));
    PortStays(h, g, from);
  }

  lemma DeliverStops(h: Hub, p: Packet, u: Unmapped, from: nat, to: nat, cfg: Config)
    requires Inv(h) && u.Unmapped? && from in h.net.ports && to in h.net.ports && p.kind != EchoReq
    requires u.tun.Some? ==> u.tun.value in TunIds(h.lists.tunnels)
    ensures Deliver(h, p, u, from, to, cfg).1.Stopped? <==> Astray(p, u.tun) || OutOfTeis(h, p, u.tun, from, to, cfg)
  {
    hide Inv, TunIds, HandleCreate, HandleDelete, OutOfTeis, Forward, MappingHave;
    HandlePdpOk(h, p, u.tun, from, to, cfg);
    var r := HandlePdp(h, p, u.tun, from, to, cfg);
    NoneSpent(h, p, u.tun, from, to, cfg);
    if r.Handled? && r.ok { ForwardGoes(r.h, p, u, from, to); }
    if p.plane == Ctrl && (p.kind == CreateReq || p.kind == CreateRsp) {
      CreateStops(h, p, u.tun, from, to, cfg);
      CreateHasTunnel(h, p, u.tun, from, to, cfg);
    } else if p.plane == Ctrl && (p.kind == DeleteReq || p.kind == DeleteRsp) {
      DeleteHasTunnel(h, p, u.tun);
    }
  }

  lemma NoneSpent(h: Hub, p: Packet, tun: Option<nat>, from: nat, to: nat, cfg: Config)
    requires Inv(h) && from in h.net.ports && to in h.net.ports && (tun.Some? ==> tun.value in TunIds(h.lists.tunnels))
    ensures OutOfTeis(h, p, tun, from, to, cfg) ==> p.plane == Ctrl && (p.kind == CreateReq || p.kind == CreateRsp)
  {
    hide Inv, TunIds, PlanesSpent, NewTunnel;
  }

  lemma ForwardGoes(h: Hub, p: Packet, u: Unmapped, from: nat, to: nat)
    requires Inv(h) && u.Unmapped? && from in h.net.ports && to in h.net.ports
    ensures Forward(h, p, u, from, to).1.Forwarded?
  {
    hide Inv, MappingHave;
  }

  lemma DeleteHasTunnel(h: Hub, p: Packet, tun: Option<nat>)
    ensures var r := HandleDelete(h, p, tun); r.Handled? && (r.ok && p.kind == DeleteReq ==> r.tun.Some?)
  {
    hide DeleteRequest, DeleteResponse;
  }

  /** No TEI is left for a create message in the tables that it is delivered in. */
  ghost predicate RunsOut(h: Hub, p: Packet, cfg: Config)
    requires Inv(h) && h.queues.clock <= p.now <= p.later
  {
    ArriveOk(h, p);
    match Arrive(h, p)
    case Refused(_, _) => false
    case Arrived(g, from) => RunsOutThere(g, p, from, cfg)
  }

  ghost predicate RunsOutThere(h: Hub, p: Packet, from: nat, cfg: Config)
    requires Inv(h) && from in h.net.ports && h.queues.clock <= p.later
  {
    LocateOk(h, p, from);
    match Locate(h, p, from)
    case Ends(_, _) => false
    case Located(g, u, to) => OutOfTeis(g, p, u.tun, from, to, cfg)
  }

  ghost predicate Fatal(h: Hub, p: Packet, cfg: Config)
    requires Inv(h) && h.queues.clock <= p.now <= p.later
  {
    && p.kind != EchoReq
    && (|| Portless(h, p)
        || (KnownSender(h, p) && (p.gtp0 || (Destined(h, p) && (Astray(p, TunnelFor(h, p)) || RunsOut(h, p, cfg))))))
  }

  /** The same, for a packet that has arrived. */
  ghost predicate FatalThere(h: Hub, p: Packet, g: Hub, from: nat, cfg: Config)
    requires Inv(g) && from in g.net.ports && g.queues.clock <= p.later
  {
    Destined(h, p) && (Astray(p, TunnelFor(h, p)) || RunsOutThere(g, p, from, cfg))
  }

  lemma RouteStops(h: Hub, p: Packet, g: Hub, from: nat, cfg: Config)
    requires Inv(g) && from in g.net.ports && g.queues.clock <= p.later && p.kind != EchoReq
    requires AsRouted(h, p, Locate(g, p, from))
    ensures Route(g, p, from, cfg).1.Stopped? <==> FatalThere(h, p, g, from, cfg)
  {
    hide Inv, Locate, Deliver, TunIds, OutOfTeis, Destined, TunnelFor, Goal;
    LocateOk(g, p, from);
    LocateEnds(g, p, from);
    var l := Locate(g, p, from);
    if l.Located? { DeliverStops(l.h, p, l.u, from, l.to, cfg); }
  }

  /** A packet that is no echo request stops the hub if and only if a port number of zero is looked up for it, or its sender
      is known and either it is of version 0, or there is somewhere to send it and it is astray or the check for reused TEIs,
      run for its endpoint, has both ends of the range taken and meets the number it had picked. */
  lemma StopsExact(h: Hub, p: Packet, cfg: Config)
    requires Inv(h) && h.queues.clock <= p.now <= p.later
    ensures HandleBuf(h, p, cfg).1.Stopped? <==> Fatal(h, p, cfg)
  {
    hide Inv, Arrive, Route, RunsOutThere, KnownSender, PortSought, Destined, Astray, TunnelFor, Heeded, AsRouted, Locate;
    ArriveOk(h, p);
    ArrivesExact(h, p);
    var r := Arrive(h, p);
    if r.Arrived? {
      LocatedExact(h, p, r.h, r.from);
      RouteStops(h, p, r.h, r.from, cfg);
    } else {
      PortlessKnown(h, p);
    }
  }

  lemma PortlessKnown(h: Hub, p: Packet)
    ensures Portless(h, p) ==> !KnownSender(h, p)
  {
    if Portless(h, p) { PortlessUnknown(h, p); }
  }

  lemma LocateEnds(h: Hub, p: Packet, from: nat)
    requires Inv(h) && from in h.net.ports && h.queues.clock <= p.later
    ensures var l := Locate(h, p, from); l.Ends? ==> !l.out.Stopped?
  {
    hide Inv, Unmap, Resolve, DelItem;
  }

  // ---- A hub that was just started ----

  lemma MadeProxy(h: Hub, b: Bind, a: Addr, num: PortNum, c: Bind)
    requires Inv(h) && b != c
    ensures var g := MakeProxy(h, b, a, num); RefAt(g, Proxy(c)) == RefAt(h, Proxy(c)) && g.queues.clock == h.queues.clock
  {
    hide Inv, PortHave, SetRef, NetOk, SamePorts;
    PortHaveOk(h, b, a, num);
    var (g, pp) := PortHave(h, b, a, num);
    InvNet(g);
    SetRefOk(g.net, Proxy(b), Some(pp));
  }

  lemma {:induction false} ProxyPointers(h: Hub, proxies: seq<ProxyAddr>, b: Bind)
    requires Inv(h) && forall x <- proxies :: x.b != b
    ensures Inv(WithProxies(h, proxies)) && RefAt(WithProxies(h, proxies), Proxy(b)) == RefAt(h, Proxy(b))
    ensures WithProxies(h, proxies).queues.clock == h.queues.clock
  {
    hide Inv, MakeProxy, RefAt;
    ProxiesOk(h, proxies);
    if proxies != [] {
      var last := |proxies| - 1;
      assert proxies[last] in proxies && forall x <- proxies[..last] :: x in proxies;
      ProxyPointers(h, proxies[..last], b);
      MadeProxy(WithProxies(h, proxies[..last]), proxies[last].b, proxies[last].addr, proxies[last].num, b);
    }
  }

  /** It takes no tunnel and no peer to stop a hub without a proxy for its SGSNs: any packet on their control socket does,
      except an echo request, that comes from port zero or is of version 0. */
  lemma StartedStops(now: nat, proxies: seq<ProxyAddr>, p: Packet, cfg: Config)
    requires (forall x <- proxies :: x.b != SGSN_CTRL) && now <= p.now <= p.later
    requires p.side == Sgsn && p.plane == Ctrl && p.kind != EchoReq && (p.fromPort == 0 || p.gtp0)
    ensures Started(now, proxies).queues.clock == now && HandleBuf(Started(now, proxies), p, cfg).1.Stopped?
  {
    hide Inv, HandleBuf, RunsOut, Destined, Astray, TunnelFor, WithProxies;
    InitOk(now);
    ProxyPointers(Init(now), proxies, SGSN_CTRL);
    StopsExact(Started(now, proxies), p, cfg);
  }
}
