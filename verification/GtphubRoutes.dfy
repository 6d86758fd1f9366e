/** Whom the GTP hub takes a packet from and where it sends it, read off the tables as they are before the packet
    (src/gtphub/gtphub.c:1367-1452, 1849-1928, 1993-2056, 2165-2268, 2752-2803). */
module GtphubRoutes {
  import opened GtphubState
  import opened GtphubTei
  import opened GtphubOps
  import opened GtphubSeq
  import opened GtphubEvents
  import opened GtphubExpiry
  import opened GtphubPackets
  import opened GtphubCreate
  import opened GtphubDwindles

  // ---- The sender ----

  function BindOf(p: Packet): Bind { Bind(p.side, p.plane) }
  function OtherBind(p: Packet): Bind { Bind(OtherSide(p.side), p.plane) }

  /** The sender is the proxy of its side or, without one, has a port number and an address that is listed there, or is an
      SGSN on the control plane. */
  ghost predicate KnownSender(h: Hub, p: Packet) {
    var proxy := RefAt(h, Proxy(BindOf(p)));
    if proxy.Some? then Names(h, proxy.value, p.fromAddr, p.fromPort) else PortSought(h, p) && p.fromPort != 0
  }

  /** A port number of zero would be looked up. */
  ghost predicate Portless(h: Hub, p: Packet) { PortSought(h, p) && p.fromPort == 0 }

  /** The peer and the port a known sender has already. */
  ghost function SenderPeer(h: Hub, p: Packet): Option<nat> {
    var proxy := RefAt(h, Proxy(BindOf(p)));
    if proxy.None? then FindPeer(h, BindOf(p), p.fromAddr)
    else if proxy.value in h.net.ports then Some(h.net.ports[proxy.value].peer) else None
  }

  ghost function SenderPort(h: Hub, p: Packet): Option<nat> {
    var proxy := RefAt(h, Proxy(BindOf(p)));
    if proxy.Some? then proxy
    else if SenderPeer(h, p).Some? && p.fromPort != 0 then FindPort(h, SenderPeer(h, p).value, p.fromPort) else None
  }

  /** The mapped sequence numbers of the sender. */
  ghost function SenderMaps(h: Hub, p: Packet): seq<Mapping> {
    var q := SenderPeer(h, p);
    if q.Some? && q.value in h.peers then h.peers[q.value].maps else []
  }

  lemma OnePeer(h: Hub, x: nat, y: nat)
    requires Inv(h) && x in h.peers && y in h.peers && h.peers[x].bind == h.peers[y].bind
    requires h.peers[x].addr.Some? && h.peers[x].addr == h.peers[y].addr
    ensures x == y
  {
    hide NetOk, Owned, QueuesOk, IdsOk, TeisOk, SeqsOk, TunIds, MapIds, NoteIds;
  }

  lemma OnePort(h: Hub, x: nat, y: nat)
    requires Inv(h) && x in h.net.ports && y in h.net.ports
    requires h.net.ports[x].peer == h.net.ports[y].peer && h.net.ports[x].num == h.net.ports[y].num
    ensures x == y
  {
    hide NetOk, Owned, QueuesOk, IdsOk, TeisOk, SeqsOk, TunIds, MapIds, NoteIds;
  }

  /** What is known of the sender does not depend on the time. */
  lemma SenderAdvances(h: Hub, p: Packet, now: nat)
    requires Inv(h)
    ensures var g := Advance(h, now);
      && PortSought(g, p) == PortSought(h, p) && KnownSender(g, p) == KnownSender(h, p) && SenderPeer(g, p) == SenderPeer(h, p)
      && SenderPort(g, p) == SenderPort(h, p) && SenderMaps(g, p) == SenderMaps(h, p)
  {
    hide Inv;
    var g := Advance(h, now);
    var x, y := FindPeer(h, BindOf(p), p.fromAddr), FindPeer(g, BindOf(p), p.fromAddr);
    if x.Some? && y.Some? { OnePeer(h, x.value, y.value); }
    assert x == y;
    var q := SenderPeer(h, p);
    if q.Some? && p.fromPort != 0 {
      var u, v := FindPort(h, q.value, p.fromPort), FindPort(g, q.value, p.fromPort);
      if u.Some? && v.Some? { OnePort(h, u.value, v.value); }
      assert u == v;
    }
  }

  /** The tables once the sender's port is there: nothing changed but for a peer and a port that the sender may need. */
  ghost predicate Met(h: Hub, p: Packet, g: Hub, from: nat) {
    && Inv(g) && g.lists == h.lists && g.net.refs == h.net.refs && Steady(h, g) && Names(g, from, p.fromAddr, p.fromPort)
    && PeerOf(g, from) in g.peers && g.peers[PeerOf(g, from)].maps == SenderMaps(h, p)
    && (if SenderPort(h, p).Some? then g == h && from == SenderPort(h, p).value else g.net.ports[from].restart == -1)
  }

  lemma MetProxy(h: Hub, p: Packet)
    requires Inv(h) && KnownSender(h, p) && RefAt(h, Proxy(BindOf(p))).Some?
    ensures Sender(h, p).0 == h && Sender(h, p).1.Some? && Met(h, p, h, Sender(h, p).1.value)
  {
    hide Inv, PortSought;
    SteadySelf(h);
  }

  lemma AddedPort(h: Hub, q: nat, num: PortNum)
    ensures var (g, p) := AddrPort(h, q, num);
      && p in g.net.ports && g.net.ports[p].peer == q && g.peers == h.peers
      && (if FindPort(h, q, num).Some? then g == h && p == FindPort(h, q, num).value else g.net.ports[p].restart == -1)
  {
  }

  lemma MetPort(h: Hub, p: Packet, q: nat)
    requires Inv(h) && RefAt(h, Proxy(BindOf(p))).None? && FindPeer(h, BindOf(p), p.fromAddr) == Some(q) && p.fromPort != 0
    ensures var (g, from) := AddrPort(h, q, p.fromPort); Met(h, p, g, from)
  {
    hide Inv, Steady, AddrPort, Names;
    AddedPort(h, q, p.fromPort);
    AddrPortOk(h, q, p.fromPort);
    AddrPortNamed(h, q, p.fromAddr, p.fromPort);
  }

  lemma NoPortYet(h: Hub, g: Hub, q: nat, num: PortNum)
    requires Inv(h) && q !in h.peers && g.net == h.net
    ensures FindPort(g, q, num).None?
  {
    hide NetOk, Owned, QueuesOk, IdsOk, TeisOk, SeqsOk, TunIds, MapIds, NoteIds;
  }

  lemma NewPeerMaps(h: Hub, b: Bind, a: Addr)
    requires FindPeer(h, b, a).None?
    ensures var (g, q) := AddrHave(h, b, a); q == h.nextId && q in g.peers && g.peers[q].maps == [] && g.net == h.net
  {
  }

  lemma MetNew(h: Hub, p: Packet)
    requires Inv(h) && RefAt(h, Proxy(BindOf(p))).None? && FindPeer(h, BindOf(p), p.fromAddr).None? && p.fromPort != 0
    ensures var (g, from) := PortHave(h, BindOf(p), p.fromAddr, p.fromPort); Met(h, p, g, from)
  {
    hide Inv, Steady, AddrHave, AddrPort, Names;
    FreshNames(h);
    PortNamed(h, BindOf(p), p.fromAddr, p.fromPort);
    NewPeerMaps(h, BindOf(p), p.fromAddr);
    var (g, q) := AddrHave(h, BindOf(p), p.fromAddr);
    NoPortYet(h, g, q, p.fromPort);
    AddedPort(g, q, p.fromPort);
  }

  lemma SenderMet(h: Hub, p: Packet)
    requires Inv(h) && !Portless(h, p)
    ensures PortSought(h, p) ==> p.fromPort != 0
    ensures var (g, from) := Sender(h, p); (from.Some? <==> KnownSender(h, p)) && (from.Some? ==> Met(h, p, g, from.value))
  {
    hide Inv, Met, AddrPort, PortHave;
    var b := BindOf(p);
    if KnownSender(h, p) {
      if RefAt(h, Proxy(b)).Some? {
        MetProxy(h, p);
      } else {
        var q := FindPeer(h, b, p.fromAddr);
        if q.Some? { MetPort(h, p, q.value); } else { MetNew(h, p); }
      }
    }
  }

  // ---- A restart of the sender ----

  /** The packet has another restart counter than its port sent last. */
  ghost predicate Restarts(h: Hub, p: Packet) {
    var at := SenderPort(h, p);
    && p.restart.Some? && p.restart.value <= 255 && at.Some? && at.value in h.net.ports
    && 0 <= h.net.ports[at.value].restart <= 255 && h.net.ports[at.value].restart != p.restart.value
  }

  /** The pointer is cleared because the sender has restarted. */
  ghost predicate Cleared(h: Hub, p: Packet, s: Slot) {
    Restarts(h, p) && Taken(h, s, h.net.ports[SenderPort(h, p).value].peer)
  }

  ghost function RefAfter(h: Hub, p: Packet, s: Slot): Option<nat> { if Cleared(h, p, s) then None else RefAt(h, s) }

  ghost function AddrAfter(h: Hub, p: Packet, s: Slot): Option<Addr> { if Cleared(h, p, s) then None else AddrAt(h, s) }

  lemma ClearMaps(h: Hub, t: nat, side: Side)
    ensures forall q <- h.peers :: q in ClearSide(h, t, side).peers && ClearSide(h, t, side).peers[q].maps == h.peers[q].maps
  {
    hide SetRef, SeqNext;
  }

  lemma {:induction false} RestartMaps(h: Hub, ts: seq<Tunnel>, peer: nat)
    ensures var g := RestartTunnels(h, ts, peer); forall q <- h.peers :: q in g.peers && g.peers[q].maps == h.peers[q].maps
    decreases |ts|
  {
    hide ClearSide, Unusable;
    if ts != [] {
      ClearMaps(h, ts[0].id, Sgsn);
      var g := RestartSide(h, ts[0], Sgsn, peer);
      ClearMaps(g, ts[0].id, Ggsn);
      RestartMaps(RestartSide(g, ts[0], Ggsn, peer), ts[1..], peer);
    }
  }

  /** The tables once the sender has been heard, if it has restarted or not. */
  ghost predicate Heeded(h: Hub, p: Packet, g: Hub, from: nat) {
    && Inv(g) && g.lists == h.lists && Steady(h, g) && Names(g, from, p.fromAddr, p.fromPort)
    && PeerOf(g, from) in g.peers && g.peers[PeerOf(g, from)].maps == SenderMaps(h, p)
    && forall s :: RefAt(g, s) == RefAfter(h, p, s)
  }

  lemma CountStays(g: Hub, from: nat, count: nat)
    requires from in g.net.ports
    ensures var e := SetRestart(g, from, count);
      e.peers == g.peers && e.lists == g.lists && e.net.refs == g.net.refs && PeerOf(e, from) == PeerOf(g, from) && Steady(g, e)
  {
  }

  lemma NamedPorts(g: Hub, from: nat, a: Addr, num: nat)
    requires Names(g, from, a, num)
    ensures from in g.net.ports
  {
  }

  lemma CountHeeded(h: Hub, p: Packet, g: Hub, from: nat, count: nat)
    requires Heeded(h, p, g, from)
    ensures from in g.net.ports && Heeded(h, p, SetRestart(g, from, count), from)
  {
    var e := SetRestart(g, from, count);
    hide Inv, SetRestart, Steady, RefAfter, SenderMaps, Names, Grows;
    NamedPorts(g, from, p.fromAddr, p.fromPort);
    CountStays(g, from, count);
    SetRestartOk(g, from, count);
    SteadyChain(h, g, e);
    NamesStay(g, e, from, p.fromAddr, p.fromPort);
  }

  lemma MetHeeded(h: Hub, p: Packet, g: Hub, from: nat)
    requires Met(h, p, g, from) && !Restarts(h, p)
    ensures Heeded(h, p, g, from)
  {
    hide Inv, Steady;
  }

  lemma RestartRefsAfter(h: Hub, p: Packet, from: nat)
    requires Inv(h) && from in h.net.ports && SenderPort(h, p) == Some(from) && Restarts(h, p)
    ensures var g := RestartTunnels(h, h.lists.tunnels, PeerOf(h, from)); forall s :: RefAt(g, s) == RefAfter(h, p, s)
  {
    hide Inv, RestartTunnels, SamePorts, Taken;
    RestartClears(h, PeerOf(h, from));
  }

  lemma RestartHeeded(h: Hub, p: Packet, from: nat)
    requires Met(h, p, h, from) && SenderPort(h, p) == Some(from) && Restarts(h, p)
    ensures Heeded(h, p, RestartTunnels(h, h.lists.tunnels, PeerOf(h, from)), from)
  {
    var g := RestartTunnels(h, h.lists.tunnels, PeerOf(h, from));
    hide Inv, RestartTunnels, Steady, SamePorts, Taken, Grows, Names, RefAfter, RefAt, PeerOf, SenderMaps, Restarts, SenderPort;
    RestartRefsAfter(h, p, from);
    RestartTunnelsOk(h, h.lists.tunnels, PeerOf(h, from));
    RestartSteady(h, h.lists.tunnels, PeerOf(h, from));
    RestartMaps(h, h.lists.tunnels, PeerOf(h, from));
    NamesStay(h, g, from, p.fromAddr, p.fromPort);
    SamePeer(h, g, from);
  }

  lemma SamePeer(h: Hub, g: Hub, from: nat)
    requires Steady(h, g) && from in h.net.ports
    ensures from in g.net.ports && PeerOf(g, from) == PeerOf(h, from)
  {
  }

  lemma SenderHeeded(h: Hub, p: Packet, g: Hub, from: nat)
    requires Met(h, p, g, from)
    ensures from in g.net.ports && Heeded(h, p, CheckRestart(g, p, from), from)
  {
    hide Inv, RestartTunnels, SetRestart, Steady, Heeded, Taken;
    if Restarts(h, p) {
      RestartHeeded(h, p, from);
      CountHeeded(h, p, RestartTunnels(h, h.lists.tunnels, PeerOf(h, from)), from, p.restart.value);
    } else {
      MetHeeded(h, p, g, from);
      if p.restart.Some? { CountHeeded(h, p, g, from, p.restart.value); }
    }
  }

  lemma HeededSooner(h: Hub, p: Packet, now: nat, g: Hub, from: nat)
    requires Inv(h) && Heeded(Advance(h, now), p, g, from)
    ensures Heeded(h, p, g, from)
  {
    var h0 := Advance(h, now);
    SenderAdvances(h, p, now);
    SameSteadyAll(h, h0);
    hide Inv, Steady, SenderPort, SenderMaps, Names, PeerOf;
    SteadyChain(h, h0, g);
    forall s ensures RefAt(g, s) == RefAfter(h, p, s) {
      assert RefAfter(h0, p, s) == RefAfter(h, p, s) by { TakenAdvances(h, p, now, s); }
    }
  }

  lemma TakenAdvances(h: Hub, p: Packet, now: nat, s: Slot)
    requires SenderPort(Advance(h, now), p) == SenderPort(h, p)
    ensures Cleared(Advance(h, now), p, s) == Cleared(h, p, s)
  {
    hide SenderPort;
    forall t: Tunnel, side: Side, peer: nat ensures Unusable(Advance(h, now), t, side, peer) == Unusable(h, t, side, peer) { }
  }

  /** A packet arrives exactly if it is no echo request, of version 1 and from a known sender. Before that the program is
      ended exactly by a port number of zero that is looked up and by version 0 from a known sender. */
  lemma ArrivesExact(h: Hub, p: Packet)
    requires Inv(h) && h.queues.clock <= p.now <= p.later
    ensures var r := Arrive(h, p);
      && (r.Arrived? <==> p.kind != EchoReq && KnownSender(h, p) && !p.gtp0)
      && (r.Refused? && r.out.Stopped? <==> p.kind != EchoReq && (Portless(h, p) || (KnownSender(h, p) && p.gtp0)))
      && (r.Arrived? ==> Heeded(h, p, r.h, r.from))
  {
    AdvanceOk(h, p.now);
    var h0 := Advance(h, p.now);
    hide Inv, Sender, CheckRestart, Met, Heeded, KnownSender, PortSought, Advance, Grows;
    SenderAdvances(h, p, p.now);
    if p.kind != EchoReq && !Portless(h, p) {
      SenderMet(h0, p);
      var (g, from) := Sender(h0, p);
      if from.Some? {
        MetInv(h0, p, g, from.value);
        SenderHeeded(h0, p, g, from.value);
        CheckRestartOk(g, p, from.value);
        HeededSooner(h, p, p.now, CheckRestart(g, p, from.value), from.value);
      }
    } else if p.kind != EchoReq {
      PortlessUnknown(h, p);
    }
  }

  lemma MetInv(h: Hub, p: Packet, g: Hub, from: nat)
    requires Met(h, p, g, from)
    ensures Inv(g) && from in g.net.ports
  {
    hide Inv, Steady;
  }

  lemma PortlessUnknown(h: Hub, p: Packet)
    requires Portless(h, p)
    ensures !KnownSender(h, p)
  {
    hide Names;
  }

  // ---- The destination ----

  /** The first tunnel of the list with the header TEI whose endpoint on the sender's side has the sender's address. */
  ghost function Addressed(h: Hub, p: Packet, ts: seq<Tunnel>): (r: Option<Tunnel>)
    ensures r.Some? ==> r.value in ts
  {
    if ts == [] then None
    else if ts[0].teiRepl == p.tei && AddrAfter(h, p, Endpoint(ts[0].id, BindOf(p))) == Some(p.fromAddr) then Some(ts[0])
    else Addressed(h, p, ts[1..])
  }

  ghost function TunnelFor(h: Hub, p: Packet): (r: Option<Tunnel>)
    ensures r.Some? ==> r.value in h.lists.tunnels
  {
    if p.tei == 0 then None else Addressed(h, p, h.lists.tunnels)
  }

  /** Where the sequence number of the packet was mapped from, if the sender got it from the hub. */
  ghost function OriginFor(h: Hub, p: Packet): Option<nat> {
    var m := MapGetInv(SenderMaps(h, p), p.seqNr);
    if m.Some? then RefAt(h, Origin(m.value.id)) else None
  }

  /** The GGSN of the packet's access point, if it is resolved and not being resolved. */
  ghost function ResolvedFor(h: Hub, p: Packet): Option<nat> {
    if p.side == Sgsn && p.apn.Apn? && FindApn(h.lists.lookups, p.apn.name).None? && FindApn(h.lists.resolved, p.apn.name).Some?
    then RefAt(h, ResolvedPeer(FindApn(h.lists.resolved, p.apn.name).value.id)) else None
  }

  /** The proxy of the other side, else the origin of the sequence number, else the other endpoint of the tunnel, else the
      resolved GGSN. */
  ghost function Goal(h: Hub, p: Packet): Option<nat> {
    var proxy, t := RefAt(h, Proxy(OtherBind(p))), TunnelFor(h, p);
    var end := if t.Some? then RefAfter(h, p, Endpoint(t.value.id, OtherBind(p))) else None;
    if proxy.Some? then proxy
    else if OriginFor(h, p).Some? then OriginFor(h, p)
    else if end.Some? then end
    else ResolvedFor(h, p)
  }

  /** There is somewhere to send the packet to, and its TEI, if it has one, is that of a tunnel of its sender. */
  ghost predicate Destined(h: Hub, p: Packet) {
    (p.tei == 0 || TunnelFor(h, p).Some?) && Goal(h, p).Some?
  }

  lemma HeededAddr(h: Hub, p: Packet, g: Hub, from: nat, s: Slot)
    requires Inv(h) && Heeded(h, p, g, from)
    ensures AddrAt(g, s) == AddrAfter(h, p, s)
  {
    hide Inv, Steady, Names, Cleared, PeerOf, SenderMaps;
    assert RefAt(g, s) == RefAfter(h, p, s);
    if !Cleared(h, p, s) { EndpointAddrSame(h, g, s); }
  }

  lemma {:induction false} HeededTunnel(h: Hub, p: Packet, g: Hub, from: nat, ts: seq<Tunnel>)
    requires Inv(h) && Heeded(h, p, g, from)
    ensures FindTunnel(g, ts, BindOf(p), p.tei, Some(p.fromAddr)) == Addressed(h, p, ts)
  {
    hide Inv, Heeded, AddrAt, AddrAfter;
    if ts != [] {
      HeededAddr(h, p, g, from, Endpoint(ts[0].id, BindOf(p)));
      HeededTunnel(h, p, g, from, ts[1..]);
    }
  }

  lemma NotCleared(h: Hub, p: Packet, s: Slot)
    requires !s.Endpoint?
    ensures RefAfter(h, p, s) == RefAt(h, s)
  {
    hide Unusable, SenderPort;
  }

  /** What unmapping finds, in the tables as they were before the packet. */
  lemma UnmapFinds(h: Hub, p: Packet, g: Hub, from: nat)
    requires Inv(h) && Heeded(h, p, g, from)
    ensures from in g.net.ports && PeerOf(g, from) in g.peers
    ensures SenderTunnel(g, p, from) == TunnelFor(h, p)
    ensures var u := UnmapSeq(g, PeerOf(g, from), p.seqNr); (if u.Some? then u.value.1 else None) == OriginFor(h, p)
  {
    hide Inv, Steady, FindTunnel, MapGetInv, RefAfter;
    HeededTunnel(h, p, g, from, h.lists.tunnels);
    var m := MapGetInv(SenderMaps(h, p), p.seqNr);
    if m.Some? { NotCleared(h, p, Origin(m.value.id)); }
  }

  lemma HeededRefs(h: Hub, p: Packet, g: Hub, from: nat)
    requires Heeded(h, p, g, from)
    ensures Inv(g) && g.lists == h.lists && from in g.net.ports && (forall s :: RefAt(g, s) == RefAfter(h, p, s))
    ensures forall s: Slot | !s.Endpoint? :: RefAt(g, s) == RefAt(h, s)
  {
    hide Inv, Steady, PeerOf, RefAfter, RefAt;
    forall s: Slot | !s.Endpoint? ensures RefAt(g, s) == RefAt(h, s) { NotCleared(h, p, s); }
  }

  /** The unmapping failed exactly for a TEI of no tunnel, and else has the packet's tunnel and its goal, but for a resolved
      GGSN. */
  ghost predicate Unmaps(h: Hub, p: Packet, u: Unmapped) {
    var t := TunnelFor(h, p);
    && (u.Unknown? <==> p.tei != 0 && t.None?)
    && (u.Unmapped? ==>
          u.tun == (if t.Some? then Some(t.value.id) else None) && Goal(h, p) == if u.to.Some? then u.to else ResolvedFor(h, p))
  }

  /** Unmapping fails exactly for a TEI of no tunnel, and otherwise gives the tunnel and the goal, but for a resolved GGSN. */
  lemma UnmapExact(h: Hub, p: Packet, g: Hub, from: nat)
    requires Inv(h) && Heeded(h, p, g, from)
    ensures from in g.net.ports && PeerOf(g, from) in g.peers
    ensures var u := Unmap(g, p, from); Unmaps(h, p, u) && (u.Unmapped? ==> u.h.net == g.net && u.h.lists == g.lists)
  {
    hide Inv, Heeded, SenderTunnel, TunnelFor, OriginFor, UnmapSeq, RefAt, RefAfter, Enqueue, ResolvedFor;
    UnmapFinds(h, p, g, from);
    HeededRefs(h, p, g, from);
  }

  lemma ResolvedLive(h: Hub, n: Note)
    requires Inv(h) && n in h.lists.resolved
    ensures RefAt(h, ResolvedPeer(n.id)).Some?
  {
    assert n.id in NoteIds(h.lists.resolved);
    hide NetOk, PortsOk, QueuesOk, IdsOk, TeisOk, SeqsOk, TunIds, MapIds, NoteIds;
  }

  lemma ResolveExact(h: Hub, p: Packet, g: Hub)
    requires Inv(g) && g.lists == h.lists && p.side == Sgsn && forall s: Slot | !s.Endpoint? :: RefAt(g, s) == RefAt(h, s)
    ensures var (e, to, failed) := Resolve(g, p);
      (to.Some? ==> to == ResolvedFor(h, p) && !failed) && (to.None? ==> ResolvedFor(h, p).None?)
  {
    hide Inv, RefAt, AddNote, Advance, FindApn;
    if p.apn.Apn? && FindApn(h.lists.resolved, p.apn.name).Some? { ResolvedLive(g, FindApn(h.lists.resolved, p.apn.name).value); }
  }

  /** The outcome is a destination exactly if the tables have one, with that destination and the tunnel of the packet. */
  ghost predicate AsRouted(h: Hub, p: Packet, l: Located) {
    var t := TunnelFor(h, p);
    && (l.Located? <==> Destined(h, p))
    && (l.Located? ==> l.u.Unmapped? && l.u.tun == (if t.Some? then Some(t.value.id) else None) && Goal(h, p) == Some(l.to))
  }

  lemma RoutedBy(h: Hub, p: Packet, g: Hub, from: nat, u: Unmapped)
    requires Inv(g) && from in g.net.ports && g.queues.clock <= p.later && PeerOf(g, from) in g.peers && u == Unmap(g, p, from)
    requires Unmaps(h, p, u)
    requires u.Unmapped? && u.to.None? && p.side == Sgsn ==>
      var (e, to, failed) := Resolve(u.h, p);
      (to.Some? ==> to == ResolvedFor(h, p) && !failed) && (to.None? ==> ResolvedFor(h, p).None?)
    requires p.side == Ggsn ==> ResolvedFor(h, p).None?
    ensures AsRouted(h, p, Locate(g, p, from))
  {
    hide Inv, Unmap, Resolve, DelItem, TunIds, Grows, PeerOf, TunnelFor, Goal, ResolvedFor;
    UnmapOk(g, p, from);
    var l := Locate(g, p, from);
    if u.Unknown? {
      assert l.Ends?;
    } else if u.to.Some? {
      assert l.Located? && l.u == u && l.to == u.to.value;
    } else if p.side == Ggsn {
      assert l.Ends?;
    } else {
      GrowsClock(g, u.h);
      ResolveOk(u.h, p);
      assert l.Located? <==> Resolve(u.h, p).1.Some?;
    }
  }

  /** The hub finds where to send an arrived packet exactly if the tables have it, and sends it there. */
  lemma LocatedExact(h: Hub, p: Packet, g: Hub, from: nat)
    requires Inv(h) && Heeded(h, p, g, from) && g.queues.clock <= p.later
    ensures Inv(g) && from in g.net.ports && AsRouted(h, p, Locate(g, p, from))
  {
    hide Inv, Heeded, Unmap, Resolve, DelItem, TunIds, Grows, PeerOf, TunnelFor, Goal, RefAt, RefAfter, ResolvedFor, AsRouted, Locate;
    HeededRefs(h, p, g, from);
    UnmapOk(g, p, from);
    UnmapExact(h, p, g, from);
    var u := Unmap(g, p, from);
    if u.Unmapped? {
      KeepsInv(g, u.h);
      SameRefs(g, u.h);
      if u.to.None? && p.side == Sgsn { ResolveExact(h, p, u.h); }
    }
    if p.side == Ggsn { NoneResolved(h, p); }
    RoutedBy(h, p, g, from, u);
  }

  lemma SameRefs(g: Hub, e: Hub)
    requires e.net == g.net
    ensures forall s :: RefAt(e, s) == RefAt(g, s)
  {
  }

  lemma NoneResolved(h: Hub, p: Packet)
    requires p.side == Ggsn
    ensures ResolvedFor(h, p).None?
  {
  }
}
