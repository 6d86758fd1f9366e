/** What an exchange of Create PDP Context messages leaves in the hub's tables (src/gtphub/gtphub.c:1454-1634). */
module GtphubCreate {
  import opened GtphubState
  import opened GtphubTei
  import opened GtphubOps
  import opened GtphubSeq
  import opened GtphubEvents
  import opened GtphubExpiry
  import opened GtphubPackets

  // ---- Endpoints ----

  /** What a tunnel knows of one of its four endpoints. */
  datatype End = End(tei: nat, to: Option<nat>)

  ghost function EndAt(h: Hub, t: nat, b: Bind): End
    requires t in TunIds(h.lists.tunnels)
  {
    End(TeiOf(TunnelOf(h, t), b), RefAt(h, Endpoint(t, b)))
  }

  /** Ports and peers stay what they are. */
  ghost predicate Steady(h: Hub, g: Hub) {
    && (forall p <- h.net.ports ::
          p in g.net.ports && g.net.ports[p].peer == h.net.ports[p].peer && g.net.ports[p].num == h.net.ports[p].num)
    && (forall q <- h.peers :: q in g.peers && g.peers[q].addr == h.peers[q].addr)
  }

  lemma SteadyChain(f: Hub, g: Hub, h: Hub)
    requires Steady(f, g) && Steady(g, h)
    ensures Steady(f, h)
  {
    forall p | p in f.net.ports ensures p in h.net.ports && h.net.ports[p].peer == f.net.ports[p].peer
                                        && h.net.ports[p].num == f.net.ports[p].num {
      assert p in g.net.ports;
    }
    forall q | q in f.peers ensures q in h.peers && h.peers[q].addr == f.peers[q].addr { assert q in g.peers; }
  }

  /** The port stands for an address and a port number. */
  ghost predicate Names(h: Hub, p: nat, a: Addr, num: nat) {
    && p in h.net.ports && h.net.ports[p].num == num && h.net.ports[p].peer in h.peers
    && h.peers[h.net.ports[p].peer].addr == Some(a)
  }

  lemma NamesStay(h: Hub, g: Hub, p: nat, a: Addr, num: nat)
    requires Steady(h, g) && Names(h, p, a, num)
    ensures Names(g, p, a, num)
  {
  }

  lemma TunnelUnique(h: Hub, x: Tunnel)
    requires Inv(h) && x in h.lists.tunnels
    ensures x.id in TunIds(h.lists.tunnels) && TunnelOf(h, x.id) == x
  {
    SameNames(h, x);
  }

  lemma SameTunnels(h: Hub, g: Hub, t: nat)
    requires Inv(h) && Inv(g) && g.lists.tunnels == h.lists.tunnels && t in TunIds(h.lists.tunnels)
    ensures TunnelOf(g, t) == TunnelOf(h, t)
  {
    hide Inv;
    TunnelUnique(g, TunnelOf(h, t));
  }

  // ---- The tables in between ----

  lemma SameSteady(h: Hub, g: Hub)
    requires SamePorts(h.net.ports, g.net.ports) && g.peers == h.peers
    ensures Steady(h, g)
  {
  }

  lemma DelTunnelSteady(h: Hub, x: Tunnel, t: nat)
    requires Inv(h) && x in h.lists.tunnels && x.id != t
    ensures var g := DelItem(h, TunItem(x.id)); Steady(h, g) && forall b: Bind :: RefAt(g, Endpoint(t, b)) == RefAt(h, Endpoint(t, b))
  {
    hide Inv, DropPointers, DropRecord, Dequeue, AllItems, SamePorts;
    TunnelQueued(h, x);
    DelItemOk(h, TunItem(x.id));
    SameSteady(h, DelItem(h, TunItem(x.id)));
  }

  lemma {:induction false} DropStaleSteady(h: Hub, ts: seq<Tunnel>, n: Tunnel)
    requires Inv(h) && DistinctTunnels(ts) && forall x <- ts :: x in h.lists.tunnels
    ensures var g := DropStale(h, ts, n);
      Steady(h, g) && forall b: Bind :: RefAt(g, Endpoint(n.id, b)) == RefAt(h, Endpoint(n.id, b))
    decreases |ts|
  {
    hide Inv, DelItem, SharesAny, AllItems, DistinctTunnels, Steady, RefAt;
    if ts == [] {
      SteadySelf(h);
    } else {
      var x := ts[0];
      DistinctHead(ts);
      assert x in ts && forall y <- ts[1..] :: y in ts;
      if x.id != n.id && SharesAny(h, x, n) {
        var d := DelItem(h, TunItem(x.id));
        TunnelQueued(h, x);
        DelItemOk(h, TunItem(x.id));
        TunnelsLeft(h, x.id);
        DelTunnelSteady(h, x, n.id);
        DropStaleSteady(d, ts[1..], n);
        SteadyChain(h, d, DropStale(d, ts[1..], n));
      } else {
        DropStaleSteady(h, ts[1..], n);
      }
    }
  }

  lemma SteadySelf(h: Hub)
    ensures Steady(h, h)
  {
  }

  lemma PutSteady(h: Hub, x: Tunnel)
    ensures Steady(h, PutTunnel(h, x)) && PutTunnel(h, x).net == h.net
  {
  }

  /** The check for reused TEIs leaves the new tunnel's own endpoints alone. */
  lemma CheckedEnds(h: Hub, n: Tunnel)
    requires Inv(h) && n in h.lists.tunnels && CheckReused(h, n).Some?
    ensures var g := CheckReused(h, n).value;
      && Inv(g) && Steady(h, g) && n.id in TunIds(g.lists.tunnels)
      && forall b: Bind :: EndAt(g, n.id, b) == End(TeiOf(n, b), RefAt(h, Endpoint(n.id, b)))
  {
    hide Inv, DropStale, OtherTeis, PickTei, WithTunnel, SharesAny, Steady;
    CheckReusedOk(h, n);
    ListDistinct(h);
    DropStaleSteady(h, h.lists.tunnels, n);
    var d, g := DropStale(h, h.lists.tunnels, n), CheckReused(h, n).value;
    var repl :| OwnTei(g, n.(teiRepl := repl, checked := true));
    var m := n.(teiRepl := repl, checked := true);
    TunnelUnique(g, m);
    var last := n.(teiRepl := PickTei(Pick(n.teiRepl, TEI_MAX, NO_RANGE_YET), OtherTeis(h, h.lists.tunnels, n)).repl, checked := true);
    PutSteady(d, last);
    SteadyChain(h, d, g);
  }

  lemma ListDistinct(h: Hub)
    requires Inv(h)
    ensures DistinctTunnels(h.lists.tunnels)
  {
    TunnelsDistinct(h);
  }

  // ---- One plane ----

  /** What one plane of a message does to the ends of its tunnel: one endpoint gets the port, and the TEI if there is
      one; the three others stay. */
  lemma PlaneSets(h: Hub, t: nat, b: Bind, peer: nat, tei: nat)
    requires Inv(h) && t in TunIds(h.lists.tunnels) && peer in h.net.ports
    ensures var r := PlaneIe(h, t, b, peer, tei); r.PlaneDone? ==>
      && Inv(r.h) && t in TunIds(r.h.lists.tunnels) && Steady(h, r.h)
      && EndAt(r.h, t, b) == End(if tei != 0 then tei else EndAt(h, t, b).tei, Some(peer))
      && (forall c: Bind | c != b :: EndAt(r.h, t, c) == EndAt(h, t, c)) && EndAt(r.h, t, b).tei != 0
  {
    hide Inv, TunIds, Steady, CheckReused, PutTunnel, SetEndpoint, SamePorts;
    SetEndpointOk(h, t, b, Some(peer));
    EndpointSets(h, t, b, Some(peer));
    var g := SetEndpoint(h, t, b, Some(peer));
    SameTunnels(h, g, t);
    var x := TunnelOf(g, t);
    if tei != 0 {
      var y := x.(teiOrig := x.teiOrig[b := tei]);
      var p := PutTunnel(g, y);
      TunnelRange(g, x);
      PutTunnelGrows(g, y);
      PutTunnelOk(g, y);
      PutSteady(g, y);
      if CheckReused(p, y).Some? {
        CheckedEnds(p, y);
        SteadyChain(h, g, p);
        SteadyChain(h, p, CheckReused(p, y).value);
      }
    }
  }

  lemma EndpointSets(h: Hub, t: nat, b: Bind, peer: Option<nat>)
    requires Inv(h) && (peer.Some? ==> peer.value in h.net.ports)
    ensures var g := SetEndpoint(h, t, b, peer);
      Steady(h, g) && RefAt(g, Endpoint(t, b)) == peer
      && forall c: Bind | c != b :: RefAt(g, Endpoint(t, c)) == RefAt(h, Endpoint(t, c))
  {
    hide PortsOk, Owned, QueuesOk, IdsOk, TeisOk, SeqsOk, SetRef, RefsOk, SamePorts;
    SetRefOk(h.net, Endpoint(t, b), peer);
    SameSteady(h, SetEndpoint(h, t, b, peer));
  }

  lemma AddrSteady(h: Hub, b: Bind, a: Addr)
    requires Inv(h)
    ensures Steady(h, AddrHave(h, b, a).0)
  {
    FreshNames(h);
    hide Inv;
  }

  lemma AddrPortNamed(h: Hub, q: nat, a: Addr, num: PortNum)
    requires Inv(h) && q in h.peers && h.peers[q].addr == Some(a)
    ensures var (g, p) := AddrPort(h, q, num); Steady(h, g) && Names(g, p, a, num)
  {
    FreshNames(h);
    hide Inv;
  }

  /** gtphub_port_have gives a port of the wanted address and number. */
  lemma PortNamed(h: Hub, b: Bind, a: Addr, num: PortNum)
    requires Inv(h)
    ensures var (g, p) := PortHave(h, b, a, num);
      && Inv(g) && Steady(h, g) && Names(g, p, a, num) && p in g.net.ports
      && g.lists == h.lists && g.net.refs == h.net.refs
  {
    hide Inv, AddrHave, AddrPort, Steady, Names;
    PortHaveOk(h, b, a, num);
    AddrHaveOk(h, b, a);
    AddrSteady(h, b, a);
    var (g, q) := AddrHave(h, b, a);
    AddrPortNamed(g, q, a, num);
    SteadyChain(h, g, AddrPort(g, q, num).0);
  }

  lemma FreshNames(h: Hub)
    requires Inv(h)
    ensures h.nextId !in h.net.ports && h.nextId !in h.peers
  {
  }

  /** Where an endpoint is said to be: the address of the message with the plane's port, or the sender of the message. */
  ghost function Place(h: Hub, p: Packet, from: nat, plane: Plane, cfg: Config): (Addr, PortNum)
    requires plane in p.gsn && from in h.net.ports && PeerOf(h, from) in h.peers
  {
    var sender := h.peers[PeerOf(h, from)].addr;
    if cfg.useSender && p.side == Sgsn && sender.Some? then (sender.value, h.net.ports[from].num)
    else (p.gsn[plane], if plane == Ctrl then 2123 else 2152)
  }

  /** An endpoint is as the message says. */
  ghost predicate Told(h: Hub, e: End, place: (Addr, PortNum), tei: nat) {
    && e.to.Some? && Names(h, e.to.value, place.0, place.1) && e.tei != 0 && (tei != 0 ==> e.tei == tei)
  }

  function TeiIn(p: Packet, plane: Plane): nat { if plane in p.teis then p.teis[plane] else 0 }

  lemma CreatePlaneSets(h: Hub, p: Packet, t: nat, from: nat, plane: Plane, cfg: Config)
    requires Inv(h) && from in h.net.ports && PeerOf(h, from) in h.peers && t in TunIds(h.lists.tunnels)
    ensures var r := CreatePlane(h, p, t, from, plane, cfg); r.PlaneDone? ==>
      && plane in p.gsn && Inv(r.h) && t in TunIds(r.h.lists.tunnels) && Steady(h, r.h)
      && Told(r.h, EndAt(r.h, t, Bind(p.side, plane)), Place(h, p, from, plane, cfg), TeiIn(p, plane))
      && forall c: Bind | c != Bind(p.side, plane) :: EndAt(r.h, t, c) == EndAt(h, t, c)
  {
    hide Inv, PortHave, PlaneIe, TunIds, Steady, Names;
    if plane in p.gsn && (plane in p.teis || p.kind != CreateReq) {
      var place := Place(h, p, from, plane, cfg);
      PortNamed(h, Bind(p.side, plane), place.0, place.1);
      var (g, peer) := PortHave(h, Bind(p.side, plane), place.0, place.1);
      assert PeerFromIe(h, p, from, plane, cfg) == (g, peer);
      PlaneSets(g, t, Bind(p.side, plane), peer, TeiIn(p, plane));
      SameTunnels(h, g, t);
      var r := PlaneIe(g, t, Bind(p.side, plane), peer, TeiIn(p, plane));
      if r.PlaneDone? {
        SteadyChain(h, g, r.h);
        NamesStay(g, r.h, peer, place.0, place.1);
      }
    }
  }

  // ---- The whole message ----

  /** Both endpoints of the sender's side are as the message says. */
  ghost predicate Heard(h: Hub, t: nat, p: Packet, ctrl: (Addr, PortNum), user: (Addr, PortNum))
    requires t in TunIds(h.lists.tunnels)
  {
    && Told(h, EndAt(h, t, Bind(p.side, Ctrl)), ctrl, TeiIn(p, Ctrl))
    && Told(h, EndAt(h, t, Bind(p.side, User)), user, TeiIn(p, User))
  }

  lemma ToldStays(h: Hub, g: Hub, e: End, place: (Addr, PortNum), tei: nat)
    requires Steady(h, g) && Told(h, e, place, tei)
    ensures Told(g, e, place, tei)
  {
    hide Steady, Names;
    NamesStay(h, g, e.to.value, place.0, place.1);
  }

  lemma PlaceStays(h: Hub, g: Hub, p: Packet, from: nat, plane: Plane, cfg: Config)
    requires Steady(h, g) && plane in p.gsn && from in h.net.ports && PeerOf(h, from) in h.peers
    ensures from in g.net.ports && PeerOf(g, from) in g.peers
    ensures Place(g, p, from, plane, cfg) == Place(h, p, from, plane, cfg)
  {
  }

  /** A create message that goes through sets both endpoints of its sender's side and leaves those of the other side. */
  lemma CreatePlanesSets(h: Hub, p: Packet, t: nat, from: nat, cfg: Config)
    requires Inv(h) && from in h.net.ports && PeerOf(h, from) in h.peers && t in TunIds(h.lists.tunnels)
    ensures var r := CreatePlanes(h, p, t, from, cfg); r.Handled? && r.ok ==>
      && r.tun == Some(t) && Ctrl in p.gsn && User in p.gsn && Inv(r.h) && t in TunIds(r.h.lists.tunnels) && Steady(h, r.h)
      && Heard(r.h, t, p, Place(h, p, from, Ctrl, cfg), Place(h, p, from, User, cfg))
      && forall b: Bind | b.side != p.side :: EndAt(r.h, t, b) == EndAt(h, t, b)
  {
    hide Inv, CreatePlane, TunIds, Steady, Told, EndAt, Place, PeerOf;
    CreatePlaneOk(h, p, t, from, Ctrl, cfg);
    CreatePlaneSets(h, p, t, from, Ctrl, cfg);
    var one := CreatePlane(h, p, t, from, Ctrl, cfg);
    if one.PlaneDone? {
      SteadyPort(h, one.h, from);
      CreatePlaneOk(one.h, p, t, from, User, cfg);
      CreatePlaneSets(one.h, p, t, from, User, cfg);
      var two := CreatePlane(one.h, p, t, from, User, cfg);
      if two.PlaneDone? {
        PlaceStays(h, one.h, p, from, User, cfg);
        SteadyChain(h, one.h, two.h);
        ToldStays(one.h, two.h, EndAt(one.h, t, Bind(p.side, Ctrl)), Place(h, p, from, Ctrl, cfg), TeiIn(p, Ctrl));
      }
    }
  }

  lemma SteadyPort(h: Hub, g: Hub, from: nat)
    requires Steady(h, g) && from in h.net.ports && PeerOf(h, from) in h.peers
    ensures from in g.net.ports && PeerOf(g, from) in g.peers
  {
  }

  lemma NewEnds(h: Hub, to: nat, from: nat)
    requires Inv(h) && to in h.net.ports && from in h.net.ports && PeerOf(h, from) in h.peers
    ensures var (g, t) := NewTunnel(h, Some(to));
      && Inv(g) && t in TunIds(g.lists.tunnels) && t !in TunIds(h.lists.tunnels) && Steady(h, g)
      && EndAt(g, t, GGSN_CTRL) == End(0, Some(to)) && EndAt(g, t, GGSN_USER) == End(0, None)
      && from in g.net.ports && PeerOf(g, from) in g.peers
  {
    NewTunnelOk(h, Some(to));
    var (g, t) := NewTunnel(h, Some(to));
    FreshTunnel(h);
    hide Inv, SetRef, Enqueue, TunIds, SamePorts, Steady;
    NewSteady(h, to);
    assert g.lists.tunnels == [Tunnel(t, TeiNext(h.teiLast), map[], false)] + h.lists.tunnels;
    TunnelUnique(g, Tunnel(t, TeiNext(h.teiLast), map[], false));
    SteadyPort(h, g, from);
  }

  lemma NewSteady(h: Hub, to: nat)
    requires Inv(h) && to in h.net.ports
    ensures var (g, t) := NewTunnel(h, Some(to));
      Steady(h, g) && RefAt(g, Endpoint(t, GGSN_CTRL)) == Some(to) && RefAt(g, Endpoint(t, GGSN_USER)) == None
  {
    var s := Endpoint(h.nextId, GGSN_CTRL);
    SetRefOk(h.net, s, Some(to));
    NoEndpoint(h, GGSN_USER);
    hide Inv, SetRef, Enqueue, SamePorts;
    SameSteady(h, NewTunnel(h, Some(to)).0);
  }

  lemma FreshTunnel(h: Hub)
    requires Inv(h)
    ensures h.nextId !in TunIds(h.lists.tunnels)
  {
    hide PointersOk, QueuesOk, TeisOk, SeqsOk;
  }

  lemma NoEndpoint(h: Hub, b: Bind)
    requires Inv(h)
    ensures Endpoint(h.nextId, b) !in h.net.refs
  {
    FreshTunnel(h);
    hide QueuesOk, TeisOk, SeqsOk, IdsOk, NetOk, PortsOk;
  }

  /** A request that goes through makes a new tunnel with both endpoints of the SGSN as the message says, and of the GGSN
      the port that the message goes to. */
  lemma RequestSets(h: Hub, p: Packet, tun: Option<nat>, from: nat, to: nat, cfg: Config)
    requires Inv(h) && from in h.net.ports && PeerOf(h, from) in h.peers && to in h.net.ports && p.kind == CreateReq
    requires tun.Some? ==> tun.value in TunIds(h.lists.tunnels)
    ensures var r := HandleCreate(h, p, tun, from, to, cfg); r.Handled? && r.ok ==>
      && r.tun.Some? && p.side == Sgsn && tun.None? && Ctrl in p.gsn && User in p.gsn && Inv(r.h) && Steady(h, r.h)
      && r.tun.value in TunIds(r.h.lists.tunnels) && r.tun.value !in TunIds(h.lists.tunnels)
      && Heard(r.h, r.tun.value, p, Place(h, p, from, Ctrl, cfg), Place(h, p, from, User, cfg))
      && EndAt(r.h, r.tun.value, GGSN_CTRL) == End(0, Some(to)) && EndAt(r.h, r.tun.value, GGSN_USER) == End(0, None)
  {
    hide Inv, CreatePlanes, NewTunnel, TunIds, Steady, Heard, EndAt, Place, PeerOf;
    if p.side == Sgsn && tun.None? {
      NewTunnelOk(h, Some(to));
      NewEnds(h, to, from);
      var (g, t) := NewTunnel(h, Some(to));
      CreatePlanesSets(g, p, t, from, cfg);
      var r := CreatePlanes(g, p, t, from, cfg);
      if r.Handled? && r.ok {
        SteadyChain(h, g, r.h);
        PlaceStays(h, g, p, from, Ctrl, cfg);
        PlaceStays(h, g, p, from, User, cfg);
      }
    }
  }

  /** The tunnel's ends are the same in a later table. */
  ghost predicate Kept(h: Hub, t: nat, g: Hub) {
    && t in TunIds(h.lists.tunnels) && t in TunIds(g.lists.tunnels) && Steady(h, g)
    && forall b: Bind :: EndAt(g, t, b) == EndAt(h, t, b)
  }

  /** A request and, whatever happens in between that keeps the tunnel's ends, the response to it together set all four
      endpoints: those of the SGSN as the request says, those of the GGSN as the response says. */
  lemma ExchangeSets(h: Hub, req: Packet, from: nat, to: nat, mid: Hub, rsp: Packet, t: nat, back: nat, forth: nat, cfg: Config)
    requires Inv(h) && from in h.net.ports && PeerOf(h, from) in h.peers && to in h.net.ports
    requires Inv(mid) && back in mid.net.ports && PeerOf(mid, back) in mid.peers && forth in mid.net.ports
    requires req.kind == CreateReq && rsp.kind == CreateRsp && t in TunIds(mid.lists.tunnels)
    requires var one := HandleCreate(h, req, None, from, to, cfg); one.Handled? && one.ok && one.tun == Some(t) && Kept(one.h, t, mid)
    ensures var two := HandleCreate(mid, rsp, Some(t), back, forth, cfg); two.Handled? && two.ok ==>
      && t in TunIds(two.h.lists.tunnels) && req.side == Sgsn && rsp.side == Ggsn
      && Ctrl in req.gsn && User in req.gsn && Ctrl in rsp.gsn && User in rsp.gsn
      && Heard(two.h, t, req, Place(h, req, from, Ctrl, cfg), Place(h, req, from, User, cfg))
      && Heard(two.h, t, rsp, Place(mid, rsp, back, Ctrl, cfg), Place(mid, rsp, back, User, cfg))
  {
    hide Inv, CreatePlanes, NewTunnel, TunIds, Steady, EndAt, Place, PeerOf, Told;
    RequestSets(h, req, None, from, to, cfg);
    var one := HandleCreate(h, req, None, from, to, cfg);
    var two := HandleCreate(mid, rsp, Some(t), back, forth, cfg);
    if two.Handled? && two.ok {
      CreatePlanesSets(mid, rsp, t, back, cfg);
      SteadyChain(one.h, mid, two.h);
      var ctrl, user := Place(h, req, from, Ctrl, cfg), Place(h, req, from, User, cfg);
      ToldStays(one.h, two.h, EndAt(one.h, t, Bind(Sgsn, Ctrl)), ctrl, TeiIn(req, Ctrl));
      ToldStays(one.h, two.h, EndAt(one.h, t, Bind(Sgsn, User)), user, TeiIn(req, User));
    }
  }
}
