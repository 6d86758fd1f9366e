/** What the GTP hub does with a packet, and whole runs of the hub
    (src/gtphub/gtphub.c:1413-1615, 1684-1765, 1907-1935, 1996-2325, 2328-2450, 2752-2803). */
module GtphubPackets {
  import opened GtphubState
  import opened GtphubTei
  import opened GtphubOps
  import opened GtphubSeq
  import opened GtphubEvents
  import opened GtphubExpiry

  // ---- Packets ----

  datatype Kind = EchoReq | CreateReq | CreateRsp | DeleteReq | DeleteRsp | OtherMessage

  /** The IMSI and APN of a message: not there, not readable, or the full name to resolve. */
  datatype ApnIe = NoApn | BadApn | Apn(name: seq<char>)

  /** A decoded packet: where it came in and from whom, its header, and the elements the hub reads. `gtp0` tells that it is of
      version 0 of the protocol. `now` is when it came in, `later` the second look at the clock when a lookup is started. */
  datatype Packet = Packet(side: Side, plane: Plane, fromAddr: Addr, fromPort: UdpPort, gtp0: bool, kind: Kind, seqNr: nat,
                           tei: nat, restart: Option<nat>, gsn: map<Plane, Addr>, teis: map<Plane, nat>, apn: ApnIe,
                           teardown: Option<int>, nsapi: Option<int>, accepted: Option<bool>, now: nat, later: nat)

  /** A forwarded packet carries new sequence and header TEI numbers. Stopped: an assertion or the exhausted TEI range
      ends the program. */
  datatype Outcome = Dropped | Echoed | Absorbed | Forwarded(to: nat, seqNr: nat, tei: nat) | Stopped

  /** How the hub is set up: whether an SGSN's endpoints are where its messages come from, and its own address on each
      socket. */
  datatype Config = Config(useSender: bool, local: map<Bind, Addr>)

  function RefAt(h: Hub, s: Slot): Option<nat> { if s in h.net.refs then Some(h.net.refs[s]) else None }

  ghost function PeerOf(h: Hub, p: nat): nat
    requires p in h.net.ports
  {
    h.net.ports[p].peer
  }

  lemma PeerLive(h: Hub, p: nat)
    requires Inv(h) && p in h.net.ports
    ensures PeerOf(h, p) in h.peers && h.peers[PeerOf(h, p)].addr.Some?
  {
  }

  ghost function Advance(h: Hub, now: nat): Hub { h.(queues := h.queues.(clock := now)) }

  lemma AdvanceOk(h: Hub, now: nat)
    requires Inv(h) && h.queues.clock <= now
    ensures Inv(Advance(h, now)) && Advance(h, now).net == h.net && Advance(h, now).lists == h.lists && Advance(h, now).peers == h.peers
  {
    var s := SlowItems(TunIds(h.lists.tunnels), NoteIds(h.lists.resolved));
    var k := QuickItems(MapIds(h.peers), NoteIds(h.lists.pending), NoteIds(h.lists.lookups));
    hide NetOk, PortsOk, Owned, IdsOk, TeisOk, SeqsOk, QueueOk, SlowItems, QuickItems, TunIds, NoteIds, MapIds;
    QueueLater(h.queues.slow, s, h.queues.clock + SLOW, now + SLOW);
    QueueLater(h.queues.quick, k, h.queues.clock + QUICK, now + QUICK);
    SameIds(h, Advance(h, now));
  }

  // ---- The sender ----

  /** The packet's port number is looked up: no proxy has its side, and its address is known there or an SGSN makes contact
      on the control plane. */
  ghost predicate PortSought(h: Hub, p: Packet) {
    var b := Bind(p.side, p.plane);
    RefAt(h, Proxy(b)).None? && (FindPeer(h, b, p.fromAddr).Some? || b == SGSN_CTRL)
  }

  /** The port a packet comes from. A proxy is the only sender allowed on its side; an unknown sender
      is taken up only when an SGSN makes contact on the control plane. */
  ghost function Sender(h: Hub, p: Packet): (Hub, Option<nat>)
    requires PortSought(h, p) ==> p.fromPort != 0
  {
    var b := Bind(p.side, p.plane);
    var proxy := RefAt(h, Proxy(b));
    if proxy.Some? then
      if proxy.value in h.net.ports && h.net.ports[proxy.value].peer in h.peers
         && h.peers[h.net.ports[proxy.value].peer].addr == Some(p.fromAddr) && h.net.ports[proxy.value].num == p.fromPort
      then (h, proxy) else (h, None)
    else if !PortSought(h, p) then (h, None)
    else
      var (g, known) := KnownAddrHavePort(h, b, p.fromAddr, p.fromPort);
      if known.Some? then (g, known)
      else
        var (e, met) := PortHave(g, b, p.fromAddr, p.fromPort);
        (e, Some(met))
  }

  lemma SenderOk(h: Hub, p: Packet)
    requires Inv(h) && (PortSought(h, p) ==> p.fromPort != 0)
    ensures var (g, from) := Sender(h, p); Keeps(h, g) && (from.Some? ==> from.value in g.net.ports)
  {
    var b := Bind(p.side, p.plane);
    NetLive(h);
    hide Inv, KnownAddrHavePort, PortHave, Grows, PortSought;
    KeepsSelf(h);
    if RefAt(h, Proxy(b)).None? && PortSought(h, p) {
      KnownAddrHavePortOk(h, b, p.fromAddr, p.fromPort);
      var g := KnownAddrHavePort(h, b, p.fromAddr, p.fromPort).0;
      PortHaveOk(g, b, p.fromAddr, p.fromPort);
      KeepsChain(h, g, PortHave(g, b, p.fromAddr, p.fromPort).0);
    }
  }

  // ---- Restart counters ----

  ghost function SetRestart(h: Hub, p: nat, count: nat): Hub
    requires p in h.net.ports
  {
    h.(net := h.net.(ports := h.net.ports[p := h.net.ports[p].(restart := count)]))
  }

  lemma SetRestartOk(h: Hub, p: nat, count: nat)
    requires Inv(h) && p in h.net.ports
    ensures Keeps(h, SetRestart(h, p, count))
  {
    var g := SetRestart(h, p, count);
    RestartPorts(h, p, count);
    hide RefsOk, PortsOk, Owned, QueuesOk, IdsOk, TeisOk, SeqsOk, TunIds, NoteIds, MapIds, Grows;
    SameIds(h, g);
    GrowsBy(h, g);
  }

  lemma RestartPorts(h: Hub, p: nat, count: nat)
    requires RefsOk(h.net.refs, h.net.ports) && PortsOk(h.net.ports, h.peers) && p in h.net.ports
    ensures var ports := SetRestart(h, p, count).net.ports;
      ports.Keys == h.net.ports.Keys && RefsOk(h.net.refs, ports) && PortsOk(ports, h.peers)
  {
    hide SlotsOf;
  }

  /** gtphub_check_restart_counter. */
  ghost function CheckRestart(h: Hub, p: Packet, from: nat): Hub
    requires from in h.net.ports
  {
    if p.restart.None? || p.restart.value > 255 then h
    else
      var last := h.net.ports[from].restart;
      var g := if 0 <= last <= 255 && last != p.restart.value then RestartTunnels(h, h.lists.tunnels, PeerOf(h, from)) else h;
      if from in g.net.ports then SetRestart(g, from, p.restart.value) else g
  }

  lemma CheckRestartOk(h: Hub, p: Packet, from: nat)
    requires Inv(h) && from in h.net.ports
    ensures Keeps(h, CheckRestart(h, p, from))
  {
    hide Inv, RestartTunnels, SetRestart;
    KeepsSelf(h);
    var g := RestartTunnels(h, h.lists.tunnels, PeerOf(h, from));
    RestartTunnelsOk(h, h.lists.tunnels, PeerOf(h, from));
    if p.restart.Some? {
      SetRestartOk(h, from, p.restart.value);
      SetRestartOk(g, from, p.restart.value);
      KeepsChain(h, g, SetRestart(g, from, p.restart.value));
    }
  }

  // ---- Unmapping ----

  /** The destination found for a packet. `fromSeq` is set if the sequence number was unmapped; `tei` is the TEI that the
      other endpoint announced. */
  datatype Unmapped = Unknown | Unmapped(h: Hub, tun: Option<nat>, to: Option<nat>, fromSeq: Option<nat>, seqNr: nat, tei: nat)

  /** The tunnel of a packet with a TEI. */
  ghost function SenderTunnel(h: Hub, p: Packet, from: nat): (t: Option<Tunnel>)
    requires from in h.net.ports && PeerOf(h, from) in h.peers
    ensures t.Some? ==> t.value in h.lists.tunnels
  {
    if p.tei == 0 then None
    else FindTunnel(h, h.lists.tunnels, Bind(p.side, p.plane), p.tei, h.peers[PeerOf(h, from)].addr)
  }

  /** A proxy on the other side comes first, then the origin of the sequence number, then the other
      endpoint of the tunnel. */
  ghost function Destination(h: Hub, p: Packet, t: Option<Tunnel>, fromSeq: Option<nat>): Option<nat> {
    var fromTei := if t.Some? then RefAt(h, Endpoint(t.value.id, Bind(OtherSide(p.side), p.plane))) else None;
    var proxy := RefAt(h, Proxy(Bind(OtherSide(p.side), p.plane)));
    if proxy.Some? then proxy else if fromSeq.Some? then fromSeq else fromTei
  }

  /** gtphub_unmap. */
  ghost function Unmap(h: Hub, p: Packet, from: nat): Unmapped
    requires from in h.net.ports && PeerOf(h, from) in h.peers
  {
    var u := UnmapSeq(h, PeerOf(h, from), p.seqNr);
    var t := SenderTunnel(h, p, from);
    if p.tei != 0 && t.None? then Unknown
    else
      var fromSeq := if u.Some? then u.value.1 else None;
      var to := Destination(h, p, t, fromSeq);
      Unmapped(if t.Some? then RefreshTunnel(h, t.value.id) else h, if t.Some? then Some(t.value.id) else None,
               to, if to.Some? then fromSeq else None, if u.Some? then u.value.0 else p.seqNr,
               if t.Some? then TeiOf(t.value, Bind(OtherSide(p.side), p.plane)) else p.tei)
  }

  lemma DestinationLive(h: Hub, p: Packet, t: Option<Tunnel>, fromSeq: Option<nat>)
    requires Inv(h) && (fromSeq.Some? ==> fromSeq.value in h.net.ports)
    ensures var to := Destination(h, p, t, fromSeq); to.Some? ==> to.value in h.net.ports
  {
    NetLive(h);
    hide Inv;
  }

  lemma UnmapOk(h: Hub, p: Packet, from: nat)
    requires Inv(h) && from in h.net.ports
    ensures PeerOf(h, from) in h.peers
    ensures var u := Unmap(h, p, from); u.Unmapped? ==>
      && Keeps(h, u.h) && (u.tun.Some? ==> u.tun.value in TunIds(u.h.lists.tunnels)) && (u.to.Some? ==> u.to.value in u.h.net.ports)
  {
    hide Inv, SenderTunnel, RefreshTunnel, TunIds, Keeps, UnmapSeq, PeerOf, Destination;
    PeerLive(h, from);
    KeepsSelf(h);
    UnmapSeqLive(h, PeerOf(h, from), p.seqNr);
    var u := UnmapSeq(h, PeerOf(h, from), p.seqNr);
    var t := SenderTunnel(h, p, from);
    DestinationLive(h, p, t, if u.Some? then u.value.1 else None);
    if t.Some? {
      ListedTunnel(h, t.value);
      RefreshTunnelOk(h, t.value.id);
    }
  }

  lemma ListedTunnel(h: Hub, t: Tunnel)
    requires t in h.lists.tunnels
    ensures t.id in TunIds(h.lists.tunnels)
  {
  }

  lemma UnmapSeqLive(h: Hub, q: nat, seqNr: nat)
    requires Inv(h) && q in h.peers
    ensures var u := UnmapSeq(h, q, seqNr); u.Some? && u.value.1.Some? ==> u.value.1.value in h.net.ports
  {
    NetLive(h);
    hide Inv, MapGetInv;
  }

  // ---- Resolving the GGSN ----

  function FindApn(ns: seq<Note>, apn: seq<char>): (r: Option<Note>)
    ensures r.Some? ==> r.value in ns
  {
    if ns == [] then None
    else if !ns[0].Pending? && ns[0].apn == apn then Some(ns[0]) else FindApn(ns[1..], apn)
  }

  /** gtphub_resolve_ggsn: nothing while a lookup is running, else the cached port, else a lookup is
      started. The last result is whether a resolution that should have been possible failed. */
  ghost function Resolve(h: Hub, p: Packet): (Hub, Option<nat>, bool) {
    match p.apn
    case NoApn => (h, None, false)
    case BadApn => (h, None, true)
    case Apn(name) =>
      if FindApn(h.lists.lookups, name).Some? then (h, None, true)
      else
        var r := FindApn(h.lists.resolved, name);
        if r.Some? then
          var to := RefAt(h, ResolvedPeer(r.value.id));
          (h, to, to.None?)
        else
          var g := Advance(h, p.later);
          (AddNote(g, Lookup(g.nextId, name), None), None, true)
  }

  lemma ResolveOk(h: Hub, p: Packet)
    requires Inv(h) && h.queues.clock <= p.later
    ensures var (g, to, failed) := Resolve(h, p);
      && Inv(g) && (to.Some? ==> !failed) && (!failed ==> Keeps(h, g)) && (to.Some? ==> to.value in g.net.ports)
      && g.queues.clock <= p.later
  {
    hide Inv, AddNote, Keeps, FindApn, Advance;
    NetLive(h);
    KeepsSelf(h);
    if p.apn.Apn? { LookupStarts(h, p); }
  }

  lemma LookupStarts(h: Hub, p: Packet)
    requires Inv(h) && h.queues.clock <= p.later && p.apn.Apn?
    ensures var g := Advance(h, p.later); var e := AddNote(g, Lookup(g.nextId, p.apn.name), None);
      Inv(e) && e.queues.clock <= p.later
  {
    hide Inv, AddNote, Grows;
    AdvanceOk(h, p.later);
    var g := Advance(h, p.later);
    AddNoteOk(g, Lookup(g.nextId, p.apn.name), None);
    GrowsClock(g, AddNote(g, Lookup(g.nextId, p.apn.name), None));
  }

  lemma GrowsClock(h: Hub, g: Hub)
    requires Keeps(h, g)
    ensures g.queues.clock == h.queues.clock
  {
  }

  // ---- Create PDP Context ----

  datatype Handled = Handled(h: Hub, tun: Option<nat>, ok: bool) | HandledStop

  /** The peer a create message names for one plane, with the default port, or the sender if the hub is
      set up to use the senders' addresses of SGSNs. */
  ghost function PeerFromIe(h: Hub, p: Packet, from: nat, plane: Plane, cfg: Config): (Hub, nat)
    requires plane in p.gsn && from in h.net.ports && PeerOf(h, from) in h.peers
  {
    var sender := h.peers[PeerOf(h, from)].addr;
    if cfg.useSender && p.side == Sgsn && sender.Some? then PortHave(h, Bind(p.side, plane), sender.value, h.net.ports[from].num)
    else PortHave(h, Bind(p.side, plane), p.gsn[plane], if plane == Ctrl then 2123 else 2152)
  }

  /** The hub's own address has the length of the one in the message, which it replaces. */
  predicate Fits(p: Packet, plane: Plane, cfg: Config)
    requires plane in p.gsn
  {
    var b := Bind(OtherSide(p.side), plane);
    b in cfg.local && |cfg.local[b]| == |p.gsn[plane]|
  }

  ghost function Rewritten(r: PlaneResult, fits: bool): PlaneResult { if r.PlaneDone? && !fits then PlaneError(r.h) else r }

  ghost function CreatePlane(h: Hub, p: Packet, t: nat, from: nat, plane: Plane, cfg: Config): PlaneResult
    requires from in h.net.ports && PeerOf(h, from) in h.peers && t in TunIds(h.lists.tunnels)
  {
    if plane !in p.gsn || (plane !in p.teis && p.kind == CreateReq) then PlaneError(h)
    else
      var (g, peer) := PeerFromIe(h, p, from, plane, cfg);
      if t !in TunIds(g.lists.tunnels) then PlaneError(g)
      else Rewritten(PlaneIe(g, t, Bind(p.side, plane), peer, if plane in p.teis then p.teis[plane] else 0), Fits(p, plane, cfg))
  }

  lemma PeerFromIeOk(h: Hub, p: Packet, from: nat, plane: Plane, cfg: Config)
    requires Inv(h) && plane in p.gsn && from in h.net.ports
    ensures PeerOf(h, from) in h.peers
    ensures var (g, peer) := PeerFromIe(h, p, from, plane, cfg);
      Keeps(h, g) && g.lists == h.lists && peer in g.net.ports
  {
    PeerLive(h, from);
    hide Inv, PortHave, Grows, PeerOf;
    var sender := h.peers[PeerOf(h, from)].addr;
    if cfg.useSender && p.side == Sgsn && sender.Some? {
      PortHaveOk(h, Bind(p.side, plane), sender.value, h.net.ports[from].num);
    } else {
      PortHaveOk(h, Bind(p.side, plane), p.gsn[plane], if plane == Ctrl then 2123 else 2152);
    }
  }

  lemma PlaneKept(h: Hub, g: Hub, r: PlaneResult, t: nat)
    requires Grows(h, g) && PlaneKeeps(g, r, t)
    ensures PlaneKeeps(h, r, t)
  {
    hide Inv, TunIds, Grows;
    if !r.PlaneAbort? { GrowsChain(h, g, r.h); }
  }

  lemma RewrittenKeeps(h: Hub, r: PlaneResult, fits: bool, t: nat)
    requires PlaneKeeps(h, r, t)
    ensures PlaneKeeps(h, Rewritten(r, fits), t)
  {
    hide Inv, TunIds, Grows;
  }

  lemma CreatePlaneOk(h: Hub, p: Packet, t: nat, from: nat, plane: Plane, cfg: Config)
    requires Inv(h) && from in h.net.ports && t in TunIds(h.lists.tunnels)
    ensures PeerOf(h, from) in h.peers && PlaneKeeps(h, CreatePlane(h, p, t, from, plane, cfg), t)
  {
    PeerLive(h, from);
    if plane in p.gsn && (plane in p.teis || p.kind != CreateReq) {
      hide Inv, PeerFromIe, PlaneIe, TunIds, Grows, PeerOf, PlaneKeeps, Rewritten;
      PeerFromIeOk(h, p, from, plane, cfg);
      var (g, peer) := PeerFromIe(h, p, from, plane, cfg);
      var tei := if plane in p.teis then p.teis[plane] else 0;
      KeepsInv(h, g);
      PlaneIeOk(g, t, Bind(p.side, plane), peer, tei);
      var r := PlaneIe(g, t, Bind(p.side, plane), peer, tei);
      RewrittenKeeps(g, r, Fits(p, plane, cfg), t);
      PlaneKept(h, g, Rewritten(r, Fits(p, plane, cfg)), t);
    } else {
      hide Inv, TunIds, PeerOf;
      GrowsBy(h, h);
    }
  }

  /** Both planes in order; the second is handled only if the first had no error. */
  ghost function CreatePlanes(h: Hub, p: Packet, t: nat, from: nat, cfg: Config): Handled
    requires Inv(h) && from in h.net.ports && t in TunIds(h.lists.tunnels)
  {
    CreatePlaneOk(h, p, t, from, Ctrl, cfg);
    match CreatePlane(h, p, t, from, Ctrl, cfg)
    case PlaneAbort => HandledStop
    case PlaneError(g) => Handled(g, Some(t), false)
    case PlaneDone(g) =>
      CreatePlaneOk(g, p, t, from, User, cfg);
      match CreatePlane(g, p, t, from, User, cfg)
      case PlaneAbort => HandledStop
      case PlaneError(e) => Handled(e, Some(t), false)
      case PlaneDone(e) => Handled(e, Some(t), true)
  }

  lemma CreatePlanesOk(h: Hub, p: Packet, t: nat, from: nat, cfg: Config)
    requires Inv(h) && from in h.net.ports && t in TunIds(h.lists.tunnels)
    ensures var r := CreatePlanes(h, p, t, from, cfg); r.Handled? ==> Keeps(h, r.h)
  {
    CreatePlaneOk(h, p, t, from, Ctrl, cfg);
    var first := CreatePlane(h, p, t, from, Ctrl, cfg);
    if first.PlaneDone? {
      CreatePlaneOk(first.h, p, t, from, User, cfg);
      var second := CreatePlane(first.h, p, t, from, User, cfg);
      hide Inv, CreatePlane, TunIds;
      if !second.PlaneAbort? { GrowsChain(h, first.h, second.h); }
    }
  }

  /** gtphub_handle_create_pdp_ctx. */
  ghost function HandleCreate(h: Hub, p: Packet, tun: Option<nat>, from: nat, to: nat, cfg: Config): Handled
    requires Inv(h) && from in h.net.ports && to in h.net.ports && (tun.Some? ==> tun.value in TunIds(h.lists.tunnels))
  {
    if p.kind == CreateReq then
      if p.side != Sgsn || tun.Some? then Handled(h, tun, false)
      else
        NewTunnelOk(h, Some(to));
        var (g, t) := NewTunnel(h, Some(to));
        CreatePlanes(g, p, t, from, cfg)
    else if p.side != Ggsn then Handled(h, tun, false)
    else if tun.None? then HandledStop
    else CreatePlanes(h, p, tun.value, from, cfg)
  }

  lemma PortStays(h: Hub, g: Hub, p: nat)
    requires Grows(h, g) && p in h.net.ports
    ensures p in g.net.ports
  {
  }

  lemma HandleCreateOk(h: Hub, p: Packet, tun: Option<nat>, from: nat, to: nat, cfg: Config)
    requires Inv(h) && from in h.net.ports && to in h.net.ports && (tun.Some? ==> tun.value in TunIds(h.lists.tunnels))
    ensures var r := HandleCreate(h, p, tun, from, to, cfg); r.Handled? ==> Keeps(h, r.h)
  {
    hide Inv, CreatePlanes, NewTunnel, TunIds, Grows;
    KeepsSelf(h);
    if p.kind == CreateReq {
      NewTunnelOk(h, Some(to));
      var (g, t) := NewTunnel(h, Some(to));
      PortStays(h, g, from);
      CreatePlanesOk(g, p, t, from, cfg);
      var made := CreatePlanes(g, p, t, from, cfg);
      if made.Handled? { GrowsChain(h, g, made.h); }
    } else if tun.Some? {
      CreatePlanesOk(h, p, tun.value, from, cfg);
    }
  }

  /** gtphub_handle_delete_pdp_ctx. */
  ghost function HandleDelete(h: Hub, p: Packet, tun: Option<nat>): Handled {
    if p.kind == DeleteReq then
      if tun.None? || p.teardown.None? || p.nsapi.None? then Handled(h, tun, false)
      else Handled(DeleteRequest(h, tun.value, p.teardown.value, p.nsapi.value), tun, true)
    else if tun.None? then Handled(h, tun, false)
    else
      var (g, gone) := DeleteResponse(h, tun.value, p.accepted == Some(true));
      Handled(g, if gone then None else tun, gone)
  }

  lemma HandleDeleteOk(h: Hub, p: Packet, tun: Option<nat>)
    requires Inv(h) && (tun.Some? ==> tun.value in TunIds(h.lists.tunnels))
    ensures Keeps(h, HandleDelete(h, p, tun).h)
  {
    hide Inv, DeleteRequest, DeleteResponse, TunIds, Grows;
    KeepsSelf(h);
    if tun.Some? {
      if p.teardown.Some? && p.nsapi.Some? { DeleteRequestOk(h, tun.value, p.teardown.value, p.nsapi.value); }
      DeleteResponseOk(h, tun.value, p.accepted == Some(true));
    }
  }

  // ---- The whole packet ----

  /** gtphub_handle_pdp_ctx, for packets on the control plane. */
  ghost function HandlePdp(h: Hub, p: Packet, tun: Option<nat>, from: nat, to: nat, cfg: Config): Handled
    requires Inv(h) && from in h.net.ports && to in h.net.ports && (tun.Some? ==> tun.value in TunIds(h.lists.tunnels))
  {
    if p.plane == User then Handled(h, tun, true)
    else match p.kind
      case CreateReq => HandleCreate(h, p, tun, from, to, cfg)
      case CreateRsp => HandleCreate(h, p, tun, from, to, cfg)
      case DeleteReq => HandleDelete(h, p, tun)
      case DeleteRsp => HandleDelete(h, p, tun)
      case EchoReq => Handled(h, tun, true)
      case OtherMessage => Handled(h, tun, true)
  }

  lemma HandlePdpOk(h: Hub, p: Packet, tun: Option<nat>, from: nat, to: nat, cfg: Config)
    requires Inv(h) && from in h.net.ports && to in h.net.ports && (tun.Some? ==> tun.value in TunIds(h.lists.tunnels))
    ensures var r := HandlePdp(h, p, tun, from, to, cfg);
      r.Handled? ==> Keeps(h, r.h) && from in r.h.net.ports && to in r.h.net.ports
  {
    hide Inv, HandleCreate, HandleDelete, TunIds, Grows;
    KeepsSelf(h);
    HandleCreateOk(h, p, tun, from, to, cfg);
    HandleDeleteOk(h, p, tun);
    var r := HandlePdp(h, p, tun, from, to, cfg);
    if r.Handled? {
      PortStays(h, r.h, from);
      PortStays(h, r.h, to);
    }
  }

  /** Mapping the sequence number, unless the packet is a reply whose number was unmapped. */
  ghost function Forward(h: Hub, p: Packet, u: Unmapped, from: nat, to: nat): (Hub, Outcome)
    requires Inv(h) && u.Unmapped? && from in h.net.ports && to in h.net.ports
  {
    PeerLive(h, to);
    if u.fromSeq.Some? then (h, Forwarded(to, u.seqNr, u.tei))
    else
      var (g, repl) := MappingHave(h, PeerOf(h, to), from, u.seqNr);
      (g, Forwarded(to, repl, u.tei))
  }

  /** From the destination on. A message that belongs to no tunnel stops the program, unless it is the
      answer to a delete request. */
  ghost function Deliver(h: Hub, p: Packet, u: Unmapped, from: nat, to: nat, cfg: Config): (Hub, Outcome)
    requires Inv(h) && u.Unmapped? && from in h.net.ports && to in h.net.ports
    requires u.tun.Some? ==> u.tun.value in TunIds(h.lists.tunnels)
  {
    HandlePdpOk(h, p, u.tun, from, to, cfg);
    match HandlePdp(h, p, u.tun, from, to, cfg)
    case HandledStop => (h, Stopped)
    case Handled(g, tun, ok) =>
      if !ok then (g, Dropped)
      else if tun.None? && p.kind != DeleteRsp then (h, Stopped)
      else Forward(g, p, u, from, to)
  }

  /** Where a packet goes once its sender is known: its destination with the tables as they are then, or its end. */
  datatype Located = Ends(h: Hub, out: Outcome) | Located(h: Hub, u: Unmapped, to: nat)

  ghost function Locate(h: Hub, p: Packet, from: nat): Located
    requires Inv(h) && from in h.net.ports && h.queues.clock <= p.later
  {
    UnmapOk(h, p, from);
    var u := Unmap(h, p, from);
    if u.Unknown? then Ends(h, Dropped)
    else
      GrowsClock(h, u.h);
      ResolveOk(u.h, p);
      var (g, found, failed) := if u.to.None? && p.side == Sgsn then Resolve(u.h, p) else (u.h, u.to, false);
      if failed then Ends(g, Dropped)
      else if found.None? then
        if u.tun.Some? && p.kind == DeleteRsp then Ends(DelItem(g, TunItem(u.tun.value)), Absorbed) else Ends(g, Dropped)
      else Located(g, u, found.value)
  }

  /** What follows once the sender is known. */
  ghost function Route(h: Hub, p: Packet, from: nat, cfg: Config): (Hub, Outcome)
    requires Inv(h) && from in h.net.ports && h.queues.clock <= p.later
  {
    LocateOk(h, p, from);
    match Locate(h, p, from)
    case Ends(g, out) => (g, out)
    case Located(g, u, to) => Deliver(g, p, u, from, to, cfg)
  }

  /** The tables once the sender of a packet is known, or its end. A port of number zero must not be looked up, and a known
      sender must not use version 0 of the protocol. */
  datatype Arrival = Refused(h: Hub, out: Outcome) | Arrived(h: Hub, from: nat)

  ghost function Arrive(h: Hub, p: Packet): Arrival
    requires Inv(h) && h.queues.clock <= p.now <= p.later
  {
    AdvanceOk(h, p.now);
    var h0 := Advance(h, p.now);
    if p.kind == EchoReq then Refused(h0, Echoed)
    else if PortSought(h0, p) && p.fromPort == 0 then Refused(h0, Stopped)
    else
      SenderOk(h0, p);
      var (h1, from) := Sender(h0, p);
      if from.None? then Refused(h1, Dropped)
      else
        CheckRestartOk(h1, p, from.value);
        var h2 := CheckRestart(h1, p, from.value);
        if p.gtp0 then Refused(h2, Stopped) else Arrived(h2, from.value)
  }

  /** gtphub_handle_buf, for a packet that could be decoded. */
  ghost function HandleBuf(h: Hub, p: Packet, cfg: Config): (Hub, Outcome)
    requires Inv(h) && h.queues.clock <= p.now <= p.later
  {
    ArriveOk(h, p);
    match Arrive(h, p)
    case Refused(g, out) => (g, out)
    case Arrived(g, from) => Route(g, p, from, cfg)
  }

  lemma ForwardOk(h: Hub, p: Packet, u: Unmapped, from: nat, to: nat)
    requires Inv(h) && u.Unmapped? && from in h.net.ports && to in h.net.ports
    ensures Keeps(h, Forward(h, p, u, from, to).0)
  {
    PeerLive(h, to);
    hide Inv, MappingHave, Grows;
    KeepsSelf(h);
    MappingHaveOk(h, PeerOf(h, to), from, u.seqNr);
  }

  lemma DeliverOk(h: Hub, p: Packet, u: Unmapped, from: nat, to: nat, cfg: Config)
    requires Inv(h) && u.Unmapped? && from in h.net.ports && to in h.net.ports
    requires u.tun.Some? ==> u.tun.value in TunIds(h.lists.tunnels)
    ensures Keeps(h, Deliver(h, p, u, from, to, cfg).0)
  {
    hide Inv, HandlePdp, Forward, TunIds, Grows, Keeps;
    HandlePdpOk(h, p, u.tun, from, to, cfg);
    KeepsSelf(h);
    var r := HandlePdp(h, p, u.tun, from, to, cfg);
    if r.Handled? {
      KeepsInv(h, r.h);
      ForwardOk(r.h, p, u, from, to);
      KeepsChain(h, r.h, Forward(r.h, p, u, from, to).0);
    }
  }

  lemma LocateOk(h: Hub, p: Packet, from: nat)
    requires Inv(h) && from in h.net.ports && h.queues.clock <= p.later
    ensures Inv(Locate(h, p, from).h) && Locate(h, p, from).h.queues.clock <= p.later
    ensures var l := Locate(h, p, from); l.Located? ==>
      && from in l.h.net.ports && l.to in l.h.net.ports && l.u.Unmapped?
      && (l.u.tun.Some? ==> l.u.tun.value in TunIds(l.h.lists.tunnels))
  {
    hide Inv, Resolve, Unmap, DelItem, TunIds, Grows, PeerOf;
    UnmapOk(h, p, from);
    var u := Unmap(h, p, from);
    if u.Unmapped? {
      GrowsClock(h, u.h);
      PortStays(h, u.h, from);
      ResolveOk(u.h, p);
      ResolveLists(u.h, p);
      var (g, found, failed) := if u.to.None? && p.side == Sgsn then Resolve(u.h, p) else (u.h, u.to, false);
      if !failed && found.None? && u.tun.Some? && p.kind == DeleteRsp {
        TunListed(g, u.tun.value);
        DelListedOk(g, TunItem(u.tun.value));
        GrowsClock(g, DelItem(g, TunItem(u.tun.value)));
      }
    }
  }

  lemma RouteOk(h: Hub, p: Packet, from: nat, cfg: Config)
    requires Inv(h) && from in h.net.ports && h.queues.clock <= p.later
    ensures var g := Route(h, p, from, cfg).0; Inv(g) && g.queues.clock <= p.later
  {
    hide Inv, Locate, Deliver, TunIds, Grows;
    LocateOk(h, p, from);
    var l := Locate(h, p, from);
    if l.Located? {
      DeliverOk(l.h, p, l.u, from, l.to, cfg);
      GrowsClock(l.h, Deliver(l.h, p, l.u, from, l.to, cfg).0);
    }
  }

  lemma ResolveLists(h: Hub, p: Packet)
    ensures !Resolve(h, p).2 ==> Resolve(h, p).0 == h
  {
  }

  lemma TunListed(h: Hub, t: nat)
    requires t in TunIds(h.lists.tunnels)
    ensures TunItem(t) in SlowItems(TunIds(h.lists.tunnels), NoteIds(h.lists.resolved))
  {
  }

  lemma ArriveOk(h: Hub, p: Packet)
    requires Inv(h) && h.queues.clock <= p.now <= p.later
    ensures var r := Arrive(h, p); Inv(r.h) && r.h.queues.clock <= p.later && (r.Arrived? ==> r.from in r.h.net.ports)
  {
    hide Inv, Sender, CheckRestart, Grows, PortSought;
    AdvanceOk(h, p.now);
    var h0 := Advance(h, p.now);
    if p.kind != EchoReq && !(PortSought(h0, p) && p.fromPort == 0) {
      SenderOk(h0, p);
      var (h1, from) := Sender(h0, p);
      GrowsClock(h0, h1);
      if from.Some? {
        CheckRestartOk(h1, p, from.value);
        var h2 := CheckRestart(h1, p, from.value);
        GrowsClock(h1, h2);
        PortStays(h1, h2, from.value);
      }
    }
  }

  /** Handling a packet keeps every invariant of the tables. */
  lemma HandleBufOk(h: Hub, p: Packet, cfg: Config)
    requires Inv(h) && h.queues.clock <= p.now <= p.later
    ensures var g := HandleBuf(h, p, cfg).0; Inv(g) && g.queues.clock <= p.later
  {
    hide Inv, Arrive, Route;
    ArriveOk(h, p);
    var r := Arrive(h, p);
    if r.Arrived? { RouteOk(r.h, p, r.from, cfg); }
  }

  // ---- Traffic through a tunnel ----

  /** A checked tunnel whose number no unchecked one has, and a user packet with that number from one of its endpoints. */
  ghost predicate Belongs(h: Hub, p: Packet, from: nat, t: Tunnel)
    requires from in h.net.ports && PeerOf(h, from) in h.peers
  {
    && t in h.lists.tunnels && t.checked && (forall x | x in h.lists.tunnels && !x.checked :: x.teiRepl != t.teiRepl)
    && p.plane == User && p.kind == OtherMessage && p.tei == t.teiRepl
    && AddrAt(h, Endpoint(t.id, Bind(p.side, User))) == h.peers[PeerOf(h, from)].addr
  }

  lemma UnmapsTunnel(h: Hub, p: Packet, from: nat, t: Tunnel)
    requires Inv(h) && from in h.net.ports && PeerOf(h, from) in h.peers && Belongs(h, p, from, t)
    ensures SenderTunnel(h, p, from) == Some(t) && p.tei != 0
  {
    PeerLive(h, from);
    TunnelRange(h, t);
    FindsChecked(h, t, Bind(p.side, User), h.peers[PeerOf(h, from)].addr);
  }

  /** The hub joins the two halves of a tunnel: a user packet with a tunnel's replacement TEI from the address of one of
      its endpoints goes to the other endpoint, with the TEI that endpoint announced, unless it is the reply to a mapped
      sequence number or a proxy is set up. */
  lemma TunnelJoins(h: Hub, p: Packet, from: nat, t: Tunnel, to: nat, cfg: Config)
    requires Inv(h) && from in h.net.ports && h.queues.clock <= p.later && PeerOf(h, from) in h.peers && Belongs(h, p, from, t)
    requires RefAt(h, Endpoint(t.id, Bind(OtherSide(p.side), User))) == Some(to)
    requires RefAt(h, Proxy(Bind(OtherSide(p.side), User))).None? && UnmapSeq(h, PeerOf(h, from), p.seqNr).None?
    ensures var out := Route(h, p, from, cfg).1;
      out.Forwarded? && out.to == to && out.tei == TeiOf(t, Bind(OtherSide(p.side), User))
  {
    hide Inv, SenderTunnel, RefreshTunnel, TunIds, UnmapSeq, MappingHave, Grows, AddrAt;
    UnmapsTunnel(h, p, from, t);
    ListedTunnel(h, t);
    RefreshTunnelOk(h, t.id);
    UnmapOk(h, p, from);
    var u := Unmap(h, p, from);
    assert u.to == Some(to) && u.fromSeq.None? && u.tun == Some(t.id) && u.h.net == h.net;
  }

  // ---- Runs ----

  /** What can happen to a running hub: a packet, a collection, the end of a lookup with the address
      it gave if it gave one. */
  datatype Event = Packets(p: Packet) | Collects(now: nat) | Resolves(lookup: nat, addr: Option<Addr>, now: nat)

  function TimeOf(e: Event): nat {
    match e case Packets(p) => p.now case Collects(now) => now case Resolves(_, _, now) => now
  }

  function EndOf(e: Event): nat {
    match e case Packets(p) => if p.now < p.later then p.later else p.now case Collects(now) => now case Resolves(_, _, now) => now
  }

  /** gtphub_resolved_ggsn and the end of the lookup. */
  ghost function LookupDone(h: Hub, l: Note, addr: Option<Addr>): Hub
    requires l.Lookup?
  {
    var done := LookupItem(l.id);
    if addr.None? then DelItem(h, done)
    else
      var (g, pp) := PortHave(h, GGSN_CTRL, addr.value, 2123);
      DelItem(AddNote(g, ResolvedGgsn(g.nextId, l.apn), Some(pp)), done)
  }

  function FindLookup(ns: seq<Note>, id: nat): (r: Option<Note>)
    ensures r.Some? ==> r.value in ns && r.value.Lookup? && r.value.id == id
  {
    if ns == [] then None else if ns[0].Lookup? && ns[0].id == id then Some(ns[0]) else FindLookup(ns[1..], id)
  }

  /** A lookup that has expired gives nothing any more. */
  ghost function Step(h: Hub, e: Event, cfg: Config): Hub
    requires Inv(h) && h.queues.clock <= TimeOf(e) && (e.Packets? ==> e.p.now <= e.p.later)
  {
    match e
    case Packets(p) => HandleBuf(h, p, cfg).0
    case Collects(now) => Gc(Advance(h, now), now)
    case Resolves(id, addr, now) =>
      var g := Advance(h, now);
      var l := FindLookup(g.lists.lookups, id);
      if l.None? then g else LookupDone(g, l.value, addr)
  }

  lemma AddedStillListed(h: Hub, n: Note, target: Option<nat>, item: Item)
    requires item in QuickItems(MapIds(h.peers), NoteIds(h.lists.pending), NoteIds(h.lists.lookups)) && n.ResolvedGgsn?
    ensures var g := AddNote(h, n, target); item in QuickItems(MapIds(g.peers), NoteIds(g.lists.pending), NoteIds(g.lists.lookups))
  {
    hide QuickItems, NoteIds, MapIds, SetRef, Enqueue;
  }

  lemma PortHaveListed(h: Hub, b: Bind, a: Addr, num: PortNum, item: Item)
    requires Inv(h) && item.LookupItem?
    requires item in QuickItems(MapIds(h.peers), NoteIds(h.lists.pending), NoteIds(h.lists.lookups))
    ensures var g := PortHave(h, b, a, num).0; item in QuickItems(MapIds(g.peers), NoteIds(g.lists.pending), NoteIds(g.lists.lookups))
  {
    PortHaveOk(h, b, a, num);
    hide Inv, PortHave, NoteIds, MapIds;
  }

  lemma LookupDoneOk(h: Hub, l: Note, addr: Option<Addr>)
    requires Inv(h) && l.Lookup? && l in h.lists.lookups
    ensures Keeps(h, LookupDone(h, l, addr))
  {
    var done := LookupItem(l.id);
    assert l.id in NoteIds(h.lists.lookups);
    assert done in QuickItems(MapIds(h.peers), NoteIds(h.lists.pending), NoteIds(h.lists.lookups));
    hide Inv, DelItem, PortHave, AddNote, Grows, QuickItems, SlowItems;
    if addr.None? {
      DelListedOk(h, done);
    } else {
      PortHaveOk(h, GGSN_CTRL, addr.value, 2123);
      PortHaveListed(h, GGSN_CTRL, addr.value, 2123, done);
      var (g, pp) := PortHave(h, GGSN_CTRL, addr.value, 2123);
      var n := ResolvedGgsn(g.nextId, l.apn);
      var e := AddNote(g, n, Some(pp));
      AddNoteOk(g, n, Some(pp));
      AddedStillListed(g, n, Some(pp), done);
      DelListedOk(e, done);
      KeepsChain(h, g, e);
      KeepsChain(h, e, DelItem(e, done));
    }
  }

  lemma StepOk(h: Hub, e: Event, cfg: Config)
    requires Inv(h) && h.queues.clock <= TimeOf(e) && (e.Packets? ==> e.p.now <= e.p.later)
    ensures Inv(Step(h, e, cfg)) && Step(h, e, cfg).queues.clock <= EndOf(e)
  {
    hide Inv, HandleBuf, Gc, LookupDone, Grows, Advance;
    match e
    case Packets(p) => HandleBufOk(h, p, cfg);
    case Collects(now) =>
      AdvanceOk(h, now);
      AdvanceClock(h, now);
      GcOk(Advance(h, now), now);
    case Resolves(id, addr, now) =>
      AdvanceOk(h, now);
      AdvanceClock(h, now);
      var g := Advance(h, now);
      var l := FindLookup(g.lists.lookups, id);
      if l.Some? {
        LookupDoneOk(g, l.value, addr);
        GrowsClock(g, LookupDone(g, l.value, addr));
      }
  }

  lemma AdvanceClock(h: Hub, now: nat)
    ensures Advance(h, now).queues.clock == now
  {
  }

  /** Time does not run backwards over a run. */
  predicate Timed(es: seq<Event>, from: nat) {
    es != [] ==> from <= TimeOf(es[0]) && (es[0].Packets? ==> es[0].p.now <= es[0].p.later) && Timed(es[1..], EndOf(es[0]))
  }

  lemma {:induction false} TimedEarlier(es: seq<Event>, from: nat, before: nat)
    requires Timed(es, from) && before <= from
    ensures Timed(es, before)
  {
  }

  /** The hub after a run. */
  ghost function Run(h: Hub, es: seq<Event>, cfg: Config): Hub
    requires Inv(h) && Timed(es, h.queues.clock)
    decreases |es|
  {
    if es == [] then h
    else
      StepOk(h, es[0], cfg);
      var g := Step(h, es[0], cfg);
      TimedEarlier(es[1..], EndOf(es[0]), g.queues.clock);
      Run(g, es[1..], cfg)
  }

  /** gtphub_make_proxy: the proxy's port is never collected. */
  ghost function MakeProxy(h: Hub, b: Bind, a: Addr, num: PortNum): Hub {
    var (g, pp) := PortHave(h, b, a, num);
    g.(net := SetRef(g.net, Proxy(b), Some(pp)))
  }

  lemma MakeProxyOk(h: Hub, b: Bind, a: Addr, num: PortNum)
    requires Inv(h)
    ensures Inv(MakeProxy(h, b, a, num))
  {
    PortHaveOk(h, b, a, num);
    var (g, pp) := PortHave(h, b, a, num);
    var s, e := Proxy(b), MakeProxy(h, b, a, num);
    hide NetOk, PortsOk, Owned, SamePorts, SetRef, QueuesOk, TeisOk, SeqsOk, TunIds, NoteIds, MapIds, IdsOk, PortHave, Grows;
    OwnedMore(g.net.refs.Keys, TunIds(g.lists.tunnels), MapIds(g.peers), NoteIds(g.lists.resolved), s, true);
    PointerSet(g.net, g.peers, s, Some(pp), TunIds(g.lists.tunnels), MapIds(g.peers), NoteIds(g.lists.resolved));
    SameIds(g, e);
  }

  /** gtphub_init at time `now`. */
  function Init(now: nat): Hub {
    Hub(map[], Net(map[], map[], false), Lists([], [], [], []), Queues([], [], now, false), TEI_MAX, 0)
  }

  datatype ProxyAddr = ProxyAddr(b: Bind, addr: Addr, num: PortNum)

  ghost function WithProxies(h: Hub, proxies: seq<ProxyAddr>): Hub {
    if proxies == [] then h
    else
      var last := proxies[|proxies| - 1];
      MakeProxy(WithProxies(h, proxies[..|proxies| - 1]), last.b, last.addr, last.num)
  }

  lemma InitOk(now: nat)
    ensures Inv(Init(now))
  {
    var h := Init(now);
    assert TunIds([]) == {} && NoteIds([]) == {} && MapIds(h.peers) == {};
    assert Items([]) == {};
  }

  lemma {:induction false} ProxiesOk(h: Hub, proxies: seq<ProxyAddr>)
    requires Inv(h)
    ensures Inv(WithProxies(h, proxies))
  {
    hide Inv, MakeProxy;
    if proxies != [] {
      var last := |proxies| - 1;
      ProxiesOk(h, proxies[..last]);
      MakeProxyOk(WithProxies(h, proxies[..last]), proxies[last].b, proxies[last].addr, proxies[last].num);
    }
  }

  /** A hub after it was initialised and given its proxies. */
  ghost function Started(now: nat, proxies: seq<ProxyAddr>): (h: Hub)
    ensures Inv(h)
  {
    InitOk(now);
    ProxiesOk(Init(now), proxies);
    WithProxies(Init(now), proxies)
  }
}
