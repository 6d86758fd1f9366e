/** Which operations of the GTP hub add no checked tunnel and give no endpoint another address: all but those on create
    messages (src/gtphub/gtphub.c:1194-1218, 1684-1765, 1849-1928, 1993-2056, 2342-2436). */
module GtphubDwindles {
  import opened GtphubState
  import opened GtphubTei
  import opened GtphubOps
  import opened GtphubSeq
  import opened GtphubEvents
  import opened GtphubExpiry
  import opened GtphubPackets
  import opened GtphubCreate
  import opened GtphubRuns

  // ---- Operations that announce nothing ----

  /** No checked tunnel is new, and none has got another address at an endpoint. */
  ghost predicate Dwindles(h: Hub, g: Hub) {
    forall x | x in g.lists.tunnels && x.checked :: x in h.lists.tunnels && Narrows(h, g, x)
  }

  ghost predicate Narrows(h: Hub, g: Hub, x: Tunnel) {
    forall b: Bind :: AddrAt(g, Endpoint(x.id, b)) == AddrAt(h, Endpoint(x.id, b)) || AddrAt(g, Endpoint(x.id, b)).None?
  }

  lemma NarrowShares(h: Hub, g: Hub, x: Tunnel, y: Tunnel)
    requires Narrows(h, g, x) && Narrows(h, g, y) && SharesAny(g, x, y)
    ensures SharesAny(h, x, y)
  {
    hide AddrAt;
  }

  lemma DwindlesDistinct(h: Hub, g: Hub)
    requires EndpointsDistinct(h) && Dwindles(h, g)
    ensures EndpointsDistinct(g)
  {
    hide SharesAny, Narrows;
    forall x, y | x in g.lists.tunnels && y in g.lists.tunnels && x.checked && y.checked && x.id != y.id
      ensures !SharesAny(g, x, y)
    {
      if SharesAny(g, x, y) { NarrowShares(h, g, x, y); }
    }
  }

  lemma DwindlesChain(f: Hub, g: Hub, h: Hub)
    requires Dwindles(f, g) && Dwindles(g, h)
    ensures Dwindles(f, h)
  {
    hide AddrAt;
  }

  /** Ports and addresses stay, and no tunnel there was gets a pointer. */
  ghost predicate Calm(h: Hub, g: Hub) {
    && Steady(h, g) && (forall x | x in g.lists.tunnels && x.checked :: x in h.lists.tunnels)
    && (forall s <- g.net.refs :: s.Endpoint? && s.tun in TunIds(h.lists.tunnels) ==> s in h.net.refs && g.net.refs[s] == h.net.refs[s])
  }

  lemma AddrSteadyAt(h: Hub, g: Hub, s: Slot)
    requires Inv(h) && Steady(h, g) && s in h.net.refs && s in g.net.refs && g.net.refs[s] == h.net.refs[s]
    ensures AddrAt(g, s) == AddrAt(h, s)
  {
    hide QueuesOk, TeisOk, IdsOk, SeqsOk, TunIds, MapIds, NoteIds;
  }

  lemma CalmDwindles(h: Hub, g: Hub)
    requires Inv(h) && Calm(h, g)
    ensures Dwindles(h, g)
  {
    hide Inv, Steady;
    forall x, b: Bind | x in g.lists.tunnels && x.checked && Endpoint(x.id, b) in g.net.refs
      ensures AddrAt(g, Endpoint(x.id, b)) == AddrAt(h, Endpoint(x.id, b))
    {
      ListedTunnel(h, x);
      AddrSteadyAt(h, g, Endpoint(x.id, b));
    }
  }

  lemma SameDwindles(h: Hub, g: Hub)
    requires Inv(h) && Steady(h, g) && g.lists.tunnels == h.lists.tunnels && g.net.refs == h.net.refs
    ensures Dwindles(h, g)
  {
    hide Inv, Steady, Dwindles;
    CalmDwindles(h, g);
  }

  lemma QuietDwindles(h: Hub, g: Hub)
    requires Inv(h) && g.peers == h.peers && g.net == h.net && g.lists.tunnels == h.lists.tunnels
    ensures Dwindles(h, g)
  {
    SameSteadyAll(h, g);
    hide Inv, Steady, Dwindles;
    SameDwindles(h, g);
  }

  lemma SameSteadyAll(h: Hub, g: Hub)
    requires g.peers == h.peers && g.net == h.net
    ensures Steady(h, g)
  {
  }

  lemma CutSteady(h: Hub, g: Hub)
    requires SamePorts(h.net.ports, g.net.ports)
    requires forall q <- h.peers :: q in g.peers && g.peers[q].addr == h.peers[q].addr
    ensures Steady(h, g)
  {
  }

  lemma DelPeers(h: Hub, item: Item)
    ensures forall q <- h.peers :: q in DelItem(h, item).peers && DelItem(h, item).peers[q].addr == h.peers[q].addr
  {
    hide DropPointers, DropRecord, WithoutMapping;
  }

  lemma DelTunnels(h: Hub, item: Item)
    ensures forall x <- DelItem(h, item).lists.tunnels :: x in h.lists.tunnels
  {
    DropRecordOk(h.lists, item);
    hide TunIds, NoteIds, DropRecord, DistinctTunnels;
  }

  lemma DelDwindles(h: Hub, item: Item)
    requires Inv(h) && item in AllItems(h.queues)
    ensures Dwindles(h, DelItem(h, item))
  {
    hide Inv, DelItem, AllItems, Steady, Dwindles, SlotsOwned, SamePorts;
    DelItemOk(h, item);
    DelTunnels(h, item);
    DelPeers(h, item);
    CutSteady(h, DelItem(h, item));
    CalmDwindles(h, DelItem(h, item));
  }

  lemma InvNet(h: Hub)
    requires Inv(h)
    ensures NetOk(h.net)
  {
  }

  lemma ListedItem(h: Hub, item: Item)
    requires Inv(h)
    requires item in SlowItems(TunIds(h.lists.tunnels), NoteIds(h.lists.resolved))
          || item in QuickItems(MapIds(h.peers), NoteIds(h.lists.pending), NoteIds(h.lists.lookups))
    ensures item in AllItems(h.queues)
  {
    hide PointersOk, IdsOk, TeisOk, SeqsOk, SlowItems, QuickItems, TunIds, NoteIds, MapIds, Items;
  }

  // ---- The sender ----

  lemma KnownDwindles(h: Hub, b: Bind, a: Addr, num: PortNum)
    requires Inv(h)
    ensures Dwindles(h, KnownAddrHavePort(h, b, a, num).0)
  {
    hide Inv, AddrPort, Dwindles, Steady;
    KnownAddrHavePortOk(h, b, a, num);
    SteadySelf(h);
    var q := FindPeer(h, b, a);
    if q.Some? { AddrPortNamed(h, q.value, a, num); }
    SameDwindles(h, KnownAddrHavePort(h, b, a, num).0);
  }

  lemma PortDwindles(h: Hub, b: Bind, a: Addr, num: PortNum)
    requires Inv(h)
    ensures Dwindles(h, PortHave(h, b, a, num).0)
  {
    hide Inv, PortHave, Dwindles, Steady, Names;
    PortNamed(h, b, a, num);
    SameDwindles(h, PortHave(h, b, a, num).0);
  }

  lemma SenderDwindles(h: Hub, p: Packet)
    requires Inv(h) && (PortSought(h, p) ==> p.fromPort != 0)
    ensures Dwindles(h, Sender(h, p).0)
  {
    var b := Bind(p.side, p.plane);
    hide Inv, KnownAddrHavePort, PortHave, Dwindles, Grows, PortSought;
    QuietDwindles(h, h);
    if RefAt(h, Proxy(b)).None? && PortSought(h, p) {
      KnownAddrHavePortOk(h, b, p.fromAddr, p.fromPort);
      KnownDwindles(h, b, p.fromAddr, p.fromPort);
      var g := KnownAddrHavePort(h, b, p.fromAddr, p.fromPort).0;
      PortDwindles(g, b, p.fromAddr, p.fromPort);
      DwindlesChain(h, g, PortHave(g, b, p.fromAddr, p.fromPort).0);
    }
  }

  // ---- Restarts ----

  lemma SendSteady(h: Hub, t: nat, side: Side)
    ensures Steady(h, SendDelete(h, t, side))
  {
    hide SeqNext;
  }

  lemma ClearSteady(h: Hub, t: nat, side: Side)
    requires Inv(h) && t in TunIds(h.lists.tunnels)
    ensures Steady(h, ClearSide(h, t, side))
  {
    hide Inv, SendDelete, SetEndpoint, TunIds, Keeps, Steady, SamePorts;
    SendSteady(h, t, OtherSide(side));
    SendDeleteOk(h, t, OtherSide(side));
    var g := SendDelete(h, t, OtherSide(side));
    KeepsInv(h, g);
    EndpointSets(g, t, Bind(side, Ctrl), None);
    EndpointCleared(g, t, Bind(side, Ctrl));
    var g1 := SetEndpoint(g, t, Bind(side, Ctrl), None);
    EndpointSets(g1, t, Bind(side, User), None);
    SteadyChain(h, g, g1);
    SteadyChain(h, g1, SetEndpoint(g1, t, Bind(side, User), None));
  }

  lemma RestartSideSteady(h: Hub, t: Tunnel, side: Side, peer: nat)
    requires Inv(h) && t in h.lists.tunnels
    ensures Steady(h, RestartSide(h, t, side, peer))
  {
    ListedTunnel(h, t);
    hide Inv, ClearSide, TunIds, Steady, Unusable;
    SteadySelf(h);
    ClearSteady(h, t.id, side);
  }

  lemma {:induction false} RestartSteady(h: Hub, ts: seq<Tunnel>, peer: nat)
    requires Inv(h) && forall t <- ts :: t in h.lists.tunnels
    ensures Steady(h, RestartTunnels(h, ts, peer))
    decreases |ts|
  {
    hide Inv, RestartSide, Grows, Steady;
    if ts == [] {
      SteadySelf(h);
    } else {
      assert ts[0] in ts && forall t <- ts[1..] :: t in ts;
      RestartSideOk(h, ts[0], Sgsn, peer);
      RestartSideSteady(h, ts[0], Sgsn, peer);
      var g := RestartSide(h, ts[0], Sgsn, peer);
      RestartSideOk(g, ts[0], Ggsn, peer);
      RestartSideSteady(g, ts[0], Ggsn, peer);
      var g1 := RestartSide(g, ts[0], Ggsn, peer);
      RestartSteady(g1, ts[1..], peer);
      SteadyChain(h, g, g1);
      SteadyChain(h, g1, RestartTunnels(h, ts, peer));
    }
  }

  lemma RestartDwindles(h: Hub, peer: nat)
    requires Inv(h)
    ensures Dwindles(h, RestartTunnels(h, h.lists.tunnels, peer))
  {
    hide Inv, RestartTunnels, Steady, SamePorts, Taken, Dwindles;
    RestartSteady(h, h.lists.tunnels, peer);
    RestartClears(h, peer);
    CalmDwindles(h, RestartTunnels(h, h.lists.tunnels, peer));
  }

  lemma CountSteady(h: Hub, p: nat, count: nat)
    requires p in h.net.ports
    ensures Steady(h, SetRestart(h, p, count))
  {
  }

  lemma CountDwindles(h: Hub, p: nat, count: nat)
    requires Inv(h) && p in h.net.ports
    ensures Dwindles(h, SetRestart(h, p, count))
  {
    CountSteady(h, p, count);
    hide Inv, Steady, Dwindles;
    SameDwindles(h, SetRestart(h, p, count));
  }

  lemma CheckRestartDwindles(h: Hub, p: Packet, from: nat)
    requires Inv(h) && from in h.net.ports
    ensures Dwindles(h, CheckRestart(h, p, from))
  {
    hide Inv, RestartTunnels, SetRestart, Dwindles, Grows;
    QuietDwindles(h, h);
    if p.restart.Some? {
      var g := RestartTunnels(h, h.lists.tunnels, PeerOf(h, from));
      RestartTunnelsOk(h, h.lists.tunnels, PeerOf(h, from));
      RestartDwindles(h, PeerOf(h, from));
      CountDwindles(h, from, p.restart.value);
      if from in g.net.ports {
        CountDwindles(g, from, p.restart.value);
        DwindlesChain(h, g, SetRestart(g, from, p.restart.value));
      }
    }
  }

  lemma ArriveDwindles(h: Hub, p: Packet)
    requires Inv(h) && h.queues.clock <= p.now <= p.later
    ensures Dwindles(h, Arrive(h, p).h)
  {
    hide Inv, Sender, CheckRestart, Dwindles, Grows, PortSought;
    AdvanceOk(h, p.now);
    var h0 := Advance(h, p.now);
    QuietDwindles(h, h0);
    if p.kind != EchoReq && !(PortSought(h0, p) && p.fromPort == 0) {
      SenderOk(h0, p);
      SenderDwindles(h0, p);
      var (h1, from) := Sender(h0, p);
      DwindlesChain(h, h0, h1);
      if from.Some? {
        CheckRestartDwindles(h1, p, from.value);
        DwindlesChain(h, h1, CheckRestart(h1, p, from.value));
      }
    }
  }

  // ---- The destination ----

  lemma UnmapDwindles(h: Hub, p: Packet, from: nat)
    requires Inv(h) && from in h.net.ports && PeerOf(h, from) in h.peers
    ensures var u := Unmap(h, p, from); u.Unmapped? ==> Dwindles(h, u.h)
  {
    hide Inv, SenderTunnel, Enqueue, Dwindles, UnmapSeq, PeerOf, Destination;
    QuietDwindles(h, h);
    var t := SenderTunnel(h, p, from);
    if t.Some? { QuietDwindles(h, RefreshTunnel(h, t.value.id)); }
  }

  lemma ResolveDwindles(h: Hub, p: Packet)
    requires Inv(h)
    ensures Dwindles(h, Resolve(h, p).0)
  {
    hide Inv, Enqueue, SetRef, FindApn, Dwindles;
    QuietDwindles(h, h);
    if p.apn.Apn? {
      var g := Advance(h, p.later);
      QuietDwindles(h, AddNote(g, Lookup(g.nextId, p.apn.name), None));
    }
  }

  lemma LocateDwindles(h: Hub, p: Packet, from: nat)
    requires Inv(h) && from in h.net.ports && h.queues.clock <= p.later
    ensures Dwindles(h, Locate(h, p, from).h)
  {
    hide Inv, Resolve, Unmap, DelItem, TunIds, Grows, PeerOf, Dwindles, AllItems;
    UnmapOk(h, p, from);
    UnmapDwindles(h, p, from);
    QuietDwindles(h, h);
    var u := Unmap(h, p, from);
    if u.Unmapped? {
      GrowsClock(h, u.h);
      KeepsInv(h, u.h);
      ResolveDwindles(u.h, p);
      ResolveOk(u.h, p);
      ResolveLists(u.h, p);
      DwindlesChain(h, u.h, Resolve(u.h, p).0);
      var (g, found, failed) := if u.to.None? && p.side == Sgsn then Resolve(u.h, p) else (u.h, u.to, false);
      if !failed && found.None? && u.tun.Some? && p.kind == DeleteRsp {
        TunListed(g, u.tun.value);
        ListedItem(g, TunItem(u.tun.value));
        DelDwindles(g, TunItem(u.tun.value));
        DwindlesChain(h, g, DelItem(g, TunItem(u.tun.value)));
      }
    }
  }

  // ---- Deletes and forwarding ----

  lemma RequestDwindles(h: Hub, t: nat, teardown: int, nsapi: int)
    requires Inv(h)
    ensures Dwindles(h, DeleteRequest(h, t, teardown, nsapi))
  {
    RequestRemembered(h, t, teardown, nsapi);
    hide Inv, Enqueue, SetRef, FindPending, Dwindles, Remembered;
    QuietDwindles(h, DeleteRequest(h, t, teardown, nsapi));
  }

  lemma ResponseDwindles(h: Hub, t: nat, accepted: bool)
    requires Inv(h) && t in TunIds(h.lists.tunnels)
    ensures Dwindles(h, DeleteResponse(h, t, accepted).0)
  {
    var pd := FindPendingOf(h.lists.pending, t);
    if pd.None? {
      QuietDwindles(h, h);
    } else {
      var g := DelItem(h, PendItem(pd.value.id));
      assert PendItem(pd.value.id) in QuickItems(MapIds(h.peers), NoteIds(h.lists.pending), NoteIds(h.lists.lookups));
      assert g.lists.tunnels == h.lists.tunnels;
      TunListed(g, t);
      hide Inv, DelItem, QuickItems, SlowItems, Grows, AllItems, Dwindles;
      ListedItem(h, PendItem(pd.value.id));
      DelListedOk(h, PendItem(pd.value.id));
      DelDwindles(h, PendItem(pd.value.id));
      ListedItem(g, TunItem(t));
      DelDwindles(g, TunItem(t));
      DwindlesChain(h, g, DelItem(g, TunItem(t)));
    }
  }

  lemma DeleteDwindles(h: Hub, p: Packet, tun: Option<nat>)
    requires Inv(h) && (tun.Some? ==> tun.value in TunIds(h.lists.tunnels))
    ensures HandleDelete(h, p, tun).Handled? && Dwindles(h, HandleDelete(h, p, tun).h)
  {
    hide Inv, DeleteRequest, DeleteResponse, TunIds, Dwindles;
    QuietDwindles(h, h);
    if tun.Some? {
      if p.teardown.Some? && p.nsapi.Some? { RequestDwindles(h, tun.value, p.teardown.value, p.nsapi.value); }
      ResponseDwindles(h, tun.value, p.accepted == Some(true));
    }
  }

  /** Ports, addresses and the endpoints of tunnels stay. */
  ghost predicate EndpointsStay(h: Hub, g: Hub) {
    && SamePorts(h.net.ports, g.net.ports) && (forall q <- h.peers :: q in g.peers && g.peers[q].addr == h.peers[q].addr)
    && g.lists.tunnels == h.lists.tunnels
    && (forall s <- g.net.refs :: s.Endpoint? ==> s in h.net.refs && g.net.refs[s] == h.net.refs[s])
  }

  lemma StayDwindles(h: Hub, g: Hub)
    requires Inv(h) && EndpointsStay(h, g)
    ensures Dwindles(h, g)
  {
    hide Inv, Dwindles, Steady, SamePorts;
    CutSteady(h, g);
    CalmDwindles(h, g);
  }

  lemma MappingStays(h: Hub, q: nat, from: nat, orig: nat)
    requires NetOk(h.net) && q in h.peers && from in h.net.ports
    ensures EndpointsStay(h, AddMapping(h, q, from, orig))
  {
    hide NetOk, SetRef, Enqueue, SeqNext, SamePorts;
    SetRefOk(h.net, Origin(h.nextId), Some(from));
  }

  lemma MappingDwindles(h: Hub, q: nat, from: nat, orig: nat)
    requires Inv(h) && q in h.peers && from in h.net.ports
    ensures Dwindles(h, MappingHave(h, q, from, orig).0)
  {
    hide Inv, MapGet, AddMapping, Enqueue, Dwindles, EndpointsStay, NetOk;
    InvNet(h);
    MappingStays(h, q, from, orig);
    if MapGet(h.net.refs, h.peers[q].maps, from, orig).Some? {
      QuietDwindles(h, MappingHave(h, q, from, orig).0);
    } else {
      StayDwindles(h, AddMapping(h, q, from, orig));
    }
  }

  lemma ForwardDwindles(h: Hub, p: Packet, u: Unmapped, from: nat, to: nat)
    requires Inv(h) && u.Unmapped? && from in h.net.ports && to in h.net.ports
    ensures Dwindles(h, Forward(h, p, u, from, to).0)
  {
    PeerLive(h, to);
    hide Inv, MappingHave, Dwindles;
    QuietDwindles(h, h);
    MappingDwindles(h, PeerOf(h, to), from, u.seqNr);
  }

  // ---- Collections and lookups ----

  lemma {:induction false} TickDwindles(h: Hub, slow: bool, now: nat)
    requires Inv(h)
    ensures Dwindles(h, Tick(h, slow, now).0)
    decreases |QueueOf(h.queues, slow)|
  {
    hide Inv, DelItem, AllItems, QueueOf, Dwindles, Ordered;
    var q := QueueOf(h.queues, slow);
    QuietDwindles(h, h);
    if q != [] && q[0].at <= now {
      DelHead(h, slow);
      DelItemOk(h, q[0].item);
      DelDwindles(h, q[0].item);
      RemoveFirst(q);
      TickDwindles(DelItem(h, q[0].item), slow, now);
      DwindlesChain(h, DelItem(h, q[0].item), Tick(h, slow, now).0);
    }
  }

  lemma CollectAddr(h: Hub, s: Slot)
    requires Inv(h)
    ensures AddrAt(Collect(h), s) == AddrAt(h, s)
  {
    CollectOk(h);
    hide QueuesOk, TeisOk, IdsOk, SeqsOk, TunIds, MapIds, NoteIds;
    if s in h.net.refs {
      var p := h.net.refs[s];
      assert p in Collect(h).net.ports && HasPorts(Collect(h).net.ports, h.net.ports[p].peer);
    }
  }

  lemma CollectDwindles(h: Hub)
    requires Inv(h)
    ensures Dwindles(h, Collect(h))
  {
    hide Inv, AddrAt, CollectPeers, CollectPorts;
    forall x, b: Bind | x in h.lists.tunnels ensures AddrAt(Collect(h), Endpoint(x.id, b)) == AddrAt(h, Endpoint(x.id, b)) {
      CollectAddr(h, Endpoint(x.id, b));
    }
  }

  lemma GcDwindles(h: Hub, now: nat)
    requires Inv(h)
    ensures Dwindles(h, Gc(h, now))
  {
    hide Inv, Collect, Tick, Dwindles;
    TickExact(h, false, now);
    TickDwindles(h, false, now);
    var h1 := Tick(h, false, now).0;
    TickExact(h1, true, now);
    TickDwindles(h1, true, now);
    var h2 := Tick(h1, true, now).0;
    CollectDwindles(h2);
    DwindlesChain(h, h1, h2);
    DwindlesChain(h, h2, Collect(h2));
  }

  lemma NoteStays(h: Hub, n: Note, target: Option<nat>)
    requires NetOk(h.net) && (n.ResolvedGgsn? ==> target.Some? && target.value in h.net.ports)
    ensures EndpointsStay(h, AddNote(h, n, target))
  {
    hide NetOk, SetRef, Enqueue, SamePorts;
    PortsSelf(h.net.ports);
    if n.ResolvedGgsn? { SetRefOk(h.net, ResolvedPeer(n.id), target); }
  }

  lemma NoteDwindles(h: Hub, n: Note, target: Option<nat>)
    requires Inv(h) && (n.ResolvedGgsn? ==> target.Some? && target.value in h.net.ports)
    ensures Dwindles(h, AddNote(h, n, target))
  {
    hide Inv, NetOk, AddNote, Dwindles, EndpointsStay;
    InvNet(h);
    NoteStays(h, n, target);
    StayDwindles(h, AddNote(h, n, target));
  }

  lemma LookupDwindles(h: Hub, l: Note, addr: Option<Addr>)
    requires Inv(h) && l.Lookup? && l in h.lists.lookups
    ensures Dwindles(h, LookupDone(h, l, addr))
  {
    var done := LookupItem(l.id);
    assert l.id in NoteIds(h.lists.lookups);
    assert done in QuickItems(MapIds(h.peers), NoteIds(h.lists.pending), NoteIds(h.lists.lookups));
    hide Inv, DelItem, PortHave, AddNote, Grows, QuickItems, SlowItems, AllItems, Dwindles;
    if addr.None? {
      ListedItem(h, done);
      DelDwindles(h, done);
    } else {
      PortHaveOk(h, GGSN_CTRL, addr.value, 2123);
      PortDwindles(h, GGSN_CTRL, addr.value, 2123);
      PortHaveListed(h, GGSN_CTRL, addr.value, 2123, done);
      var (g, pp) := PortHave(h, GGSN_CTRL, addr.value, 2123);
      var n := ResolvedGgsn(g.nextId, l.apn);
      var e := AddNote(g, n, Some(pp));
      AddNoteOk(g, n, Some(pp));
      KeepsInv(g, e);
      NoteDwindles(g, n, Some(pp));
      AddedStillListed(g, n, Some(pp), done);
      ListedItem(e, done);
      DelDwindles(e, done);
      DwindlesChain(h, g, e);
      DwindlesChain(h, e, DelItem(e, done));
    }
  }

  // ---- New tunnels ----

  lemma NewCalm(h: Hub, to: nat)
    requires NetOk(h.net) && to in h.net.ports && h.nextId !in TunIds(h.lists.tunnels)
    ensures var (g, t) := NewTunnel(h, Some(to));
      && (forall x | x in g.lists.tunnels && x.checked :: x in h.lists.tunnels)
      && (forall s <- g.net.refs :: s.Endpoint? && s.tun in TunIds(h.lists.tunnels) ==> s in h.net.refs && g.net.refs[s] == h.net.refs[s])
      && Tunnel(t, TeiNext(h.teiLast), map[], false) in g.lists.tunnels
  {
    hide NetOk, SetRef, Enqueue, SamePorts, TunIds;
    SetRefOk(h.net, Endpoint(h.nextId, GGSN_CTRL), Some(to));
  }

  lemma NewDwindles(h: Hub, to: nat)
    requires Inv(h) && to in h.net.ports
    ensures Dwindles(h, NewTunnel(h, Some(to)).0)
  {
    hide Inv, NetOk, NewTunnel, Dwindles, Steady, TunIds;
    FreshTunnel(h);
    InvNet(h);
    NewCalm(h, to);
    NewSteady(h, to);
    CalmDwindles(h, NewTunnel(h, Some(to)).0);
  }

  // ---- Operations that leave tunnels alone ----

  /** Nothing changes of what is known of tunnels and proxies. */
  ghost predicate Rests(h: Hub, g: Hub) {
    && Steady(h, g) && g.lists.tunnels == h.lists.tunnels
    && (forall s: Slot | s.Proxy? || s.Endpoint? :: RefAt(g, s) == RefAt(h, s))
  }

  lemma EndpointAddrSame(h: Hub, g: Hub, s: Slot)
    requires Inv(h) && Steady(h, g) && RefAt(g, s) == RefAt(h, s)
    ensures AddrAt(g, s) == AddrAt(h, s)
  {
    if s in h.net.refs { AddrSteadyAt(h, g, s); }
  }

  lemma RestsChain(f: Hub, g: Hub, h: Hub)
    requires Rests(f, g) && Rests(g, h)
    ensures Rests(f, h)
  {
    hide Steady, RefAt;
    SteadyChain(f, g, h);
  }

  lemma SameRests(h: Hub, g: Hub)
    requires Steady(h, g) && g.lists.tunnels == h.lists.tunnels && g.net.refs == h.net.refs
    ensures Rests(h, g)
  {
    hide Steady;
  }

  lemma RestsAddr(h: Hub, g: Hub, s: Slot)
    requires Inv(h) && Rests(h, g) && s.Endpoint?
    ensures AddrAt(g, s) == AddrAt(h, s)
  {
    hide Inv, Steady, RefAt;
    EndpointAddrSame(h, g, s);
  }

  lemma ForwardRests(h: Hub, p: Packet, u: Unmapped, from: nat, to: nat)
    requires Inv(h) && u.Unmapped? && from in h.net.ports && to in h.net.ports
    ensures Rests(h, Forward(h, p, u, from, to).0)
  {
    hide Inv, MappingHave, Rests;
    PeerLive(h, to);
    SelfRests(h);
    MappingRests(h, PeerOf(h, to), from, u.seqNr);
  }

  lemma SelfRests(h: Hub)
    ensures Rests(h, h)
  {
  }

  lemma AddRests(h: Hub, q: nat, from: nat, orig: nat)
    requires NetOk(h.net) && q in h.peers && from in h.net.ports
    ensures var g := AddMapping(h, q, from, orig);
      g.lists == h.lists && forall s: Slot | s.Proxy? || s.Endpoint? :: RefAt(g, s) == RefAt(h, s)
  {
    hide NetOk, SetRef, Enqueue, WithMapping, SamePorts;
    SetRefOk(h.net, Origin(h.nextId), Some(from));
  }

  lemma MappingRests(h: Hub, q: nat, from: nat, orig: nat)
    requires Inv(h) && q in h.peers && from in h.net.ports
    ensures Rests(h, MappingHave(h, q, from, orig).0)
  {
    hide Inv, MapGet, AddMapping, Enqueue, NetOk, Steady, SamePorts, RefAt;
    InvNet(h);
    MappingStays(h, q, from, orig);
    AddRests(h, q, from, orig);
    CutSteady(h, AddMapping(h, q, from, orig));
    if MapGet(h.net.refs, h.peers[q].maps, from, orig).Some? { QuietRests(h, MappingHave(h, q, from, orig).0); }
  }

  lemma QuietRests(h: Hub, g: Hub)
    requires g.peers == h.peers && g.net == h.net && g.lists.tunnels == h.lists.tunnels
    ensures Rests(h, g)
  {
  }
}
