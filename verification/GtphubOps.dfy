/** The operations that fill the tables of the GTP hub: peers and ports, tunnels, sequence number
    mappings, pending deletes, restarts and resolved GGSNs
    (src/gtphub/gtphub.c:1045-1054, 1170-1248, 1358-1390, 1494-1603, 1689-1765, 1857-1905, 2342-2375, 2434-2450, 2582-2680). */
module GtphubOps {
  import opened GtphubState
  import opened GtphubTei

  /** What an operation keeps besides the invariants: no port or peer goes away and time stands still. */
  ghost predicate Grows(h: Hub, g: Hub) {
    && h.net.ports.Keys <= g.net.ports.Keys && h.peers.Keys <= g.peers.Keys
    && g.queues.clock == h.queues.clock && h.nextId <= g.nextId
  }

  lemma GrowsChain(f: Hub, g: Hub, h: Hub)
    requires Grows(f, g) && Grows(g, h)
    ensures Grows(f, h)
  {
  }

  lemma GrowsBy(h: Hub, g: Hub)
    requires g.net.ports.Keys == h.net.ports.Keys && g.peers.Keys == h.peers.Keys
    requires g.queues.clock == h.queues.clock && h.nextId <= g.nextId
    ensures Grows(h, g)
  {
  }

  // ---- Peers and ports ----

  ghost function FindPeer(h: Hub, b: Bind, a: Addr): (r: Option<nat>)
    ensures r.Some? ==> r.value in h.peers && h.peers[r.value].bind == b && h.peers[r.value].addr == Some(a)
    ensures r.None? ==> forall q <- h.peers :: !(h.peers[q].bind == b && h.peers[q].addr == Some(a))
  {
    if q :| q in h.peers && h.peers[q].bind == b && h.peers[q].addr == Some(a) then Some(q) else None
  }

  ghost function FindPort(h: Hub, q: nat, num: PortNum): (r: Option<nat>)
    ensures r.Some? ==> r.value in h.net.ports && h.net.ports[r.value].peer == q && h.net.ports[r.value].num == num
    ensures r.None? ==> forall p <- h.net.ports :: !(h.net.ports[p].peer == q && h.net.ports[p].num == num)
  {
    if p :| p in h.net.ports && h.net.ports[p].peer == q && h.net.ports[p].num == num then Some(p) else None
  }

  /** gtphub_addr_have. */
  ghost function AddrHave(h: Hub, b: Bind, a: Addr): (Hub, nat) {
    var q := FindPeer(h, b, a);
    if q.Some? then (h, q.value)
    else (h.(peers := h.peers[h.nextId := Peer(b, Some(a), SEQ_START, 0, [])], nextId := h.nextId + 1), h.nextId)
  }

  /** gtphub_addr_find_port and gtphub_addr_add_port, which gives a port for any address. */
  ghost function AddrPort(h: Hub, q: nat, num: PortNum): (Hub, nat) {
    var p := FindPort(h, q, num);
    if p.Some? then (h, p.value)
    else (h.(net := h.net.(ports := h.net.ports[h.nextId := Port(q, num, 0, -1)]), nextId := h.nextId + 1), h.nextId)
  }

  /** gtphub_port_have. */
  ghost function PortHave(h: Hub, b: Bind, a: Addr, num: PortNum): (Hub, nat) {
    var (g, q) := AddrHave(h, b, a);
    AddrPort(g, q, num)
  }

  /** gtphub_known_addr_have_port. */
  ghost function KnownAddrHavePort(h: Hub, b: Bind, a: Addr, num: PortNum): (Hub, Option<nat>) {
    var q := FindPeer(h, b, a);
    if q.None? then (h, None)
    else
      var (g, p) := AddrPort(h, q.value, num);
      (g, Some(p))
  }

  lemma NewPeerSeqs(peers: map<nat, Peer>, q: nat, b: Bind, a: Addr)
    requires SeqsOk(peers) && q !in peers
    ensures var more := peers[q := Peer(b, Some(a), SEQ_START, 0, [])]; SeqsOk(more) && MapIds(more) == MapIds(peers)
  {
    var more := peers[q := Peer(b, Some(a), SEQ_START, 0, [])];
    assert MapIdsOf([]) == {};
    forall r | r in more ensures PeerSeqOk(more[r]) { }
    hide PeerSeqOk;
    forall m ensures m in MapIds(more) <==> m in MapIds(peers) {
      if m in MapIds(peers) {
        var r :| r in peers && m in MapIdsOf(peers[r].maps);
        assert m in MapIdsOf(more[r].maps);
      }
    }
  }

  lemma NewPeerPorts(h: Hub, b: Bind, a: Addr)
    requires Inv(h) && FindPeer(h, b, a).None?
    ensures h.nextId !in h.peers && PortsOk(h.net.ports, h.peers[h.nextId := Peer(b, Some(a), SEQ_START, 0, [])])
  {
    hide NetOk, Owned, QueuesOk, TeisOk, SeqsOk, TunIds, MapIds, NoteIds;
  }

  lemma NextIdGrows(h: Hub, g: Hub)
    requires IdsOk(h) && g.lists == h.lists && MapIds(g.peers) == MapIds(h.peers) && g.nextId == h.nextId + 1
    requires g.peers.Keys <= h.peers.Keys + {h.nextId} && g.net.ports.Keys <= h.net.ports.Keys + {h.nextId}
    ensures IdsOk(g)
  {
    hide TunIds, MapIds, NoteIds, DistinctTunnels;
  }

  lemma AddrHaveOk(h: Hub, b: Bind, a: Addr)
    requires Inv(h)
    ensures var (g, q) := AddrHave(h, b, a);
      && Inv(g) && Grows(h, g) && q in g.peers && g.peers[q].bind == b && g.peers[q].addr == Some(a)
      && g.net == h.net && g.lists == h.lists
  {
    if FindPeer(h, b, a).None? {
      var g := AddrHave(h, b, a).0;
      NewPeerPorts(h, b, a);
      NewPeerSeqs(h.peers, h.nextId, b, a);
      hide NetOk, PortsOk, Owned, QueuesOk, IdsOk, TeisOk, SeqsOk, TunIds, MapIds, NoteIds;
      NextIdGrows(h, g);
    }
  }

  lemma NewPortNet(n: Net, p: nat, q: nat, num: PortNum)
    requires NetOk(n) && p !in n.ports
    ensures NetOk(n.(ports := n.ports[p := Port(q, num, 0, -1)]))
  {
    assert SlotsOf(n.refs, p) == {};
  }

  lemma AddrPortOk(h: Hub, q: nat, num: PortNum)
    requires Inv(h) && q in h.peers && h.peers[q].addr.Some?
    ensures var (g, p) := AddrPort(h, q, num);
      && Inv(g) && Grows(h, g) && p in g.net.ports && g.net.ports[p].peer == q
      && g.peers == h.peers && g.lists == h.lists && g.net.refs == h.net.refs
  {
    if FindPort(h, q, num).None? {
      var g := AddrPort(h, q, num).0;
      FreshPort(h);
      NewPortNet(h.net, h.nextId, q, num);
      NewPortPorts(h, q, num);
      hide NetOk, PortsOk, Owned, QueuesOk, IdsOk, TeisOk, SeqsOk, TunIds, MapIds, NoteIds;
      NextIdGrows(h, g);
    }
  }

  lemma NewPortPorts(h: Hub, q: nat, num: PortNum)
    requires PortsOk(h.net.ports, h.peers) && q in h.peers && h.peers[q].addr.Some? && FindPort(h, q, num).None?
    requires h.nextId !in h.net.ports
    ensures PortsOk(h.net.ports[h.nextId := Port(q, num, 0, -1)], h.peers)
  {
  }

  lemma FreshPort(h: Hub)
    requires Inv(h)
    ensures h.nextId !in h.net.ports
  {
  }

  lemma PortHaveOk(h: Hub, b: Bind, a: Addr, num: PortNum)
    requires Inv(h)
    ensures var (g, p) := PortHave(h, b, a, num);
      Inv(g) && Grows(h, g) && p in g.net.ports && g.lists == h.lists && g.net.refs == h.net.refs
  {
    hide Inv, AddrHave, AddrPort;
    AddrHaveOk(h, b, a);
    var (g, q) := AddrHave(h, b, a);
    AddrPortOk(g, q, num);
  }

  lemma KnownAddrHavePortOk(h: Hub, b: Bind, a: Addr, num: PortNum)
    requires Inv(h)
    ensures var (g, p) := KnownAddrHavePort(h, b, a, num);
      Inv(g) && Grows(h, g) && (p.Some? ==> p.value in g.net.ports) && g.lists == h.lists && g.net.refs == h.net.refs
  {
    hide Inv, AddrPort;
    var q := FindPeer(h, b, a);
    if q.Some? { AddrPortOk(h, q.value, num); }
  }

  // ---- Adding to the queues ----

  function Enqueue(q: Queues, slow: bool, item: Item): Queues {
    if slow then q.(slow := ExpiryAdd(q.slow, item, q.clock + SLOW), failed := q.failed || !MayAdd(q.slow, q.clock + SLOW))
    else q.(quick := ExpiryAdd(q.quick, item, q.clock + QUICK), failed := q.failed || !MayAdd(q.quick, q.clock + QUICK))
  }

  /** Queueing a record's item once the record is in its list. */
  lemma EnqueueOk(q: Queues, l: Lists, maps: set<nat>, slow: bool, item: Item, l2: Lists, maps2: set<nat>)
    requires QueuesOk(q, l, maps)
    requires SlowItems(TunIds(l2.tunnels), NoteIds(l2.resolved)) ==
      SlowItems(TunIds(l.tunnels), NoteIds(l.resolved)) + if slow then {item} else {}
    requires QuickItems(maps2, NoteIds(l2.pending), NoteIds(l2.lookups)) ==
      QuickItems(maps, NoteIds(l.pending), NoteIds(l.lookups)) + if slow then {} else {item}
    ensures QueuesOk(Enqueue(q, slow, item), l2, maps2)
  {
    var s, k := SlowItems(TunIds(l.tunnels), NoteIds(l.resolved)), QuickItems(maps, NoteIds(l.pending), NoteIds(l.lookups));
    hide QueueOk, ExpiryAdd, SlowItems, QuickItems, TunIds, NoteIds, MayAdd;
    assert s + {} == s && k + {} == k;
    if slow { AddOk(q.slow, item, q.clock + SLOW, s, q.clock + SLOW); }
    else { AddOk(q.quick, item, q.clock + QUICK, k, q.clock + QUICK); }
  }

  /** Queueing an item again that is queued already. */
  lemma RefreshOk(q: Queues, l: Lists, maps: set<nat>, slow: bool, item: Item)
    requires QueuesOk(q, l, maps)
    requires if slow then item in SlowItems(TunIds(l.tunnels), NoteIds(l.resolved))
             else item in QuickItems(maps, NoteIds(l.pending), NoteIds(l.lookups))
    ensures QueuesOk(Enqueue(q, slow, item), l, maps)
  {
    var s, k := SlowItems(TunIds(l.tunnels), NoteIds(l.resolved)), QuickItems(maps, NoteIds(l.pending), NoteIds(l.lookups));
    assert s + {item} == s || !slow;
    assert k + {item} == k || slow;
    assert s + {} == s && k + {} == k;
    hide SlowItems, QuickItems, TunIds, NoteIds, QueuesOk;
    EnqueueOk(q, l, maps, slow, item, l, maps);
  }

  // ---- Tunnels ----

  function TeiNext(last: nat): nat { if last >= TEI_MAX then 1 else last + 1 }

  /** A new tunnel for a Create PDP Context Request, its GGSN control endpoint set. */
  ghost function NewTunnel(h: Hub, toCtrl: Option<nat>): (Hub, nat) {
    var t, tei := h.nextId, TeiNext(h.teiLast);
    var g := h.(nextId := t + 1, teiLast := tei, lists := h.lists.(tunnels := [Tunnel(t, tei, map[], false)] + h.lists.tunnels),
                queues := Enqueue(h.queues, true, TunItem(t)), net := SetRef(h.net, Endpoint(t, GGSN_CTRL), toCtrl));
    (g, t)
  }

  lemma ConsTunnel(ts: seq<Tunnel>, x: Tunnel)
    requires x.id !in TunIds(ts)
    ensures TunIds([x] + ts) == TunIds(ts) + {x.id} && (DistinctTunnels(ts) ==> DistinctTunnels([x] + ts))
  {
    assert ([x] + ts)[1..] == ts;
  }

  lemma NewTunnelNames(h: Hub)
    requires IdsOk(h)
    ensures h.nextId !in TunIds(h.lists.tunnels) && h.nextId !in MapIds(h.peers) && DistinctTunnels(h.lists.tunnels)
  {
  }

  lemma MoreSlow(tuns: set<nat>, ress: set<nat>, t: nat)
    ensures SlowItems(tuns + {t}, ress) == SlowItems(tuns, ress) + {TunItem(t)}
    ensures SlowItems(tuns, ress + {t}) == SlowItems(tuns, ress) + {ResItem(t)}
  {
  }

  lemma MoreQuick(maps: set<nat>, pends: set<nat>, looks: set<nat>, x: nat)
    ensures QuickItems(maps + {x}, pends, looks) == QuickItems(maps, pends, looks) + {MapItem(x)}
    ensures QuickItems(maps, pends + {x}, looks) == QuickItems(maps, pends, looks) + {PendItem(x)}
    ensures QuickItems(maps, pends, looks + {x}) == QuickItems(maps, pends, looks) + {LookupItem(x)}
  {
  }

  lemma OwnedMore(slots: set<Slot>, tuns: set<nat>, maps: set<nat>, ress: set<nat>, s: Slot, add: bool)
    requires Owned(slots, tuns, maps, ress)
    ensures match s
      case Endpoint(t, _) => Owned(if add then slots + {s} else slots - {s}, tuns + {t}, maps, ress)
      case Origin(m) => add ==> Owned(slots + {s}, tuns, maps + {m}, ress)
      case ResolvedPeer(r) => add ==> Owned(slots + {s}, tuns, maps, ress + {r})
      case Proxy(_) => Owned(if add then slots + {s} else slots - {s}, tuns, maps, ress)
  {
  }

  /** Setting one pointer. */
  lemma PointerSet(n: Net, peers: map<nat, Peer>, s: Slot, target: Option<nat>, tuns: set<nat>, maps: set<nat>, ress: set<nat>)
    requires NetOk(n) && PortsOk(n.ports, peers) && (target.Some? ==> target.value in n.ports)
    requires Owned(if target.Some? then n.refs.Keys + {s} else n.refs.Keys - {s}, tuns, maps, ress)
    ensures var g := SetRef(n, s, target);
      && NetOk(g) && PortsOk(g.ports, peers) && Owned(g.refs.Keys, tuns, maps, ress) && SamePorts(n.ports, g.ports)
      && g.ports.Keys == n.ports.Keys
  {
    hide NetOk, PortsOk, Owned, SamePorts, SetRef;
    SetRefOk(n, s, target);
    var g := SetRef(n, s, target);
    PortsKept(n.ports, g.ports, peers);
    KeysKept(n.ports, g.ports);
    assert g.refs.Keys == if target.Some? then n.refs.Keys + {s} else n.refs.Keys - {s};
  }

  lemma TeisCons(ts: seq<Tunnel>, last: nat, x: Tunnel, next: nat)
    requires TeisOk(ts, last) && 1 <= next <= TEI_MAX && 1 <= x.teiRepl <= TEI_MAX && !x.checked
    ensures TeisOk([x] + ts, next)
  {
  }

  lemma NewTunnelQueues(h: Hub, toCtrl: Option<nat>)
    requires Inv(h)
    ensures var g := NewTunnel(h, toCtrl).0; QueuesOk(g.queues, g.lists, MapIds(g.peers))
  {
    var (g, t) := NewTunnel(h, toCtrl);
    var l := h.lists;
    NewTunnelNames(h);
    ConsTunnel(l.tunnels, g.lists.tunnels[0]);
    assert g.lists.tunnels == [g.lists.tunnels[0]] + l.tunnels;
    hide PointersOk, IdsOk, TeisOk, SeqsOk, QueuesOk, Enqueue, SetRef, SlowItems, QuickItems, TunIds, NoteIds, MapIds, DistinctTunnels;
    MoreSlow(TunIds(l.tunnels), NoteIds(l.resolved), t);
    var k := QuickItems(MapIds(h.peers), NoteIds(l.pending), NoteIds(l.lookups));
    assert k + {} == k;
    EnqueueOk(h.queues, l, MapIds(h.peers), true, TunItem(t), g.lists, MapIds(h.peers));
  }

  lemma NewTunnelPointers(h: Hub, toCtrl: Option<nat>)
    requires Inv(h) && (toCtrl.Some? ==> toCtrl.value in h.net.ports)
    ensures var g := NewTunnel(h, toCtrl).0; PointersOk(g) && SamePorts(h.net.ports, g.net.ports)
  {
    var (g, t) := NewTunnel(h, toCtrl);
    var s := Endpoint(t, GGSN_CTRL);
    NewTunnelNames(h);
    ConsTunnel(h.lists.tunnels, g.lists.tunnels[0]);
    hide NetOk, PortsOk, Owned, SamePorts, SetRef, QueuesOk, IdsOk, TeisOk, SeqsOk, TunIds, NoteIds, MapIds, Enqueue, DistinctTunnels;
    OwnedMore(h.net.refs.Keys, TunIds(h.lists.tunnels), MapIds(h.peers), NoteIds(h.lists.resolved), s, toCtrl.Some?);
    PointerSet(h.net, h.peers, s, toCtrl, TunIds(g.lists.tunnels), MapIds(h.peers), NoteIds(h.lists.resolved));
  }

  lemma NewTunnelIds(h: Hub, g: Hub, x: Tunnel)
    requires IdsOk(h) && x.id == h.nextId && g.nextId == h.nextId + 1 && g.lists == h.lists.(tunnels := [x] + h.lists.tunnels)
    requires g.peers == h.peers && g.net.ports.Keys == h.net.ports.Keys
    ensures IdsOk(g) && x.id in TunIds(g.lists.tunnels)
  {
    NewTunnelNames(h);
    ConsTunnel(h.lists.tunnels, x);
    hide TunIds, NoteIds, MapIds, DistinctTunnels;
  }

  lemma NewTunnelOk(h: Hub, toCtrl: Option<nat>)
    requires Inv(h) && (toCtrl.Some? ==> toCtrl.value in h.net.ports)
    ensures var (g, t) := NewTunnel(h, toCtrl); Inv(g) && Grows(h, g) && t in TunIds(g.lists.tunnels)
  {
    var (g, t) := NewTunnel(h, toCtrl);
    var x := g.lists.tunnels[0];
    assert g.lists.tunnels == [x] + h.lists.tunnels;
    NewTunnelQueues(h, toCtrl);
    NewTunnelPointers(h, toCtrl);
    hide PointersOk, IdsOk, SamePorts, SetRef, QueuesOk, TeisOk, SeqsOk, TunIds, NoteIds, MapIds, Enqueue, DistinctTunnels;
    TeiInRange(h);
    TeisCons(h.lists.tunnels, h.teiLast, x, g.teiLast);
    KeysKept(h.net.ports, g.net.ports);
    NewTunnelIds(h, g, x);
    EnqueueClock(h.queues, true, TunItem(t));
    hide Grows;
    GrowsBy(h, g);
  }

  lemma TeiInRange(h: Hub)
    requires Inv(h)
    ensures 1 <= TeiNext(h.teiLast) <= TEI_MAX
  {
  }

  lemma EnqueueClock(q: Queues, slow: bool, item: Item)
    ensures Enqueue(q, slow, item).clock == q.clock
  {
  }

  /** gtphub_tunnel_endpoint_set_peer. */
  function SetEndpoint(h: Hub, t: nat, b: Bind, target: Option<nat>): Hub {
    h.(net := SetRef(h.net, Endpoint(t, b), target))
  }

  lemma SetEndpointOk(h: Hub, t: nat, b: Bind, target: Option<nat>)
    requires Inv(h) && t in TunIds(h.lists.tunnels) && (target.Some? ==> target.value in h.net.ports)
    ensures Inv(SetEndpoint(h, t, b, target)) && Grows(h, SetEndpoint(h, t, b, target))
    ensures SamePorts(h.net.ports, SetEndpoint(h, t, b, target).net.ports) && SetEndpoint(h, t, b, target).lists == h.lists
  {
    var s, g := Endpoint(t, b), SetEndpoint(h, t, b, target);
    var tuns := TunIds(h.lists.tunnels);
    assert tuns + {t} == tuns;
    hide NetOk, PortsOk, Owned, SamePorts, SetRef, QueuesOk, TeisOk, SeqsOk, TunIds, NoteIds, MapIds, DistinctTunnels;
    OwnedMore(h.net.refs.Keys, tuns, MapIds(h.peers), NoteIds(h.lists.resolved), s, target.Some?);
    PointerSet(h.net, h.peers, s, target, tuns, MapIds(h.peers), NoteIds(h.lists.resolved));
    SameIds(h, g);
  }

  lemma SameIds(h: Hub, g: Hub)
    requires IdsOk(h) && g.lists == h.lists && MapIds(g.peers) == MapIds(h.peers) && g.nextId >= h.nextId
    requires g.net.ports.Keys <= h.net.ports.Keys && g.peers.Keys <= h.peers.Keys
    ensures IdsOk(g)
  {
    hide TunIds, NoteIds, MapIds, DistinctTunnels;
  }

  ghost function TunnelOf(h: Hub, t: nat): (x: Tunnel)
    requires t in TunIds(h.lists.tunnels)
    ensures x in h.lists.tunnels && x.id == t
  {
    var x :| x in h.lists.tunnels && x.id == t;
    x
  }

  /** Outcome of the part of a create message for one plane; the program stops when no replacement TEI
      is left. */
  datatype PlaneResult = PlaneDone(h: Hub) | PlaneError(h: Hub) | PlaneAbort

  /** The TEI of an endpoint is set and the table checked for tunnels the peer has reused it from. */
  ghost function Announce(h: Hub, x: Tunnel, b: Bind, tei: nat): PlaneResult {
    var y := x.(teiOrig := x.teiOrig[b := tei]);
    match CheckReused(PutTunnel(h, y), y)
    case None => PlaneAbort
    case Some(checked) => PlaneDone(checked)
  }

  /** One plane of a create message (src/gtphub/gtphub.c:1576-1613): the endpoint gets its peer, and
      if the message has a TEI, the TEI, and the table is checked. */
  ghost function PlaneIe(h: Hub, t: nat, b: Bind, peer: nat, tei: nat): PlaneResult
    requires t in TunIds(h.lists.tunnels)
  {
    var g := SetEndpoint(h, t, b, Some(peer));
    var x := TunnelOf(g, t);
    if tei == 0 then if TeiOf(x, b) == 0 then PlaneError(g) else PlaneDone(g) else Announce(g, x, b, tei)
  }

  lemma TunnelRange(h: Hub, x: Tunnel)
    requires Inv(h) && x in h.lists.tunnels
    ensures 1 <= x.teiRepl <= TEI_MAX && (x.checked ==> forall y | y in h.lists.tunnels && y.id != x.id && y.checked :: y.teiRepl != x.teiRepl)
  {
    hide PointersOk, QueuesOk, IdsOk, SeqsOk;
  }

  lemma PutTunnelGrows(h: Hub, x: Tunnel)
    ensures Grows(h, PutTunnel(h, x)) && TunIds(PutTunnel(h, x).lists.tunnels) == TunIds(h.lists.tunnels)
    ensures x.id in TunIds(h.lists.tunnels) ==> x in PutTunnel(h, x).lists.tunnels
  {
    WithTunnelOk(h.lists.tunnels, x);
  }

  lemma {:induction false} DropStaleGrows(h: Hub, ts: seq<Tunnel>, n: Tunnel)
    requires Inv(h) && DistinctTunnels(ts) && forall x <- ts :: x in h.lists.tunnels
    ensures Grows(h, DropStale(h, ts, n))
    decreases |ts|
  {
    hide Inv, DelItem, SharesAny, AllItems, DistinctTunnels;
    if ts != [] {
      var x := ts[0];
      DistinctHead(ts);
      assert x in ts && forall y <- ts[1..] :: y in ts;
      if x.id != n.id && SharesAny(h, x, n) {
        TunnelQueued(h, x);
        DelItemOk(h, TunItem(x.id));
        TunnelsLeft(h, x.id);
        DelItemGrows(h, TunItem(x.id));
        DropStaleGrows(DelItem(h, TunItem(x.id)), ts[1..], n);
      } else {
        DropStaleGrows(h, ts[1..], n);
      }
    }
  }

  lemma DelItemGrows(h: Hub, item: Item)
    requires SamePorts(h.net.ports, DelItem(h, item).net.ports)
    ensures Grows(h, DelItem(h, item))
  {
    hide DropPointers, DropRecord;
    if item.MapItem? { assert CutMapping(h.peers, item.id).Keys == h.peers.Keys; }
  }

  lemma CheckReusedGrows(h: Hub, n: Tunnel)
    requires Inv(h) && n in h.lists.tunnels && CheckReused(h, n).Some?
    ensures Grows(h, CheckReused(h, n).value) && n.id in TunIds(CheckReused(h, n).value.lists.tunnels)
  {
    TunnelsDistinct(h);
    DropStaleGrows(h, h.lists.tunnels, n);
    var d := DropStale(h, h.lists.tunnels, n);
    hide Inv, DropStale, OtherTeis, PickTei, WithTunnel, SharesAny;
    CheckReusedOk(h, n);
    var repl :| OwnTei(CheckReused(h, n).value, n.(teiRepl := repl, checked := true));
    assert n.(teiRepl := repl, checked := true) in CheckReused(h, n).value.lists.tunnels;
  }

  ghost predicate PlaneKeeps(h: Hub, r: PlaneResult, t: nat) {
    r.PlaneAbort? || (Inv(r.h) && Grows(h, r.h) && t in TunIds(r.h.lists.tunnels))
  }

  lemma AnnounceOk(g: Hub, x: Tunnel, b: Bind, tei: nat)
    requires Inv(g) && x in g.lists.tunnels
    ensures PlaneKeeps(g, Announce(g, x, b, tei), x.id)
  {
    var y := x.(teiOrig := x.teiOrig[b := tei]);
    var p := PutTunnel(g, y);
    assert x.id in TunIds(g.lists.tunnels);
    TunnelRange(g, x);
    PutTunnelGrows(g, y);
    PutTunnelOk(g, y);
    hide Inv, CheckReused, PutTunnel, TunIds, Grows;
    if CheckReused(p, y).Some? {
      CheckReusedOk(p, y);
      CheckReusedGrows(p, y);
      GrowsChain(g, p, CheckReused(p, y).value);
    }
  }

  lemma PlaneIeOk(h: Hub, t: nat, b: Bind, peer: nat, tei: nat)
    requires Inv(h) && t in TunIds(h.lists.tunnels) && peer in h.net.ports
    ensures PlaneKeeps(h, PlaneIe(h, t, b, peer, tei), t)
  {
    hide Inv, Announce, TunIds, Grows, SetEndpoint, SamePorts;
    SetEndpointOk(h, t, b, Some(peer));
    var g := SetEndpoint(h, t, b, Some(peer));
    var x := TunnelOf(g, t);
    if tei != 0 {
      AnnounceOk(g, x, b, tei);
      var r := Announce(g, x, b, tei);
      if !r.PlaneAbort? { GrowsChain(h, g, r.h); }
    }
  }
}
