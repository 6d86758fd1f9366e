/** Further changes of the GTP hub's tables: finding and refreshing tunnels, pending deletes, restarted
    peers and resolved GGSNs (src/gtphub/gtphub.c:1358-1390, 1684-1765, 1824-1905, 2328-2375;
    src/gtphub/gtphub_ares.c:67-117, 156-222). */
module GtphubEvents {
  import opened GtphubState
  import opened GtphubTei
  import opened GtphubOps
  import opened GtphubSeq

  /** An operation kept the invariants and took nothing away that a packet in hand still needs. */
  ghost predicate Keeps(h: Hub, g: Hub) { Inv(g) && Grows(h, g) }

  lemma KeepsChain(f: Hub, g: Hub, h: Hub)
    requires Keeps(f, g) && Keeps(g, h)
    ensures Keeps(f, h)
  {
    hide Inv;
  }

  lemma KeepsSelf(h: Hub)
    requires Inv(h)
    ensures Keeps(h, h)
  {
    hide Inv;
  }

  // ---- gtphub_unmap_tei ----

  /** The first tunnel with this replacement TEI whose endpoint on the sender's side has the sender's
      address. */
  function FindTunnel(h: Hub, ts: seq<Tunnel>, b: Bind, tei: nat, from: Option<Addr>): (r: Option<Tunnel>)
    ensures r.Some? ==> r.value in ts && r.value.teiRepl == tei && AddrAt(h, Endpoint(r.value.id, b)).Some?
                        && AddrAt(h, Endpoint(r.value.id, b)) == from
  {
    if ts == [] then None
    else if ts[0].teiRepl == tei && AddrAt(h, Endpoint(ts[0].id, b)).Some? && AddrAt(h, Endpoint(ts[0].id, b)) == from
    then Some(ts[0])
    else FindTunnel(h, ts[1..], b, tei, from)
  }

  /** gtphub_tunnel_refresh. */
  function RefreshTunnel(h: Hub, t: nat): Hub { h.(queues := Enqueue(h.queues, true, TunItem(t))) }

  lemma RefreshTunnelOk(h: Hub, t: nat)
    requires Inv(h) && t in TunIds(h.lists.tunnels)
    ensures Keeps(h, RefreshTunnel(h, t)) && RefreshTunnel(h, t).lists == h.lists && RefreshTunnel(h, t).net == h.net
  {
    assert TunItem(t) in SlowItems(TunIds(h.lists.tunnels), NoteIds(h.lists.resolved));
    hide Inv, SlowItems;
    RefreshItem(h, true, TunItem(t));
  }

  /** Among checked tunnels at most one has a given replacement TEI, so that a packet for a checked
      tunnel finds that tunnel unless an unchecked one has the same number. */
  lemma FindsChecked(h: Hub, t: Tunnel, b: Bind, from: Option<Addr>)
    requires Inv(h) && t in h.lists.tunnels && t.checked && (forall x | x in h.lists.tunnels && !x.checked :: x.teiRepl != t.teiRepl)
    requires from.Some? && AddrAt(h, Endpoint(t.id, b)) == from
    ensures FindTunnel(h, h.lists.tunnels, b, t.teiRepl, from) == Some(t)
  {
    FindTunnelSome(h, h.lists.tunnels, b, t, from);
    hide PointersOk, QueuesOk, IdsOk, SeqsOk, FindTunnel, AddrAt;
  }

  lemma {:induction false} FindTunnelSome(h: Hub, ts: seq<Tunnel>, b: Bind, t: Tunnel, from: Option<Addr>)
    requires t in ts && from.Some? && AddrAt(h, Endpoint(t.id, b)) == from
    ensures FindTunnel(h, ts, b, t.teiRepl, from).Some?
  {
    hide AddrAt;
    if ts[0] != t {
      assert t in ts[1..];
      FindTunnelSome(h, ts[1..], b, t, from);
    }
  }

  // ---- Notes: pending deletes, lookups, resolved GGSNs ----

  /** A new pending delete, lookup or resolved GGSN at the head of its list. */
  ghost function AddNote(h: Hub, n: Note, target: Option<nat>): Hub {
    var l := match n
      case ResolvedGgsn(_, _) => h.lists.(resolved := [n] + h.lists.resolved)
      case Pending(_, _, _, _) => h.lists.(pending := [n] + h.lists.pending)
      case Lookup(_, _) => h.lists.(lookups := [n] + h.lists.lookups);
    Hub(h.peers, if n.ResolvedGgsn? then SetRef(h.net, ResolvedPeer(n.id), target) else h.net, l,
        Enqueue(h.queues, n.ResolvedGgsn?, ItemOf(n)), h.teiLast, h.nextId + 1)
  }

  function ItemOf(n: Note): Item {
    match n
    case ResolvedGgsn(id, _) => ResItem(id)
    case Pending(id, _, _, _) => PendItem(id)
    case Lookup(id, _) => LookupItem(id)
  }

  lemma ConsNote(ns: seq<Note>, n: Note)
    ensures NoteIds([n] + ns) == NoteIds(ns) + {n.id}
  {
  }

  lemma AddNoteQueues(h: Hub, n: Note, target: Option<nat>)
    requires Inv(h)
    ensures var g := AddNote(h, n, target); QueuesOk(g.queues, g.lists, MapIds(g.peers))
  {
    var g, l := AddNote(h, n, target), h.lists;
    ConsNote(l.resolved, n);
    ConsNote(l.pending, n);
    ConsNote(l.lookups, n);
    hide PointersOk, QueuesOk, IdsOk, TeisOk, SeqsOk, TunIds, NoteIds, MapIds, SlowItems, QuickItems, Enqueue, SetRef;
    MoreSlow(TunIds(l.tunnels), NoteIds(l.resolved), n.id);
    MoreQuick(MapIds(h.peers), NoteIds(l.pending), NoteIds(l.lookups), n.id);
    var s, k := SlowItems(TunIds(l.tunnels), NoteIds(l.resolved)), QuickItems(MapIds(h.peers), NoteIds(l.pending), NoteIds(l.lookups));
    assert s + {} == s && k + {} == k;
    EnqueueOk(h.queues, l, MapIds(h.peers), n.ResolvedGgsn?, ItemOf(n), g.lists, MapIds(h.peers));
  }

  lemma AddNotePointers(h: Hub, n: Note, target: Option<nat>)
    requires PointersOk(h) && (n.ResolvedGgsn? ==> target.Some? && target.value in h.net.ports)
    ensures PointersOk(AddNote(h, n, target)) && AddNote(h, n, target).net.ports.Keys == h.net.ports.Keys
  {
    if n.ResolvedGgsn? {
      ConsNote(h.lists.resolved, n);
      var s := ResolvedPeer(n.id);
      hide NetOk, PortsOk, Owned, SamePorts, SetRef, TunIds, NoteIds, MapIds, Enqueue;
      var tuns, maps, ress := TunIds(h.lists.tunnels), MapIds(h.peers), NoteIds(h.lists.resolved);
      OwnedMore(h.net.refs.Keys, tuns, maps, ress, s, true);
      PointerSet(h.net, h.peers, s, target, tuns, maps, ress + {n.id});
    }
  }

  lemma AddNoteIds(h: Hub, n: Note, target: Option<nat>)
    requires IdsOk(h) && n.id == h.nextId && AddNote(h, n, target).net.ports.Keys == h.net.ports.Keys
    ensures IdsOk(AddNote(h, n, target))
  {
    ConsNote(h.lists.resolved, n);
    ConsNote(h.lists.pending, n);
    ConsNote(h.lists.lookups, n);
    hide TunIds, NoteIds, MapIds, DistinctTunnels, SetRef, Enqueue;
  }

  lemma AddNoteOk(h: Hub, n: Note, target: Option<nat>)
    requires Inv(h) && n.id == h.nextId && (n.ResolvedGgsn? ==> target.Some? && target.value in h.net.ports)
    ensures Keeps(h, AddNote(h, n, target))
  {
    var g := AddNote(h, n, target);
    hide PointersOk, QueuesOk, IdsOk, TeisOk, SeqsOk, TunIds, NoteIds, MapIds, Enqueue, SetRef, Grows;
    AddNoteQueues(h, n, target);
    AddNotePointers(h, n, target);
    AddNoteIds(h, n, target);
    EnqueueClock(h.queues, n.ResolvedGgsn?, ItemOf(n));
    GrowsBy(h, g);
  }

  // ---- Pending deletes ----

  function FindPending(ps: seq<Note>, t: nat, teardown: int, nsapi: int): (r: Option<Note>)
    ensures r.Some? ==> r.value in ps && r.value.Pending? && r.value.tun == t
  {
    if ps == [] then None
    else if ps[0].Pending? && ps[0].tun == t && ps[0].teardown == teardown && ps[0].nsapi == nsapi then Some(ps[0])
    else FindPending(ps[1..], t, teardown, nsapi)
  }

  function FindPendingOf(ps: seq<Note>, t: nat): (r: Option<Note>)
    ensures r.Some? ==> r.value in ps && r.value.Pending? && r.value.tun == t
  {
    if ps == [] then None else if ps[0].Pending? && ps[0].tun == t then Some(ps[0]) else FindPendingOf(ps[1..], t)
  }

  /** A delete request for a tunnel is remembered until its response, or remembered anew. */
  ghost function DeleteRequest(h: Hub, t: nat, teardown: int, nsapi: int): Hub {
    var pd := FindPending(h.lists.pending, t, teardown, nsapi);
    if pd.Some? then h.(queues := Enqueue(h.queues, false, PendItem(pd.value.id)))
    else AddNote(h, Pending(h.nextId, t, teardown, nsapi), None)
  }

  lemma DeleteRequestOk(h: Hub, t: nat, teardown: int, nsapi: int)
    requires Inv(h)
    ensures Keeps(h, DeleteRequest(h, t, teardown, nsapi))
  {
    var pd := FindPending(h.lists.pending, t, teardown, nsapi);
    if pd.Some? {
      assert PendItem(pd.value.id) in QuickItems(MapIds(h.peers), NoteIds(h.lists.pending), NoteIds(h.lists.lookups));
      hide Inv, QuickItems;
      RefreshItem(h, false, PendItem(pd.value.id));
    } else {
      hide Inv, AddNote;
      AddNoteOk(h, Pending(h.nextId, t, teardown, nsapi), None);
    }
  }

  /** Deletion of a record that is in its list. */
  lemma DelListedOk(h: Hub, item: Item)
    requires Inv(h)
    requires item in SlowItems(TunIds(h.lists.tunnels), NoteIds(h.lists.resolved))
          || item in QuickItems(MapIds(h.peers), NoteIds(h.lists.pending), NoteIds(h.lists.lookups))
    ensures Keeps(h, DelItem(h, item))
  {
    assert item in AllItems(h.queues) by { hide PointersOk, IdsOk, TeisOk, SeqsOk, SlowItems, QuickItems, TunIds, NoteIds, MapIds, Items; }
    hide Inv, DelItem, AllItems;
    DelItemOk(h, item);
    DelItemGrows(h, item);
  }

  /** The response: `accepted` is whether its cause says so. Without a remembered request nothing
      happens; the second result is whether the tunnel was deleted. */
  ghost function DeleteResponse(h: Hub, t: nat, accepted: bool): (Hub, bool) {
    var pd := FindPendingOf(h.lists.pending, t);
    if pd.None? then (h, false)
    else
      var g := DelItem(h, PendItem(pd.value.id));
      if accepted then (DelItem(g, TunItem(t)), true) else (g, false)
  }

  lemma DeleteResponseOk(h: Hub, t: nat, accepted: bool)
    requires Inv(h) && t in TunIds(h.lists.tunnels)
    ensures Keeps(h, DeleteResponse(h, t, accepted).0)
  {
    var pd := FindPendingOf(h.lists.pending, t);
    if pd.None? {
      KeepsSelf(h);
    } else {
      var g := DelItem(h, PendItem(pd.value.id));
      assert PendItem(pd.value.id) in QuickItems(MapIds(h.peers), NoteIds(h.lists.pending), NoteIds(h.lists.lookups));
      assert g.lists.tunnels == h.lists.tunnels;
      assert TunItem(t) in SlowItems(TunIds(g.lists.tunnels), NoteIds(g.lists.resolved));
      hide Inv, DelItem, QuickItems, SlowItems, Grows;
      DelListedOk(h, PendItem(pd.value.id));
      DelListedOk(g, TunItem(t));
      if accepted { KeepsChain(h, g, DelItem(g, TunItem(t))); }
    }
  }

  /** A delete request for the tunnel is remembered. */
  predicate Remembered(ps: seq<Note>, t: nat) { exists n <- ps :: n.Pending? && n.tun == t }

  lemma {:induction false} FindsPendingOf(ps: seq<Note>, t: nat)
    ensures FindPendingOf(ps, t).Some? <==> Remembered(ps, t)
  {
    if ps != [] {
      assert ps == [ps[0]] + ps[1..];
      FindsPendingOf(ps[1..], t);
    }
  }

  /** After a request it is remembered, and nothing else of the lists changes. */
  lemma RequestRemembered(h: Hub, t: nat, teardown: int, nsapi: int)
    ensures var g := DeleteRequest(h, t, teardown, nsapi); Remembered(g.lists.pending, t) && g.lists == h.lists.(pending := g.lists.pending)
    ensures var g := DeleteRequest(h, t, teardown, nsapi); forall n <- h.lists.pending :: n in g.lists.pending
  {
    if FindPending(h.lists.pending, t, teardown, nsapi).None? {
      assert Pending(h.nextId, t, teardown, nsapi) in DeleteRequest(h, t, teardown, nsapi).lists.pending;
    }
  }

  /** A response deletes its tunnel, and no other, exactly when it accepts and a request is remembered; without one it
      changes nothing. */
  lemma ResponseExact(h: Hub, t: nat, accepted: bool)
    requires Inv(h) && t in TunIds(h.lists.tunnels)
    ensures var (g, gone) := DeleteResponse(h, t, accepted);
      && (gone <==> accepted && Remembered(h.lists.pending, t)) && (t in TunIds(g.lists.tunnels) <==> !gone)
      && (forall x: Tunnel | x.id != t :: x in g.lists.tunnels <==> x in h.lists.tunnels)
      && (!Remembered(h.lists.pending, t) ==> g == h)
  {
    FindsPendingOf(h.lists.pending, t);
    var pd := FindPendingOf(h.lists.pending, t);
    if pd.Some? {
      var g := DelItem(h, PendItem(pd.value.id));
      DropRecordOk(h.lists, PendItem(pd.value.id));
      DropRecordOk(g.lists, TunItem(t));
      hide Inv, TunIds, DropRecord, DropPointers, Dequeue;
    }
  }

  // ---- Restarted peers ----

  /** gtphub_send_del_pdp_ctx draws a number from the pool of the peer it sends to. */
  function SendDelete(h: Hub, t: nat, side: Side): Hub {
    var s := Endpoint(t, Bind(side, Ctrl));
    if s !in h.net.refs || h.net.refs[s] !in h.net.ports || h.net.ports[h.net.refs[s]].peer !in h.peers then h
    else
      var q := h.net.ports[h.net.refs[s]].peer;
      h.(peers := h.peers[q := Draw(h.peers[q])])
  }

  lemma DrawPeer(peers: map<nat, Peer>, q: nat)
    requires SeqsOk(peers) && q in peers
    ensures var more := peers[q := Draw(peers[q])]; SeqsOk(more) && MapIds(more) == MapIds(peers) && more.Keys == peers.Keys
  {
    var more := peers[q := Draw(peers[q])];
    DrawOk(peers[q]);
    hide PeerSeqOk, MapIdsOf, SeqNext;
    forall r | r in peers ensures MapIdsOf(more[r].maps) == MapIdsOf(peers[r].maps) { }
    forall m ensures m in MapIds(more) <==> m in MapIds(peers) {
      if m in MapIds(peers) {
        var r :| r in peers && m in MapIdsOf(peers[r].maps);
        assert m in MapIdsOf(more[r].maps);
      }
      if m in MapIds(more) {
        var r :| r in more && m in MapIdsOf(more[r].maps);
        assert m in MapIdsOf(peers[r].maps);
      }
    }
  }

  lemma SendDeleteOk(h: Hub, t: nat, side: Side)
    requires Inv(h)
    ensures Keeps(h, SendDelete(h, t, side)) && SendDelete(h, t, side).lists == h.lists && SendDelete(h, t, side).net == h.net
  {
    hide SeqsOk, PortsOk, NetOk, Owned, QueuesOk, TeisOk, TunIds, NoteIds, MapIds, IdsOk, Draw, Grows;
    KeepsSelf(h);
    var s := Endpoint(t, Bind(side, Ctrl));
    if s in h.net.refs && h.net.refs[s] in h.net.ports && h.net.ports[h.net.refs[s]].peer in h.peers {
      DrawnOk(h, h.net.ports[h.net.refs[s]].peer);
    }
  }

  lemma DrawnOk(h: Hub, q: nat)
    requires Inv(h) && q in h.peers
    ensures Keeps(h, h.(peers := h.peers[q := Draw(h.peers[q])]))
  {
    var g := h.(peers := h.peers[q := Draw(h.peers[q])]);
    DrawSame(h.peers[q]);
    hide SeqsOk, PortsOk, NetOk, Owned, QueuesOk, TeisOk, TunIds, NoteIds, MapIds, IdsOk, Draw, Grows;
    DrawPeer(h.peers, q);
    SameAddresses(h.net.ports, h.peers, g.peers);
    SameIds(h, g);
    GrowsBy(h, g);
  }

  lemma DrawSame(p: Peer)
    ensures Draw(p).bind == p.bind && Draw(p).addr == p.addr && Draw(p).maps == p.maps
  {
  }

  /** A delete request goes to the other side and this side is made unusable. */
  function ClearSide(h: Hub, t: nat, side: Side): Hub {
    SetEndpoint(SetEndpoint(SendDelete(h, t, OtherSide(side)), t, Bind(side, Ctrl), None), t, Bind(side, User), None)
  }

  /** The restarted peer does not stand at this side's control endpoint, or the other side has announced
      no TEI. */
  predicate Unusable(h: Hub, t: Tunnel, side: Side, peer: nat) {
    var s := Endpoint(t.id, Bind(side, Ctrl));
    s !in h.net.refs || TeiOf(t, Bind(OtherSide(side), Ctrl)) == 0 || h.net.refs[s] !in h.net.ports || h.net.ports[h.net.refs[s]].peer != peer
  }

  function RestartSide(h: Hub, t: Tunnel, side: Side, peer: nat): Hub {
    if Unusable(h, t, side, peer) then h else ClearSide(h, t.id, side)
  }

  function RestartTunnels(h: Hub, ts: seq<Tunnel>, peer: nat): Hub
    decreases |ts|
  {
    if ts == [] then h
    else RestartTunnels(RestartSide(RestartSide(h, ts[0], Sgsn, peer), ts[0], Ggsn, peer), ts[1..], peer)
  }

  lemma ClearSideOk(h: Hub, t: nat, side: Side)
    requires Inv(h) && t in TunIds(h.lists.tunnels)
    ensures Keeps(h, ClearSide(h, t, side)) && ClearSide(h, t, side).lists == h.lists
  {
    hide Inv, SendDelete, SetEndpoint, TunIds, SamePorts, Grows;
    var g := SendDelete(h, t, OtherSide(side));
    SendDeleteOk(h, t, OtherSide(side));
    SetEndpointOk(g, t, Bind(side, Ctrl), None);
    var g1 := SetEndpoint(g, t, Bind(side, Ctrl), None);
    SetEndpointOk(g1, t, Bind(side, User), None);
    KeepsChain(h, g, g1);
    KeepsChain(h, g1, SetEndpoint(g1, t, Bind(side, User), None));
  }

  lemma RestartSideOk(h: Hub, t: Tunnel, side: Side, peer: nat)
    requires Inv(h) && t in h.lists.tunnels
    ensures Keeps(h, RestartSide(h, t, side, peer)) && RestartSide(h, t, side, peer).lists == h.lists
  {
    assert t.id in TunIds(h.lists.tunnels);
    hide Inv, ClearSide, TunIds, Grows, Unusable;
    KeepsSelf(h);
    ClearSideOk(h, t.id, side);
  }

  lemma {:induction false} RestartTunnelsOk(h: Hub, ts: seq<Tunnel>, peer: nat)
    requires Inv(h) && forall t <- ts :: t in h.lists.tunnels
    ensures Keeps(h, RestartTunnels(h, ts, peer)) && RestartTunnels(h, ts, peer).lists == h.lists
    decreases |ts|
  {
    hide Inv, RestartSide, Grows;
    if ts == [] {
      KeepsSelf(h);
    } else {
      assert ts[0] in ts && forall t <- ts[1..] :: t in ts;
      RestartSideOk(h, ts[0], Sgsn, peer);
      var g := RestartSide(h, ts[0], Sgsn, peer);
      RestartSideOk(g, ts[0], Ggsn, peer);
      var g1 := RestartSide(g, ts[0], Ggsn, peer);
      RestartTunnelsOk(g1, ts[1..], peer);
      KeepsChain(h, g, g1);
      KeepsChain(h, g1, RestartTunnels(h, ts, peer));
    }
  }

  lemma KeepsInv(h: Hub, g: Hub)
    requires Keeps(h, g)
    ensures Inv(g)
  {
  }

  /** Both endpoints of one side of a tunnel. */
  function SideOf(t: nat, side: Side): set<Slot> { {Endpoint(t, Bind(side, Ctrl)), Endpoint(t, Bind(side, User))} }

  /** The endpoints that a tunnel loses when a peer has restarted. */
  function LostOf(h: Hub, t: Tunnel, peer: nat): set<Slot> {
    (if Unusable(h, t, Sgsn, peer) then {} else SideOf(t.id, Sgsn)) + (if Unusable(h, t, Ggsn, peer) then {} else SideOf(t.id, Ggsn))
  }

  function Lost(h: Hub, ts: seq<Tunnel>, peer: nat): set<Slot> {
    if ts == [] then {} else LostOf(h, ts[0], peer) + Lost(h, ts[1..], peer)
  }

  lemma ClearSideRefs(h: Hub, t: nat, side: Side)
    requires Inv(h) && t in TunIds(h.lists.tunnels)
    ensures var g := ClearSide(h, t, side); g.net.refs == h.net.refs - SideOf(t, side) && SamePorts(h.net.ports, g.net.ports)
  {
    hide Inv, SendDelete, SetEndpoint, TunIds, Keeps, SamePorts;
    SendDeleteOk(h, t, OtherSide(side));
    var g := SendDelete(h, t, OtherSide(side));
    KeepsInv(h, g);
    EndpointCleared(g, t, Bind(side, Ctrl));
    var g1 := SetEndpoint(g, t, Bind(side, Ctrl), None);
    EndpointCleared(g1, t, Bind(side, User));
    SamePortsChain(g.net.ports, g1.net.ports, SetEndpoint(g1, t, Bind(side, User), None).net.ports);
  }

  lemma EndpointCleared(h: Hub, t: nat, b: Bind)
    requires Inv(h) && t in TunIds(h.lists.tunnels)
    ensures var g := SetEndpoint(h, t, b, None);
      Inv(g) && g.lists == h.lists && g.net.refs == h.net.refs - {Endpoint(t, b)} && SamePorts(h.net.ports, g.net.ports)
  {
    SetEndpointOk(h, t, b, None);
    SetRefOk(h.net, Endpoint(t, b), None);
    hide Inv, SetRef, TunIds, SamePorts, Grows;
  }

  lemma RestartSideRefs(h: Hub, t: Tunnel, side: Side, peer: nat)
    requires Inv(h) && t in h.lists.tunnels
    ensures var g := RestartSide(h, t, side, peer);
      && g.net.refs == h.net.refs - (if Unusable(h, t, side, peer) then {} else SideOf(t.id, side))
      && SamePorts(h.net.ports, g.net.ports)
  {
    assert t.id in TunIds(h.lists.tunnels);
    hide Inv, ClearSide, TunIds, Unusable;
    assert h.net.refs - {} == h.net.refs;
    ClearSideRefs(h, t.id, side);
  }

  lemma UnusableSame(h: Hub, g: Hub, t: Tunnel, side: Side, peer: nat)
    requires SamePorts(h.net.ports, g.net.ports)
    requires forall s: Slot | s.Endpoint? && s.tun == t.id && s.b.side == side ::
      (s in g.net.refs <==> s in h.net.refs) && (s in h.net.refs ==> g.net.refs[s] == h.net.refs[s])
    ensures Unusable(g, t, side, peer) == Unusable(h, t, side, peer)
  {
  }

  /** Both sides of one tunnel. */
  lemma RestartTunnelRefs(h: Hub, t: Tunnel, peer: nat)
    requires Inv(h) && t in h.lists.tunnels
    ensures var g := RestartSide(RestartSide(h, t, Sgsn, peer), t, Ggsn, peer);
      g.net.refs == h.net.refs - LostOf(h, t, peer) && SamePorts(h.net.ports, g.net.ports) && g.lists == h.lists && Inv(g)
  {
    hide Inv, RestartSide, Unusable, SamePorts;
    RestartSideOk(h, t, Sgsn, peer);
    RestartSideRefs(h, t, Sgsn, peer);
    var g := RestartSide(h, t, Sgsn, peer);
    KeepsInv(h, g);
    RestartSideOk(g, t, Ggsn, peer);
    RestartSideRefs(g, t, Ggsn, peer);
    UnusableSame(h, g, t, Ggsn, peer);
    KeepsInv(g, RestartSide(g, t, Ggsn, peer));
    SamePortsChain(h.net.ports, g.net.ports, RestartSide(g, t, Ggsn, peer).net.ports);
  }

  lemma {:induction false} LostSame(h: Hub, g: Hub, x: Tunnel, ts: seq<Tunnel>, peer: nat)
    requires SamePorts(h.net.ports, g.net.ports) && g.net.refs == h.net.refs - LostOf(h, x, peer) && forall t <- ts :: t.id != x.id
    ensures Lost(g, ts, peer) == Lost(h, ts, peer)
  {
    hide Unusable;
    if ts != [] {
      assert ts[0] in ts && forall t <- ts[1..] :: t in ts;
      UnusableSame(h, g, ts[0], Sgsn, peer);
      UnusableSame(h, g, ts[0], Ggsn, peer);
      LostSame(h, g, x, ts[1..], peer);
    }
  }

  lemma {:induction false} RestartRefs(h: Hub, ts: seq<Tunnel>, peer: nat)
    requires Inv(h) && DistinctTunnels(ts) && forall t <- ts :: t in h.lists.tunnels
    ensures var g := RestartTunnels(h, ts, peer); g.net.refs == h.net.refs - Lost(h, ts, peer) && SamePorts(h.net.ports, g.net.ports)
    decreases |ts|
  {
    hide Inv, RestartSide, SamePorts, DistinctTunnels, LostOf;
    if ts == [] {
      assert h.net.refs - {} == h.net.refs;
      PortsSelf(h.net.ports);
    } else {
      DistinctHead(ts);
      assert ts[0] in ts && forall t <- ts[1..] :: t in ts;
      RestartTunnelRefs(h, ts[0], peer);
      var g := RestartSide(RestartSide(h, ts[0], Sgsn, peer), ts[0], Ggsn, peer);
      LostSame(h, g, ts[0], ts[1..], peer);
      RestartRefs(g, ts[1..], peer);
      SamePortsChain(h.net.ports, g.net.ports, RestartTunnels(g, ts[1..], peer).net.ports);
    }
  }

  lemma PortsSelf(ports: map<nat, Port>)
    ensures SamePorts(ports, ports)
  {
  }

  lemma {:induction false} LostMembers(h: Hub, ts: seq<Tunnel>, peer: nat, s: Slot)
    ensures s in Lost(h, ts, peer) <==> s.Endpoint? && exists t <- ts :: t.id == s.tun && !Unusable(h, t, s.b.side, peer)
  {
    hide Unusable;
    if ts != [] {
      assert ts == [ts[0]] + ts[1..];
      LostMembers(h, ts[1..], peer, s);
      if s.Endpoint? { FourBinds(s.b); }
    }
  }

  /** An endpoint on a side of a tunnel where the peer stands at the control endpoint, the other side having announced a
      control TEI. */
  predicate Taken(h: Hub, s: Slot, peer: nat) {
    s.Endpoint? && exists t <- h.lists.tunnels :: t.id == s.tun && !Unusable(h, t, s.b.side, peer)
  }

  /** When a peer has restarted, a pointer is gone exactly if it was an endpoint, of either plane, on a side of a tunnel
      where the peer stood at the control endpoint and the other side had announced a control TEI. All other pointers, and
      all ports and records, stay. */
  lemma RestartClears(h: Hub, peer: nat)
    requires Inv(h)
    ensures var g := RestartTunnels(h, h.lists.tunnels, peer);
      && (forall s :: s in g.net.refs <==> s in h.net.refs && !Taken(h, s, peer))
      && (forall s <- g.net.refs :: g.net.refs[s] == h.net.refs[s])
      && SamePorts(h.net.ports, g.net.ports) && g.lists == h.lists
  {
    var g := RestartTunnels(h, h.lists.tunnels, peer);
    TunnelsDistinct(h);
    RestartTunnelsOk(h, h.lists.tunnels, peer);
    hide Inv, RestartTunnels, Unusable, SamePorts, DistinctTunnels, Keeps;
    RestartRefs(h, h.lists.tunnels, peer);
    forall s ensures s in g.net.refs <==> s in h.net.refs && !Taken(h, s, peer) {
      LostMembers(h, h.lists.tunnels, peer, s);
    }
  }
}
