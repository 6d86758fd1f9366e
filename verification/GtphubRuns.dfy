/** What holds of the GTP hub's tables after every run, and where the check for reused TEIs does not reach
    (src/gtphub/gtphub.c:1295-1356, 1576-1613, 2377-2493). */
module GtphubRuns {
  import opened GtphubState
  import opened GtphubTei
  import opened GtphubOps
  import opened GtphubSeq
  import opened GtphubExpiry
  import opened GtphubPackets

  /** A hub that was initialised, given its proxies, and then lived through some events. */
  ghost predicate Reachable(h: Hub) {
    exists start: nat, proxies, es, cfg: Config ::
      Timed(es, Started(start, proxies).queues.clock) && h == Run(Started(start, proxies), es, cfg)
  }

  lemma {:induction false} RunOk(h: Hub, es: seq<Event>, cfg: Config)
    requires Inv(h) && Timed(es, h.queues.clock)
    ensures Inv(Run(h, es, cfg))
    decreases |es|
  {
    hide Inv, Step;
    if es != [] {
      StepOk(h, es[0], cfg);
      var g := Step(h, es[0], cfg);
      TimedEarlier(es[1..], EndOf(es[0]), g.queues.clock);
      RunOk(g, es[1..], cfg);
    }
  }

  lemma ReachableOk(h: Hub)
    requires Reachable(h)
    ensures Inv(h)
  {
    hide Inv, Run, Timed, Started;
    var start: nat, proxies, es, cfg: Config :|
      Timed(es, Started(start, proxies).queues.clock) && h == Run(Started(start, proxies), es, cfg);
    RunOk(Started(start, proxies), es, cfg);
  }

  /** Reference counts: in every reachable hub each port's count is the number of pointers to it, all
      pointers lead to ports, no count was ever decreased below zero, and a collection keeps every port
      that is pointed to. */
  lemma CountsEveryRun(h: Hub)
    requires Reachable(h)
    ensures !h.net.failed && forall p <- h.net.ports :: h.net.ports[p].refCount == |SlotsOf(h.net.refs, p)|
    ensures forall s <- h.net.refs :: h.net.refs[s] in h.net.ports && h.net.refs[s] in Collect(h).net.ports
  {
    ReachableOk(h);
    CollectOk(h);
    hide PortsOk, Owned, QueuesOk, IdsOk, TeisOk, SeqsOk, Collect, Reachable;
  }

  /** Expiry: in every reachable hub nothing was ever queued out of order, and a tunnel is in the
      hub's list exactly when it is queued for slow expiry. */
  lemma QueuesEveryRun(h: Hub)
    requires Reachable(h)
    ensures !h.queues.failed && Ordered(h.queues.quick, 0) && Ordered(h.queues.slow, 0)
    ensures forall t: nat :: t in TunIds(h.lists.tunnels) <==> TunItem(t) in Items(h.queues.slow)
    ensures forall m: nat :: m in MapIds(h.peers) <==> MapItem(m) in Items(h.queues.quick)
  {
    ReachableOk(h);
    hide PointersOk, IdsOk, TeisOk, SeqsOk, Reachable, TunIds, NoteIds, MapIds, Items, Ordered;
  }

  /** TEIs: in every reachable hub the replacement TEIs of checked tunnels are not zero and pairwise
      distinct. */
  lemma TeisEveryRun(h: Hub, x: Tunnel, y: Tunnel)
    requires Reachable(h) && x in h.lists.tunnels && y in h.lists.tunnels && x.checked && y.checked && x.id != y.id
    ensures x.teiRepl != 0 && x.teiRepl != y.teiRepl
  {
    ReachableOk(h);
    hide PointersOk, QueuesOk, IdsOk, SeqsOk, Reachable;
  }

  /** Sequence numbers: in every reachable hub the live replacement numbers of a peer are distinct as
      long as its pool has not run once around since the oldest of them. */
  lemma NumbersEveryRun(h: Hub, q: nat, x: Mapping, y: Mapping)
    requires Reachable(h) && q in h.peers && WithinPool(h.peers[q]) && x in h.peers[q].maps && y in h.peers[q].maps
    ensures x.repl == y.repl ==> x == y
    ensures Origin(x.id) in h.net.refs && UnmapSeq(h, q, x.repl) == Some((x.orig, Some(h.net.refs[Origin(x.id)])))
  {
    hide Inv, Reachable, WithinPool, UnmapSeq;
    ReachableOk(h);
    if x.repl == y.repl { LiveNumbersDistinct(h, q, x, y); }
    UnmapLive(h, q, x);
  }

  /** gtphub_free empties every reachable hub that has no proxy, and only those. */
  lemma FreeEveryRun(h: Hub)
    requires Reachable(h)
    ensures var g := Free(h); g.lists == Lists([], [], [], []) && (g.peers == map[] <==> ProxySlots(h.net.refs) == {})
  {
    hide Inv, Reachable, Free, ProxySlots;
    ReachableOk(h);
    FreeExact(h);
  }

  // ---- Endpoints ----

  /** No two checked tunnels have the same peer address and TEI at the same endpoint. */
  ghost predicate EndpointsDistinct(h: Hub) {
    forall x, y | x in h.lists.tunnels && y in h.lists.tunnels && x.checked && y.checked && x.id != y.id :: !SharesAny(h, x, y)
  }

  lemma SharesSymmetric(h: Hub, x: Tunnel, y: Tunnel)
    ensures SharesAny(h, x, y) == SharesAny(h, y, x)
  {
    hide AddrAt;
  }

  lemma SetEndpointAddr(h: Hub, t: nat, b: Bind, peer: Option<nat>, s: Slot)
    requires Inv(h) && (peer.Some? ==> peer.value in h.net.ports)
    ensures AddrAt(SetEndpoint(h, t, b, peer), s) ==
      if s != Endpoint(t, b) then AddrAt(h, s) else if peer.Some? then AddrOfPort(h, peer.value) else None
  {
    hide SetRef, RefsOk, PortsOk, Owned, QueuesOk, IdsOk, TeisOk, SeqsOk;
    SetRefOk(h.net, Endpoint(t, b), peer);
    SamePeers(h.net.ports, SetRef(h.net, Endpoint(t, b), peer).ports);
  }

  lemma SamePeers(a: map<nat, Port>, b: map<nat, Port>)
    requires SamePorts(a, b)
    ensures a.Keys == b.Keys && forall p <- a :: b[p].peer == a[p].peer
  {
  }

  ghost function AddrOfPort(h: Hub, p: nat): Option<Addr>
    requires p in h.net.ports
  {
    if h.net.ports[p].peer in h.peers then h.peers[h.net.ports[p].peer].addr else None
  }

  /** Announcing a TEI makes the tunnel's endpoints its own, whatever they were before. */
  lemma AnnounceDistinct(h: Hub, x: Tunnel, b: Bind, tei: nat)
    requires Inv(h) && x in h.lists.tunnels
    requires forall y, z | y in h.lists.tunnels && z in h.lists.tunnels && y.checked && z.checked && y.id != z.id
               && y.id != x.id && z.id != x.id :: !SharesAny(h, y, z)
    ensures var r := Announce(h, x, b, tei); r.PlaneAbort? || (r.PlaneDone? && EndpointsDistinct(r.h))
  {
    var n := x.(teiOrig := x.teiOrig[b := tei]);
    var p := PutTunnel(h, n);
    hide Inv, SharesAny, WithTunnel, CheckReused;
    TunnelRange(h, x);
    PutTunnelOk(h, n);
    WithTunnelOk(h.lists.tunnels, n);
    PutTunnelGrows(h, n);
    assert x.id in TunIds(h.lists.tunnels);
    if CheckReused(p, n).Some? {
      var g := CheckReused(p, n).value;
      CheckReusedOk(p, n);
      var repl :| OwnTei(g, n.(teiRepl := repl, checked := true));
      var m := n.(teiRepl := repl, checked := true);
      forall y, z | y in g.lists.tunnels && z in g.lists.tunnels && y.checked && z.checked && y.id != z.id
        ensures !SharesAny(g, y, z)
      {
        if y.id == n.id {
          SameNames(g, m);
          SharesSymmetric(g, y, z);
        } else if z.id == n.id {
          SameNames(g, m);
        } else {
          SameShares(h, p, y, z, z);
          CheckedShares(p, n, y, z);
        }
      }
    }
  }

  /** The check does not change what third tunnels share. */
  lemma CheckedShares(h: Hub, n: Tunnel, y: Tunnel, z: Tunnel)
    requires Inv(h) && n in h.lists.tunnels && CheckReused(h, n).Some? && y.id != n.id && z.id != n.id
    requires y in CheckReused(h, n).value.lists.tunnels && z in CheckReused(h, n).value.lists.tunnels
    ensures SharesAny(CheckReused(h, n).value, y, z) == SharesAny(h, y, z)
  {
    var ts := h.lists.tunnels;
    var d := DropStale(h, ts, n);
    var g := CheckReused(h, n).value;
    var m := n.(teiRepl := PickTei(Pick(n.teiRepl, TEI_MAX, NO_RANGE_YET), OtherTeis(h, ts, n)).repl, checked := true);
    hide Inv, SharesAny, DropStale, OtherTeis, PickTei, WithTunnel;
    WithTunnelOk(d.lists.tunnels, m);
    TunnelsDistinct(h) by { InvIds(h); }
    DropStaleShares(h, ts, n, y, z);
    SameShares(d, g, y, z, z);
  }

  lemma InvIds(h: Hub)
    requires Inv(h)
    ensures IdsOk(h)
  {
  }

  lemma {:induction false} DropStaleShares(h: Hub, ts: seq<Tunnel>, n: Tunnel, y: Tunnel, z: Tunnel)
    requires Inv(h) && DistinctTunnels(ts) && (forall x <- ts :: x in h.lists.tunnels)
    requires y in DropStale(h, ts, n).lists.tunnels && z in DropStale(h, ts, n).lists.tunnels
    ensures SharesAny(DropStale(h, ts, n), y, z) == SharesAny(h, y, z)
    decreases |ts|
  {
    hide Inv, DelItem, SharesAny, AllItems, DistinctTunnels;
    if ts != [] {
      var x := ts[0];
      DistinctHead(ts);
      assert x in ts && forall w <- ts[1..] :: w in ts;
      if x.id != n.id && SharesAny(h, x, n) {
        var d := DelItem(h, TunItem(x.id));
        TunnelQueued(h, x);
        DelItemOk(h, TunItem(x.id));
        TunnelsLeft(h, x.id);
        DropStaleShares(d, ts[1..], n, y, z);
        DropStaleExact(d, ts[1..], n);
        SharesStable(h, x.id, y, z);
      } else {
        DropStaleShares(h, ts[1..], n, y, z);
      }
    }
  }

  /** A plane of a create message whose TEI is missing changes the address of an endpoint without a
      check. What the code can see of it beforehand: the TEI announced earlier, and the addresses before
      and after. */
  predicate Harmless(tei: nat, before: nat, oldAddr: Option<Addr>, newAddr: Addr) {
    tei != 0 || before == 0 || oldAddr == Some(newAddr)
  }

  ghost function PeerAddr(h: Hub, peer: nat): Option<Addr> {
    if peer in h.net.ports then AddrOfPort(h, peer) else None
  }

  lemma HarmlessKeeps(h: Hub, t: nat, b: Bind, peer: nat, newAddr: Addr, tei: nat)
    requires Inv(h) && EndpointsDistinct(h) && t in TunIds(h.lists.tunnels) && peer in h.net.ports && PeerAddr(h, peer) == Some(newAddr)
    requires Harmless(tei, TeiOf(TunnelOf(h, t), b), AddrAt(h, Endpoint(t, b)), newAddr)
    ensures var r := PlaneIe(h, t, b, peer, tei); r.PlaneAbort? || EndpointsDistinct(r.h)
  {
    hide Inv, SharesAny, SetEndpoint, Announce, TunIds, Grows, SamePorts, EndpointsDistinct, Harmless, PeerAddr;
    SetEndpointOk(h, t, b, Some(peer));
    var g := SetEndpoint(h, t, b, Some(peer));
    OthersDistinct(h, t, b, peer, newAddr, tei);
    if tei != 0 {
      AnnounceDistinct(g, TunnelOf(g, t), b, tei);
    } else {
      AllDistinct(g);
    }
  }

  lemma AllDistinct(g: Hub)
    requires forall y, z | y in g.lists.tunnels && z in g.lists.tunnels && y.checked && z.checked && y.id != z.id :: !SharesAny(g, y, z)
    ensures EndpointsDistinct(g)
  {
    hide SharesAny;
  }

  lemma OthersDistinct(h: Hub, t: nat, b: Bind, peer: nat, newAddr: Addr, tei: nat)
    requires Inv(h) && EndpointsDistinct(h) && t in TunIds(h.lists.tunnels) && peer in h.net.ports && PeerAddr(h, peer) == Some(newAddr)
    requires Harmless(tei, TeiOf(TunnelOf(h, t), b), AddrAt(h, Endpoint(t, b)), newAddr)
    ensures SetEndpoint(h, t, b, Some(peer)).lists == h.lists
    ensures var g := SetEndpoint(h, t, b, Some(peer));
      forall y, z | y in g.lists.tunnels && z in g.lists.tunnels && y.checked && z.checked && y.id != z.id
                    && (tei == 0 || (y.id != t && z.id != t)) :: !SharesAny(g, y, z)
  {
    var g := SetEndpoint(h, t, b, Some(peer));
    assert g.lists == h.lists;
    hide Inv, SharesAny, SetEndpoint, TunIds, Harmless, PeerAddr;
    forall y, z | y in g.lists.tunnels && z in g.lists.tunnels && y.checked && z.checked && y.id != z.id
                  && (tei == 0 || (y.id != t && z.id != t))
      ensures !SharesAny(g, y, z)
    {
      HarmlessPair(h, t, b, peer, newAddr, tei, y, z);
    }
  }

  lemma HarmlessPair(h: Hub, t: nat, b: Bind, peer: nat, newAddr: Addr, tei: nat, y: Tunnel, z: Tunnel)
    requires Inv(h) && t in TunIds(h.lists.tunnels) && peer in h.net.ports && PeerAddr(h, peer) == Some(newAddr)
    requires Harmless(tei, TeiOf(TunnelOf(h, t), b), AddrAt(h, Endpoint(t, b)), newAddr)
    requires y in h.lists.tunnels && z in h.lists.tunnels && y.id != z.id && (tei == 0 || (y.id != t && z.id != t))
    requires !SharesAny(h, y, z)
    ensures !SharesAny(SetEndpoint(h, t, b, Some(peer)), y, z)
  {
    var g := SetEndpoint(h, t, b, Some(peer));
    var x := TunnelOf(h, t);
    hide Inv, SetEndpoint, AddrAt, TunIds;
    if y.id == t || z.id == t { SameNames(h, x); }
    forall c: Bind ensures Shares(g, y, z, c) ==> Shares(h, y, z, c) {
      SetEndpointAddr(h, t, b, Some(peer), Endpoint(y.id, c));
      SetEndpointAddr(h, t, b, Some(peer), Endpoint(z.id, c));
    }
  }

  // a table in which the change of address does harm

  const A_PEER := 0
  const O_PEER := 1
  const A_PORT := 2
  const O_PORT := 3
  const FIRST := 4
  const SECOND := 5

  /** Two checked tunnels with the same TEI at one endpoint, the first with address `a`, the second with
      another address or none. */
  function Witness(b: Bind, tei: nat, a: Addr, o: Option<Addr>): Hub {
    var peers := map[A_PEER := Peer(b, Some(a), SEQ_START, 0, [])];
    var ports := map[A_PORT := Port(A_PEER, 1, 1, -1)];
    var refs := map[Endpoint(FIRST, b) := A_PORT];
    Hub(if o.Some? then peers[O_PEER := Peer(b, o, SEQ_START, 0, [])] else peers,
        Net(if o.Some? then ports[O_PORT := Port(O_PEER, 1, 1, -1)] else ports,
            if o.Some? then refs[Endpoint(SECOND, b) := O_PORT] else refs, false),
        Lists([Tunnel(SECOND, 2, map[b := tei], true), Tunnel(FIRST, 1, map[b := tei], true)], [], [], []),
        Queues([], [Due(TunItem(FIRST), 0), Due(TunItem(SECOND), 0)], 0, false), 2, 6)
  }

  lemma WitnessRefs(b: Bind, tei: nat, a: Addr, o: Option<Addr>)
    ensures NetOk(Witness(b, tei, a, o).net)
  {
    var n := Witness(b, tei, a, o).net;
    assert SlotsOf(n.refs, A_PORT) == {Endpoint(FIRST, b)};
    if o.Some? { assert SlotsOf(n.refs, O_PORT) == {Endpoint(SECOND, b)}; }
  }

  lemma WitnessPorts(b: Bind, tei: nat, a: Addr, o: Option<Addr>)
    requires o != Some(a)
    ensures PortsOk(Witness(b, tei, a, o).net.ports, Witness(b, tei, a, o).peers)
  {
  }

  lemma WitnessPointers(b: Bind, tei: nat, a: Addr, o: Option<Addr>)
    requires o != Some(a)
    ensures PointersOk(Witness(b, tei, a, o))
  {
    hide NetOk, PortsOk, MapIds, TunIds, DistinctTunnels, TeisOk, SeqsOk, Owned;
    WitnessRefs(b, tei, a, o);
    WitnessPorts(b, tei, a, o);
    WitnessMaps(b, tei, a, o);
    WitnessTunnels(b, tei, a, o);
    WitnessOwned(b, tei, a, o);
    assert NoteIds([]) == {};
  }

  lemma WitnessOwned(b: Bind, tei: nat, a: Addr, o: Option<Addr>)
    ensures Owned(Witness(b, tei, a, o).net.refs.Keys, {FIRST, SECOND}, {}, {})
  {
  }

  lemma WitnessMaps(b: Bind, tei: nat, a: Addr, o: Option<Addr>)
    ensures MapIds(Witness(b, tei, a, o).peers) == {} && SeqsOk(Witness(b, tei, a, o).peers)
  {
    assert MapIdsOf([]) == {};
  }

  lemma WitnessTunnels(b: Bind, tei: nat, a: Addr, o: Option<Addr>)
    ensures var ts := Witness(b, tei, a, o).lists.tunnels;
      TunIds(ts) == {FIRST, SECOND} && DistinctTunnels(ts) && TeisOk(ts, 2)
      && forall x :: x in ts <==> x == ts[0] || x == ts[1]
  {
    var ts := Witness(b, tei, a, o).lists.tunnels;
    assert ts[0] in ts && ts[1] in ts && ts[1..] == [ts[1]];
    assert TunIds(ts[1..]) == {FIRST};
    assert ts[1..][1..] == [];
  }

  lemma WitnessIds(b: Bind, tei: nat, a: Addr, o: Option<Addr>)
    ensures IdsOk(Witness(b, tei, a, o))
  {
    WitnessMaps(b, tei, a, o);
    WitnessTunnels(b, tei, a, o);
    hide MapIds, TunIds, SeqsOk, TeisOk, DistinctTunnels;
    assert NoteIds([]) == {};
  }

  lemma WitnessQueues(b: Bind, tei: nat, a: Addr, o: Option<Addr>)
    ensures QueuesOk(Witness(b, tei, a, o).queues, Witness(b, tei, a, o).lists, MapIds(Witness(b, tei, a, o).peers))
  {
    WitnessQueue();
    WitnessMaps(b, tei, a, o);
    WitnessTunnels(b, tei, a, o);
    assert NoteIds([]) == {};
    assert SlowItems({FIRST, SECOND}, {}) == {TunItem(FIRST), TunItem(SECOND)};
    assert QuickItems({}, {}, {}) == {};
    hide MapIds, TunIds, NoteIds, SeqsOk, TeisOk, DistinctTunnels, QueueOk, SlowItems, QuickItems;
  }

  lemma WitnessOk(b: Bind, tei: nat, a: Addr, o: Option<Addr>)
    requires o != Some(a)
    ensures Inv(Witness(b, tei, a, o))
  {
    hide PointersOk, QueuesOk, IdsOk, MapIds, TunIds, SeqsOk, TeisOk, DistinctTunnels;
    WitnessPointers(b, tei, a, o);
    WitnessMaps(b, tei, a, o);
    WitnessTunnels(b, tei, a, o);
    WitnessQueues(b, tei, a, o);
    WitnessIds(b, tei, a, o);
  }

  lemma WitnessQueue()
    ensures QueueOk([Due(TunItem(FIRST), 0), Due(TunItem(SECOND), 0)], {TunItem(FIRST), TunItem(SECOND)}, SLOW) && QueueOk([], {}, QUICK)
  {
    var q := [Due(TunItem(FIRST), 0), Due(TunItem(SECOND), 0)];
    assert q[0] in q && q[1] in q && q[1..] == [q[1]] && q[1..][1..] == [];
    assert Items(q[1..]) == {TunItem(SECOND)} && Items([]) == {};
    assert Items(q) == {TunItem(FIRST), TunItem(SECOND)};
  }

  lemma WitnessAddrs(b: Bind, tei: nat, a: Addr, o: Option<Addr>)
    ensures var w := Witness(b, tei, a, o);
      AddrAt(w, Endpoint(FIRST, b)) == Some(a) && AddrAt(w, Endpoint(SECOND, b)) == o && PeerAddr(w, A_PORT) == Some(a)
  {
  }

  lemma WitnessDistinct(b: Bind, tei: nat, a: Addr, o: Option<Addr>)
    requires o != Some(a)
    ensures EndpointsDistinct(Witness(b, tei, a, o))
  {
    var w := Witness(b, tei, a, o);
    WitnessTunnels(b, tei, a, o);
    WitnessAddrs(b, tei, a, o);
    hide TunIds, DistinctTunnels, TeisOk, AddrAt, PeerAddr;
    var x, y := w.lists.tunnels[1], w.lists.tunnels[0];
    forall c: Bind ensures !Shares(w, x, y, c) && !Shares(w, y, x, c) {
      assert c != b ==> TeiOf(x, c) == 0 && TeiOf(y, c) == 0;
    }
  }

  lemma SameAddrShares(g: Hub, x: Tunnel, y: Tunnel, b: Bind)
    requires TeiOf(x, b) != 0 && TeiOf(x, b) == TeiOf(y, b)
    requires AddrAt(g, Endpoint(x.id, b)).Some? && AddrAt(g, Endpoint(x.id, b)) == AddrAt(g, Endpoint(y.id, b))
    requires x in g.lists.tunnels && y in g.lists.tunnels && x.checked && y.checked && x.id != y.id
    ensures !EndpointsDistinct(g)
  {
    hide AddrAt, TeiOf;
    FourBinds(b);
    assert Shares(g, x, y, b);
    assert SharesAny(g, x, y);
  }

  lemma WitnessBreaks(b: Bind, tei: nat, a: Addr, o: Option<Addr>)
    requires o != Some(a) && tei != 0
    ensures var w := Witness(b, tei, a, o); var g := SetEndpoint(w, SECOND, b, Some(A_PORT));
      g.lists == w.lists && !EndpointsDistinct(g)
  {
    var w := Witness(b, tei, a, o);
    var x, y := w.lists.tunnels[1], w.lists.tunnels[0];
    assert x in w.lists.tunnels && y in w.lists.tunnels && TeiOf(x, b) == tei == TeiOf(y, b);
    assert A_PORT in w.net.ports && AddrOfPort(w, A_PORT) == Some(a);
    var g := SetEndpoint(w, SECOND, b, Some(A_PORT));
    assert g.lists == w.lists;
    hide Inv, AddrAt, PeerAddr, SetEndpoint, EndpointsDistinct, TeiOf, AddrOfPort;
    WitnessOk(b, tei, a, o);
    WitnessAddrs(b, tei, a, o);
    SetEndpointAddr(w, SECOND, b, Some(A_PORT), Endpoint(FIRST, b));
    SetEndpointAddr(w, SECOND, b, Some(A_PORT), Endpoint(SECOND, b));
    SameAddrShares(g, x, y, b);
  }

  /** In that table the second tunnel is given the first one's address, without a TEI: the two then
      share the endpoint, and the hub carries on. */
  lemma WitnessHarm(b: Bind, tei: nat, a: Addr, o: Option<Addr>)
    requires o != Some(a) && tei != 0
    ensures var w := Witness(b, tei, a, o);
      && Inv(w) && EndpointsDistinct(w) && SECOND in TunIds(w.lists.tunnels) && A_PORT in w.net.ports
      && TeiOf(TunnelOf(w, SECOND), b) == tei && AddrAt(w, Endpoint(SECOND, b)) == o && PeerAddr(w, A_PORT) == Some(a)
      && var r := PlaneIe(w, SECOND, b, A_PORT, 0); r.PlaneDone? && !EndpointsDistinct(r.h)
  {
    var w := Witness(b, tei, a, o);
    WitnessOk(b, tei, a, o);
    WitnessTunnels(b, tei, a, o);
    var y := w.lists.tunnels[0];
    assert y in w.lists.tunnels && TeiOf(y, b) == tei && A_PORT in w.net.ports;
    hide Inv, SetEndpoint, TunIds, DistinctTunnels, TeisOk, EndpointsDistinct, AddrAt, PeerAddr, Announce;
    WitnessAddrs(b, tei, a, o);
    WitnessDistinct(b, tei, a, o);
    WitnessBreaks(b, tei, a, o);
    SameNames(w, y);
  }

  /** One plane of a create message keeps the endpoints of checked tunnels distinct in every table with
      the given data if and only if it has a TEI, or none had been announced, or the endpoint's address
      stays. */
  lemma PlaneIeExact(b: Bind, tei: nat, before: nat, oldAddr: Option<Addr>, newAddr: Addr)
    ensures Harmless(tei, before, oldAddr, newAddr) <==>
      forall h: Hub, t: nat, peer: nat |
        && Inv(h) && EndpointsDistinct(h) && t in TunIds(h.lists.tunnels) && peer in h.net.ports
        && TeiOf(TunnelOf(h, t), b) == before && AddrAt(h, Endpoint(t, b)) == oldAddr && PeerAddr(h, peer) == Some(newAddr) ::
        var r := PlaneIe(h, t, b, peer, tei); r.PlaneAbort? || EndpointsDistinct(r.h)
  {
    if Harmless(tei, before, oldAddr, newAddr) {
      hide Inv, EndpointsDistinct, TunIds, AddrAt, PeerAddr, PlaneIe, Harmless;
      forall h: Hub, t: nat, peer: nat |
        && Inv(h) && EndpointsDistinct(h) && t in TunIds(h.lists.tunnels) && peer in h.net.ports
        && TeiOf(TunnelOf(h, t), b) == before && AddrAt(h, Endpoint(t, b)) == oldAddr && PeerAddr(h, peer) == Some(newAddr)
        ensures var r := PlaneIe(h, t, b, peer, tei); r.PlaneAbort? || EndpointsDistinct(r.h)
      {
        HarmlessKeeps(h, t, b, peer, newAddr, tei);
      }
    } else {
      hide Inv, EndpointsDistinct, TunIds, AddrAt, PeerAddr, PlaneIe;
      WitnessHarm(b, before, newAddr, oldAddr);
    }
  }
}
