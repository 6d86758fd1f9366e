/** Expiry and garbage collection of the GTP hub: expiry_tick, expiry_clear, gtphub_gc and gtphub_free
    (src/gtphub/gtphub.c:614-657, 2377-2493). */
module GtphubExpiry {
  import opened GtphubState

  function QueueOf(q: Queues, slow: bool): seq<Due> { if slow then q.slow else q.quick }

  lemma {:induction false} RemoveFirst(q: seq<Due>)
    requires q != []
    ensures |Remove(q, q[0].item)| < |q|
  {
    RemoveShorter(q[1..], q[0].item);
  }

  lemma {:induction false} RemoveShorter(q: seq<Due>, item: Item)
    ensures |Remove(q, item)| <= |q|
  {
    if q != [] { RemoveShorter(q[1..], item); }
  }

  /** expiry_tick: deletes from the head of the queue as long as the head is due; the second result
      is the number of deletions. */
  function Tick(h: Hub, slow: bool, now: nat): (Hub, nat)
    decreases |QueueOf(h.queues, slow)|
  {
    var q := QueueOf(h.queues, slow);
    if q == [] || q[0].at > now then (h, 0)
    else
      RemoveFirst(q);
      var (g, n) := Tick(DelItem(h, q[0].item), slow, now);
      (g, n + 1)
  }

  /** expiry_clear. */
  function Clear(h: Hub, slow: bool): Hub
    decreases |QueueOf(h.queues, slow)|
  {
    var q := QueueOf(h.queues, slow);
    if q == [] then h
    else
      RemoveFirst(q);
      Clear(DelItem(h, q[0].item), slow)
  }

  // ---- What a tick removes ----

  /** The entries of a queue that are not due, in their order. */
  function NotDue(q: seq<Due>, now: nat): seq<Due> {
    if q == [] then [] else (if q[0].at > now then [q[0]] else []) + NotDue(q[1..], now)
  }

  lemma {:induction false} NoneDue(q: seq<Due>, now: nat, from: nat)
    requires Ordered(q, from) && from > now
    ensures NotDue(q, now) == q
  {
    if q != [] {
      NoneDue(q[1..], now, q[0].at);
      assert q == [q[0]] + q[1..];
    }
  }

  lemma {:induction false} RemoveAbsent(q: seq<Due>, item: Item)
    requires item !in Items(q)
    ensures Remove(q, item) == q
  {
    if q != [] {
      assert q[0] in q && forall d <- q[1..] :: d in q;
      assert item !in Items(q[1..]);
      RemoveAbsent(q[1..], item);
      assert q == [q[0]] + q[1..];
    }
  }

  lemma RemoveHead(q: seq<Due>)
    requires q != [] && Ordered(q, 0)
    ensures Remove(q, q[0].item) == q[1..]
  {
    RemoveAbsent(q[1..], q[0].item);
    assert [] + q[1..] == q[1..];
  }

  /** An item is queued in one queue only. */
  lemma OneQueue(h: Hub, item: Item)
    requires Inv(h)
    ensures !(item in Items(h.queues.quick) && item in Items(h.queues.slow))
  {
    hide PointersOk, IdsOk, SeqsOk, TeisOk, MapIds, NoteIds, TunIds, Ordered, Items;
  }

  lemma DelHead(h: Hub, slow: bool)
    requires Inv(h) && QueueOf(h.queues, slow) != []
    ensures var q := QueueOf(h.queues, slow); var g := DelItem(h, q[0].item);
      && q[0].item in AllItems(h.queues)
      && QueueOf(g.queues, slow) == q[1..] && QueueOf(g.queues, !slow) == QueueOf(h.queues, !slow)
      && g.queues.clock == h.queues.clock && Ordered(q, 0)
  {
    var q := QueueOf(h.queues, slow);
    assert q[0] in q;
    OneQueue(h, q[0].item);
    QueuesOrdered(h);
    hide Inv, DropPointers, DropRecord, CutMapping, Remove, Ordered;
    RemoveHead(q);
    RemoveAbsent(QueueOf(h.queues, !slow), q[0].item);
  }

  lemma QueuesOrdered(h: Hub)
    requires Inv(h)
    ensures Ordered(h.queues.quick, 0) && Ordered(h.queues.slow, 0)
  {
    hide PointersOk, IdsOk, SeqsOk, TeisOk, MapIds, NoteIds, TunIds, Items;
  }

  /** A tick keeps the invariants, removes exactly the items that are due, and returns how many those
      were. */
  lemma {:induction false} TickExact(h: Hub, slow: bool, now: nat)
    requires Inv(h)
    ensures var (g, n) := Tick(h, slow, now); var q := QueueOf(h.queues, slow);
      && Inv(g) && g.queues.clock == h.queues.clock
      && QueueOf(g.queues, slow) == NotDue(q, now) && QueueOf(g.queues, !slow) == QueueOf(h.queues, !slow)
      && n == |q| - |NotDue(q, now)|
    decreases |QueueOf(h.queues, slow)|
  {
    hide Inv, DelItem, Ordered, AllItems, QueueOf;
    var q := QueueOf(h.queues, slow);
    if q != [] {
      DelHead(h, slow);
      if q[0].at > now {
        HeadNotDue(q, now);
      } else {
        DelItemOk(h, q[0].item);
        RemoveFirst(q);
        TickExact(DelItem(h, q[0].item), slow, now);
        assert [] + NotDue(q[1..], now) == NotDue(q[1..], now);
      }
    }
  }

  lemma HeadNotDue(q: seq<Due>, now: nat)
    requires q != [] && Ordered(q, 0) && q[0].at > now
    ensures NotDue(q, now) == q
  {
    NoneDue(q[1..], now, q[0].at);
    assert q == [q[0]] + q[1..];
  }

  lemma {:induction false} NotDueMembers(q: seq<Due>, now: nat)
    ensures forall d :: d in NotDue(q, now) <==> d in q && d.at > now
  {
    if q != [] {
      NotDueMembers(q[1..], now);
      assert q == [q[0]] + q[1..];
    }
  }

  lemma {:induction false} ClearExact(h: Hub, slow: bool)
    requires Inv(h)
    ensures var g := Clear(h, slow);
      Inv(g) && QueueOf(g.queues, slow) == [] && QueueOf(g.queues, !slow) == QueueOf(h.queues, !slow)
      && ProxySlots(g.net.refs) == ProxySlots(h.net.refs)
    decreases |QueueOf(h.queues, slow)|
  {
    hide Inv, DelItem, Ordered, AllItems, QueueOf, ProxySlots;
    var q := QueueOf(h.queues, slow);
    if q != [] {
      DelHead(h, slow);
      DelItemOk(h, q[0].item);
      ProxiesStay(h.net.refs, q[0].item);
      RemoveFirst(q);
      ClearExact(DelItem(h, q[0].item), slow);
    }
  }

  function ProxySlots(refs: map<Slot, nat>): set<Slot> { set s <- refs | s.Proxy? }

  lemma ProxiesStay(refs: map<Slot, nat>, item: Item)
    ensures ProxySlots(refs - SlotsOwned(item)) == ProxySlots(refs)
  {
  }

  // ---- Garbage collection ----

  /** A port nobody points to is deleted. */
  function CollectPorts(n: Net): Net {
    n.(ports := map p | p in n.ports && n.ports[p].refCount != 0 :: n.ports[p])
  }

  /** An address without ports is deleted, and then a peer without address and without mappings. */
  function CollectPeers(peers: map<nat, Peer>, ports: map<nat, Port>): map<nat, Peer> {
    map q | q in peers && (HasPorts(ports, q) || peers[q].maps != [])
      :: peers[q].(addr := if HasPorts(ports, q) then peers[q].addr else None)
  }

  predicate HasPorts(ports: map<nat, Port>, q: nat) { exists p <- ports :: ports[p].peer == q }

  /** gtphub_gc_bind for all four sockets. */
  function Collect(h: Hub): Hub {
    var net := CollectPorts(h.net);
    h.(net := net, peers := CollectPeers(h.peers, net.ports))
  }

  /** gtphub_gc: the tables are searched only if something expired. */
  function Gc(h: Hub, now: nat): Hub {
    var (h1, n1) := Tick(h, false, now);
    var (h2, n2) := Tick(h1, true, now);
    if n1 + n2 > 0 then Collect(h2) else h2
  }

  lemma CollectNet(n: Net)
    requires NetOk(n)
    ensures NetOk(CollectPorts(n)) && forall s <- n.refs :: n.refs[s] in CollectPorts(n).ports
  {
    forall s | s in n.refs ensures n.refs[s] in CollectPorts(n).ports {
      Referenced(n.refs, n.ports, s);
    }
  }

  lemma CollectPortsOk(ports: map<nat, Port>, peers: map<nat, Peer>, some: map<nat, Port>)
    requires PortsOk(ports, peers) && some.Keys <= ports.Keys && forall p <- some :: some[p] == ports[p]
    ensures PortsOk(some, CollectPeers(peers, some))
  {
    var kept := CollectPeers(peers, some);
    forall p | p in some ensures some[p].peer in kept && kept[some[p].peer].addr.Some? {
      assert HasPorts(some, some[p].peer);
    }
  }

  lemma CollectSeqs(peers: map<nat, Peer>, ports: map<nat, Port>)
    requires SeqsOk(peers)
    ensures SeqsOk(CollectPeers(peers, ports)) && MapIds(CollectPeers(peers, ports)) == MapIds(peers)
  {
    var kept := CollectPeers(peers, ports);
    hide HasPorts, MapIdsOf;
    forall q | q in kept ensures PeerSeqOk(kept[q]) { assert PeerSeqOk(peers[q]); }
    forall m ensures m in MapIds(kept) <==> m in MapIds(peers) {
      if m in MapIds(peers) {
        var q :| q in peers && m in MapIdsOf(peers[q].maps);
        assert peers[q].maps != [] by { MapsNotEmpty(peers[q].maps, m); }
        assert m in MapIdsOf(kept[q].maps);
      }
      if m in MapIds(kept) {
        var q :| q in kept && m in MapIdsOf(kept[q].maps);
        assert m in MapIdsOf(peers[q].maps);
      }
    }
  }

  lemma MapsNotEmpty(ms: seq<Mapping>, m: nat)
    requires m in MapIdsOf(ms)
    ensures ms != []
  {
  }

  /** Collecting keeps the invariants; in particular it never frees a port that is pointed to. */
  lemma CollectOk(h: Hub)
    requires Inv(h)
    ensures Inv(Collect(h)) && Collect(h).net.refs == h.net.refs && Collect(h).queues == h.queues
    ensures forall s <- h.net.refs :: h.net.refs[s] in Collect(h).net.ports
  {
    var g := Collect(h);
    hide QueuesOk, IdsOk, TeisOk, NetOk, PortsOk, SeqsOk, MapIds, NoteIds, TunIds, CollectPeers, Owned;
    CollectNet(h.net);
    CollectPortsOk(h.net.ports, h.peers, g.net.ports);
    CollectSeqs(h.peers, g.net.ports);
    CollectIds(h);
  }

  lemma CollectIds(h: Hub)
    requires IdsOk(h) && MapIds(Collect(h).peers) == MapIds(h.peers)
    ensures IdsOk(Collect(h))
  {
    TunnelsDistinct(h);
    hide MapIds, NoteIds, TunIds, IdsOk, HasPorts, DistinctTunnels;
    IdsWithout(h, Collect(h));
  }

  lemma GcOk(h: Hub, now: nat)
    requires Inv(h)
    ensures var g := Gc(h, now);
      && Inv(g) && g.queues.quick == NotDue(h.queues.quick, now) && g.queues.slow == NotDue(h.queues.slow, now)
      && g.queues.clock == h.queues.clock && forall s <- g.net.refs :: g.net.refs[s] in g.net.ports
  {
    hide Inv, Collect, Tick;
    TickExact(h, false, now);
    var (h1, n1) := Tick(h, false, now);
    TickExact(h1, true, now);
    var (h2, n2) := Tick(h1, true, now);
    CollectOk(h2);
    NetLive(Gc(h, now));
  }

  lemma NetLive(h: Hub)
    requires Inv(h)
    ensures forall s <- h.net.refs :: h.net.refs[s] in h.net.ports
  {
  }

  // ---- Emptying the hub ----

  /** gtphub_free, up to its assertion that no socket has a peer left. */
  function Free(h: Hub): Hub { Collect(Clear(Clear(h, false), true)) }

  lemma AllCleared(h: Hub)
    requires Inv(h) && h.queues.quick == [] && h.queues.slow == []
    ensures h.lists == Lists([], [], [], []) && h.net.refs.Keys == ProxySlots(h.net.refs) && forall q <- h.peers :: h.peers[q].maps == []
  {
    var l := h.lists;
    ClearedSets(h);
    ListHeads(l);
    hide QueuesOk, IdsOk, TeisOk, NetOk, PortsOk, SeqsOk;
    forall s | s in h.net.refs ensures s.Proxy? { }
    MapHeads(h.peers);
  }

  lemma ListHeads(l: Lists)
    ensures (l.tunnels != [] ==> l.tunnels[0].id in TunIds(l.tunnels))
    ensures (l.resolved != [] ==> l.resolved[0].id in NoteIds(l.resolved))
    ensures (l.pending != [] ==> l.pending[0].id in NoteIds(l.pending))
    ensures (l.lookups != [] ==> l.lookups[0].id in NoteIds(l.lookups))
  {
  }

  lemma MapHeads(peers: map<nat, Peer>)
    ensures forall q <- peers :: peers[q].maps != [] ==> peers[q].maps[0].id in MapIds(peers)
  {
    forall q | q in peers && peers[q].maps != [] ensures peers[q].maps[0].id in MapIds(peers) {
      assert peers[q].maps[0].id in MapIdsOf(peers[q].maps);
    }
  }

  lemma ClearedSets(h: Hub)
    requires Inv(h) && h.queues.quick == [] && h.queues.slow == []
    ensures TunIds(h.lists.tunnels) == {} && NoteIds(h.lists.resolved) == {} && NoteIds(h.lists.pending) == {}
    ensures NoteIds(h.lists.lookups) == {} && MapIds(h.peers) == {}
  {
    hide PointersOk, IdsOk, TeisOk, SeqsOk, TunIds, NoteIds, MapIds;
    var tuns, ress, maps := TunIds(h.lists.tunnels), NoteIds(h.lists.resolved), MapIds(h.peers);
    var pends, looks := NoteIds(h.lists.pending), NoteIds(h.lists.lookups);
    assert SlowItems(tuns, ress) == {} && QuickItems(maps, pends, looks) == {};
    assert forall t <- tuns :: TunItem(t) in SlowItems(tuns, ress);
    assert forall r <- ress :: ResItem(r) in SlowItems(tuns, ress);
    assert forall m <- maps :: MapItem(m) in QuickItems(maps, pends, looks);
    assert forall p <- pends :: PendItem(p) in QuickItems(maps, pends, looks);
    assert forall k <- looks :: LookupItem(k) in QuickItems(maps, pends, looks);
  }

  /** After both queues are cleared and the garbage is collected, all lists are empty; no peer is left,
      as gtphub_free asserts, exactly if there is no proxy. */
  lemma FreeExact(h: Hub)
    requires Inv(h)
    ensures var g := Free(h);
      && Inv(g) && g.lists == Lists([], [], [], [])
      && (g.peers == map[] <==> ProxySlots(h.net.refs) == {}) && (g.peers == map[] ==> g.net.ports == map[])
  {
    ClearExact(h, false);
    var h1 := Clear(h, false);
    ClearExact(h1, true);
    var h2 := Clear(h1, true);
    AllCleared(h2);
    CollectOk(h2);
    NothingLeft(h2);
    hide Inv, Clear, Collect, ProxySlots;
  }

  lemma NothingLeft(h: Hub)
    requires Inv(h) && h.net.refs.Keys == ProxySlots(h.net.refs) && (forall q <- h.peers :: h.peers[q].maps == [])
    ensures var g := Collect(h);
      (g.peers == map[] <==> ProxySlots(h.net.refs) == {}) && (g.peers == map[] ==> g.net.ports == map[])
  {
    var g := Collect(h);
    CollectOk(h);
    hide QueuesOk, IdsOk, TeisOk, SeqsOk, TunIds, NoteIds, MapIds, Owned;
    if ProxySlots(h.net.refs) == {} {
      forall p | p in h.net.ports ensures h.net.ports[p].refCount == 0 {
        assert SlotsOf(h.net.refs, p) == {};
      }
      assert g.net.ports == map[];
    } else {
      var s :| s in h.net.refs;
      var p := h.net.refs[s];
      assert p in g.net.ports && g.net.ports[p].peer in g.peers;
    }
    assert forall p <- g.net.ports :: g.net.ports[p].peer in g.peers;
  }
}
