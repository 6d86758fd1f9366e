/** Sequence number mappings of the GTP hub, and the remaining changes of its tables
    (src/gtphub/gtphub.c:662-754, 1194-1248, 1358-1390, 1689-1765, 1824-1905, 2342-2375; src/gtphub/gtphub_ares.c:156-222). */
module GtphubSeq {
  import opened GtphubState
  import opened GtphubTei
  import opened GtphubOps

  // ---- Number pools ----

  /** nr_pool_next for the pool of sequence numbers, 0 to 0xffff. */
  function SeqNext(last: nat): nat { if last >= SEQ_POOL - 1 then 0 else last + 1 }

  lemma SeqCounts(k: nat)
    ensures SeqNext(SeqAt(k)) == SeqAt(k + 1)
  {
  }

  function Draw(p: Peer): Peer { p.(last := SeqNext(p.last), drawn := p.drawn + 1) }

  lemma DrawOk(p: Peer)
    requires PeerSeqOk(p)
    ensures PeerSeqOk(Draw(p))
  {
    SeqCounts(p.drawn);
  }

  // ---- Mapping ----

  function MapGet(refs: map<Slot, nat>, maps: seq<Mapping>, from: nat, orig: nat): Option<Mapping> {
    if maps == [] then None
    else if Origin(maps[0].id) in refs && refs[Origin(maps[0].id)] == from && maps[0].orig == orig then Some(maps[0])
    else MapGet(refs, maps[1..], from, orig)
  }

  function MapGetInv(maps: seq<Mapping>, repl: nat): Option<Mapping> {
    if maps == [] then None else if maps[0].repl == repl then Some(maps[0]) else MapGetInv(maps[1..], repl)
  }

  /** nr_map_add and the reference to the origin. */
  function AddMapping(h: Hub, q: nat, from: nat, orig: nat): Hub
    requires q in h.peers
  {
    var id := h.nextId;
    Hub(h.peers[q := WithMapping(h.peers[q], id, orig)], SetRef(h.net, Origin(id), Some(from)), h.lists,
        Enqueue(h.queues, false, MapItem(id)), h.teiLast, id + 1)
  }

  /** gtphub_mapping_have on the map of peer `q`. */
  function MappingHave(h: Hub, q: nat, from: nat, orig: nat): (Hub, nat)
    requires q in h.peers
  {
    var m := MapGet(h.net.refs, h.peers[q].maps, from, orig);
    if m.Some? then (h.(queues := Enqueue(h.queues, false, MapItem(m.value.id))), m.value.repl)
    else (AddMapping(h, q, from, orig), Draw(h.peers[q]).last)
  }

  /** gtphub_unmap_seq: the original number and the port it came from. */
  function UnmapSeq(h: Hub, q: nat, seqNr: nat): Option<(nat, Option<nat>)>
    requires q in h.peers
  {
    var m := MapGetInv(h.peers[q].maps, seqNr);
    if m.None? then None
    else
      var s := Origin(m.value.id);
      Some((m.value.orig, if s in h.net.refs then Some(h.net.refs[s]) else None))
  }

  lemma {:induction false} MapGetIn(refs: map<Slot, nat>, maps: seq<Mapping>, from: nat, orig: nat)
    ensures var m := MapGet(refs, maps, from, orig);
      m.Some? ==> m.value in maps && m.value.orig == orig && Origin(m.value.id) in refs && refs[Origin(m.value.id)] == from
  {
    if maps != [] { MapGetIn(refs, maps[1..], from, orig); }
  }

  /** A mapping added to the end of a peer's list with the number just drawn. */
  function WithMapping(p: Peer, id: nat, orig: nat): Peer {
    var d := Draw(p);
    d.(maps := d.maps + [Mapping(id, orig, d.last, d.drawn)])
  }

  lemma WithMappingOk(p: Peer, id: nat, orig: nat)
    requires PeerSeqOk(p) && id !in MapIdsOf(p.maps)
    ensures PeerSeqOk(WithMapping(p, id, orig)) && MapIdsOf(WithMapping(p, id, orig).maps) == MapIdsOf(p.maps) + {id}
  {
    DrawOk(p);
    forall x | x in p.maps ensures x.id != id && x.at < Draw(p).drawn { assert x.id in MapIdsOf(p.maps); }
  }

  lemma MapIdsHave(peers: map<nat, Peer>)
    ensures forall r <- peers :: MapIdsOf(peers[r].maps) <= MapIds(peers)
  {
    hide MapIdsOf;
    forall r, x | r in peers && x in MapIdsOf(peers[r].maps) ensures x in MapIds(peers) { }
  }

  lemma NewMapping(peers: map<nat, Peer>, q: nat, id: nat, orig: nat)
    requires SeqsOk(peers) && q in peers && id !in MapIds(peers)
    ensures var more := peers[q := WithMapping(peers[q], id, orig)];
      SeqsOk(more) && MapIds(more) == MapIds(peers) + {id} && more.Keys == peers.Keys
  {
    var more := peers[q := WithMapping(peers[q], id, orig)];
    MapIdsHave(peers);
    WithMappingOk(peers[q], id, orig);
    hide PeerSeqOk, MapIdsOf, WithMapping;
    MapIdsHave(more);
    forall x | x in MapIds(more) ensures x in MapIds(peers) + {id} {
      var r :| r in more && x in MapIdsOf(more[r].maps);
    }
    forall x | x in MapIds(peers) + {id} ensures x in MapIds(more) {
      if x != id {
        var r :| r in peers && x in MapIdsOf(peers[r].maps);
        assert x in MapIdsOf(more[r].maps);
      } else {
        assert x in MapIdsOf(more[q].maps);
      }
    }
  }

  /** Peers that differ only in their numbers and mappings. */
  lemma SameAddresses(ports: map<nat, Port>, peers: map<nat, Peer>, more: map<nat, Peer>)
    requires PortsOk(ports, peers) && more.Keys == peers.Keys
    requires forall q <- peers :: more[q].bind == peers[q].bind && more[q].addr == peers[q].addr
    ensures PortsOk(ports, more)
  {
  }

  lemma MappingQueues(h: Hub, id: nat, g: Hub)
    requires QueuesOk(h.queues, h.lists, MapIds(h.peers)) && MapIds(g.peers) == MapIds(h.peers) + {id}
    requires g.queues == Enqueue(h.queues, false, MapItem(id)) && g.lists == h.lists
    ensures QueuesOk(g.queues, g.lists, MapIds(g.peers))
  {
    hide QueuesOk, Enqueue, SlowItems, QuickItems, TunIds, NoteIds, MapIds;
    var s := SlowItems(TunIds(h.lists.tunnels), NoteIds(h.lists.resolved));
    assert s + {} == s;
    MoreQuick(MapIds(h.peers), NoteIds(h.lists.pending), NoteIds(h.lists.lookups), id);
    EnqueueOk(h.queues, h.lists, MapIds(h.peers), false, MapItem(id), g.lists, MapIds(g.peers));
  }

  lemma MappingIds(h: Hub, g: Hub)
    requires IdsOk(h) && g.lists == h.lists && MapIds(g.peers) == MapIds(h.peers) + {h.nextId} && g.nextId == h.nextId + 1
    requires g.peers.Keys == h.peers.Keys && g.net.ports.Keys == h.net.ports.Keys
    ensures IdsOk(g)
  {
    hide TunIds, NoteIds, MapIds, DistinctTunnels;
  }

  lemma NewMappingPointers(h: Hub, more: map<nat, Peer>, id: nat, from: nat)
    requires PointersOk(h) && PortsOk(h.net.ports, more) && MapIds(more) == MapIds(h.peers) + {id} && from in h.net.ports
    ensures var n := SetRef(h.net, Origin(id), Some(from));
      && NetOk(n) && PortsOk(n.ports, more) && n.ports.Keys == h.net.ports.Keys
      && Owned(n.refs.Keys, TunIds(h.lists.tunnels), MapIds(more), NoteIds(h.lists.resolved))
  {
    hide NetOk, PortsOk, Owned, SamePorts, SetRef, TunIds, NoteIds, MapIds;
    OwnedMore(h.net.refs.Keys, TunIds(h.lists.tunnels), MapIds(h.peers), NoteIds(h.lists.resolved), Origin(id), true);
    PointerSet(h.net, more, Origin(id), Some(from), TunIds(h.lists.tunnels), MapIds(more), NoteIds(h.lists.resolved));
  }

  lemma AddMappingPeers(h: Hub, q: nat, orig: nat)
    requires Inv(h) && q in h.peers
    ensures var more := h.peers[q := WithMapping(h.peers[q], h.nextId, orig)];
      && SeqsOk(more) && MapIds(more) == MapIds(h.peers) + {h.nextId} && more.Keys == h.peers.Keys && PortsOk(h.net.ports, more)
  {
    NewTunnelNames(h);
    hide NetOk, Owned, QueuesOk, TeisOk, SeqsOk, TunIds, NoteIds, MapIds, IdsOk;
    NewMapping(h.peers, q, h.nextId, orig);
    SameAddresses(h.net.ports, h.peers, h.peers[q := WithMapping(h.peers[q], h.nextId, orig)]);
  }

  lemma AddMappingOk(h: Hub, q: nat, from: nat, orig: nat)
    requires Inv(h) && q in h.peers && from in h.net.ports
    ensures Inv(AddMapping(h, q, from, orig)) && Grows(h, AddMapping(h, q, from, orig))
  {
    var g := AddMapping(h, q, from, orig);
    AddMappingPeers(h, q, orig);
    hide NetOk, PortsOk, Owned, SetRef, QueuesOk, TeisOk, SeqsOk, TunIds, NoteIds, MapIds, Enqueue, IdsOk, WithMapping;
    NewMappingPointers(h, g.peers, h.nextId, from);
    MappingQueues(h, h.nextId, g);
    MappingIds(h, g);
    EnqueueClock(h.queues, false, MapItem(h.nextId));
    hide Grows;
    GrowsBy(h, g);
  }

  lemma RefreshItem(h: Hub, slow: bool, item: Item)
    requires Inv(h)
    requires if slow then item in SlowItems(TunIds(h.lists.tunnels), NoteIds(h.lists.resolved))
             else item in QuickItems(MapIds(h.peers), NoteIds(h.lists.pending), NoteIds(h.lists.lookups))
    ensures var g := h.(queues := Enqueue(h.queues, slow, item)); Inv(g) && Grows(h, g)
  {
    hide NetOk, PortsOk, Owned, QueuesOk, TeisOk, SeqsOk, TunIds, NoteIds, MapIds, Enqueue, SlowItems, QuickItems, IdsOk;
    RefreshOk(h.queues, h.lists, MapIds(h.peers), slow, item);
    EnqueueClock(h.queues, slow, item);
    SameIds(h, h.(queues := Enqueue(h.queues, slow, item)));
  }

  lemma MappingNamed(h: Hub, q: nat, m: Mapping)
    requires q in h.peers && m in h.peers[q].maps
    ensures MapItem(m.id) in QuickItems(MapIds(h.peers), NoteIds(h.lists.pending), NoteIds(h.lists.lookups))
  {
    assert m.id in MapIdsOf(h.peers[q].maps);
    assert m.id in MapIds(h.peers);
  }

  lemma MappingHaveOk(h: Hub, q: nat, from: nat, orig: nat)
    requires Inv(h) && q in h.peers && from in h.net.ports
    ensures var g := MappingHave(h, q, from, orig).0; Inv(g) && Grows(h, g)
  {
    var m := MapGet(h.net.refs, h.peers[q].maps, from, orig);
    if m.Some? {
      MapGetIn(h.net.refs, h.peers[q].maps, from, orig);
      MappingNamed(h, q, m.value);
      hide Inv, QuickItems;
      RefreshItem(h, false, MapItem(m.value.id));
    } else {
      hide Inv, AddMapping;
      AddMappingOk(h, q, from, orig);
    }
  }

  // ---- Uniqueness and round trip ----

  /** Fewer numbers than the pool holds were drawn since the oldest live mapping. */
  ghost predicate WithinPool(p: Peer) { forall m <- p.maps :: p.drawn - m.at < SEQ_POOL }

  lemma SeqRepeats(j: nat, k: nat)
    requires j <= k < j + SEQ_POOL && SeqAt(j) == SeqAt(k)
    ensures j == k
  {
  }

  /** Then the live replacement numbers of a peer are pairwise distinct. */
  lemma LiveNumbersDistinct(h: Hub, q: nat, x: Mapping, y: Mapping)
    requires Inv(h) && q in h.peers && WithinPool(h.peers[q]) && x in h.peers[q].maps && y in h.peers[q].maps && x.repl == y.repl
    ensures x == y
  {
    hide PointersOk, QueuesOk, TeisOk, IdsOk, SeqAt;
    if x.at <= y.at { SeqRepeats(x.at, y.at); } else { SeqRepeats(y.at, x.at); }
  }

  /** Two numbers of one pool are the same exactly if a multiple of the pool's size was drawn between
      them. */
  lemma NumberRepeatsExactly(j: nat, k: nat)
    ensures SeqAt(j) == SeqAt(k) <==> (k - j) % SEQ_POOL == 0
  {
    var a, b := SEQ_START + j, SEQ_START + k;
    assert a == a / SEQ_POOL * SEQ_POOL + a % SEQ_POOL && b == b / SEQ_POOL * SEQ_POOL + b % SEQ_POOL;
    var d := b / SEQ_POOL - a / SEQ_POOL;
    assert k - j == d * SEQ_POOL + (b % SEQ_POOL - a % SEQ_POOL);
    if a % SEQ_POOL == b % SEQ_POOL { assert k - j == d * SEQ_POOL; }
  }

  lemma {:induction false} InvFinds(maps: seq<Mapping>, m: Mapping)
    requires m in maps && forall x | x in maps && x.repl == m.repl :: x == m
    ensures MapGetInv(maps, m.repl) == Some(m)
  {
    if maps[0].repl == m.repl {
      assert maps[0] in maps;
    } else {
      assert m in maps[1..] && forall x <- maps[1..] :: x in maps;
      InvFinds(maps[1..], m);
    }
  }

  /** Unmapping the replacement number of a live mapping gives the original number and the port the
      number came from. */
  lemma UnmapLive(h: Hub, q: nat, m: Mapping)
    requires Inv(h) && q in h.peers && WithinPool(h.peers[q]) && m in h.peers[q].maps
    ensures Origin(m.id) in h.net.refs && UnmapSeq(h, q, m.repl) == Some((m.orig, Some(h.net.refs[Origin(m.id)])))
  {
    forall x | x in h.peers[q].maps && x.repl == m.repl ensures x == m {
      hide Inv, WithinPool;
      LiveNumbersDistinct(h, q, x, m);
    }
    InvFinds(h.peers[q].maps, m);
    assert m.id in MapIdsOf(h.peers[q].maps);
    assert m.id in MapIds(h.peers);
    hide QueuesOk, TeisOk, IdsOk, NetOk, PortsOk, MapIds, SeqsOk;
  }

  /** Mapping a number and unmapping the reply's number leads back to the number and its port. */
  lemma MapUnmap(h: Hub, q: nat, from: nat, orig: nat)
    requires Inv(h) && q in h.peers && from in h.net.ports
    ensures var (g, repl) := MappingHave(h, q, from, orig);
      q in g.peers && (WithinPool(g.peers[q]) ==> UnmapSeq(g, q, repl) == Some((orig, Some(from))))
  {
    var (g, repl) := MappingHave(h, q, from, orig);
    MappingHaveOk(h, q, from, orig);
    MapGetIn(h.net.refs, h.peers[q].maps, from, orig);
    if WithinPool(g.peers[q]) {
      MappingPresent(h, q, from, orig);
      if m :| m in g.peers[q].maps && m.repl == repl && m.orig == orig && Origin(m.id) in g.net.refs && g.net.refs[Origin(m.id)] == from {
        hide Inv, WithinPool, MappingHave, UnmapSeq;
        UnmapLive(g, q, m);
      }
    }
  }

  /** The mapping that MappingHave finds or makes. */
  lemma MappingPresent(h: Hub, q: nat, from: nat, orig: nat)
    requires Inv(h) && q in h.peers && from in h.net.ports
    ensures var (g, repl) := MappingHave(h, q, from, orig);
      q in g.peers && exists m <- g.peers[q].maps ::
        m.repl == repl && m.orig == orig && Origin(m.id) in g.net.refs && g.net.refs[Origin(m.id)] == from
  {
    hide PortsOk, Owned, QueuesOk, TeisOk, IdsOk, SeqsOk, Enqueue, SetRef, NetOk, MapGet;
    MapGetIn(h.net.refs, h.peers[q].maps, from, orig);
    if MapGet(h.net.refs, h.peers[q].maps, from, orig).None? {
      var p := WithMapping(h.peers[q], h.nextId, orig);
      SetRefOk(h.net, Origin(h.nextId), Some(from));
      assert p.maps[|p.maps| - 1] in AddMapping(h, q, from, orig).peers[q].maps;
    }
  }
}
