/** The tables of the GTP hub (include/osmocom/gtphub/gtphub.h, src/gtphub/gtphub.c): peers and their
    ports, tunnels, sequence number mappings, resolved GGSNs, pending deletes and expiry queues.
    Records are named by numbers that are never used again; every pointer to a peer port is an entry of
    one map, from the place that holds the pointer to the port. */
module GtphubState {
  datatype Option<T> = None | Some(value: T)

  // ---- Records ----

  datatype Side = Sgsn | Ggsn
  datatype Plane = Ctrl | User

  /** One of the four sockets, and of the four endpoints of a tunnel. */
  datatype Bind = Bind(side: Side, plane: Plane)

  function OtherSide(s: Side): Side { if s == Sgsn then Ggsn else Sgsn }

  type Addr = seq<int>

  /** A port number of UDP, and one that a peer can be listed with: a zero is asserted never to be looked up. */
  type UdpPort = x: int | 0 <= x < 0x10000
  type PortNum = x: int | 0 < x < 0x10000 witness 1

  /** A mapping of a sequence number. `at` counts the numbers its pool had given out with it; it is
      not kept by the code. */
  datatype Mapping = Mapping(id: nat, orig: nat, repl: nat, at: nat)

  /** A peer has one address from its creation until the address has no port left. `last` is the number
      its pool gave last and `drawn` how many it gave, which the code does not keep. */
  datatype Peer = Peer(bind: Bind, addr: Option<Addr>, last: nat, drawn: nat, maps: seq<Mapping>)

  datatype Port = Port(peer: nat, num: PortNum, refCount: nat, restart: int)

  /** `checked` tells that the tunnel has passed the check for reused TEIs; it is not kept by the
      code. The peers of the endpoints are in the map of pointers. */
  datatype Tunnel = Tunnel(id: nat, teiRepl: nat, teiOrig: map<Bind, nat>, checked: bool)

  /** The TEI a peer announced for an endpoint, zero if it did not. */
  function TeiOf(t: Tunnel, b: Bind): nat { if b in t.teiOrig then t.teiOrig[b] else 0 }

  /** Entries of the lists of resolved GGSNs, pending deletes and running lookups. */
  datatype Note = ResolvedGgsn(id: nat, apn: seq<char>) | Pending(id: nat, tun: nat, teardown: int, nsapi: int)
                | Lookup(id: nat, apn: seq<char>)

  /** Where a pointer to a peer port is kept. */
  datatype Slot = Endpoint(tun: nat, b: Bind) | Origin(map_: nat) | ResolvedPeer(res: nat) | Proxy(b: Bind)

  datatype Item = TunItem(id: nat) | ResItem(id: nat) | MapItem(id: nat) | PendItem(id: nat) | LookupItem(id: nat)
  datatype Due = Due(item: Item, at: nat)

  const QUICK := 30
  const SLOW := 6 * 60 * 60

  /** The ports and all pointers to them. `failed` tells that an assertion of the code about reference
      counts was violated, which the code does not survive. */
  datatype Net = Net(ports: map<nat, Port>, refs: map<Slot, nat>, failed: bool)

  datatype Lists = Lists(tunnels: seq<Tunnel>, resolved: seq<Note>, pending: seq<Note>, lookups: seq<Note>)

  /** `clock` is the latest time seen, which the code does not keep; `failed` tells that something was
      queued out of order, against an assertion of the code. */
  datatype Queues = Queues(quick: seq<Due>, slow: seq<Due>, clock: nat, failed: bool)

  datatype Hub = Hub(peers: map<nat, Peer>, net: Net, lists: Lists, queues: Queues, teiLast: nat, nextId: nat)

  // ---- Reference counts ----

  function SlotsOf(refs: map<Slot, nat>, p: nat): set<Slot> { set s <- refs | refs[s] == p }

  /** Every pointer leads to a port, and every port knows how many lead to it. */
  ghost predicate RefsOk(refs: map<Slot, nat>, ports: map<nat, Port>) {
    && (forall s <- refs :: refs[s] in ports)
    && (forall p <- ports :: ports[p].refCount == |SlotsOf(refs, p)|)
  }

  /** gtphub_port_ref_count_dec and clearing the pointer. */
  function Unref(n: Net, s: Slot): Net {
    if s !in n.refs then n
    else
      var p := n.refs[s];
      if p !in n.ports || n.ports[p].refCount == 0 then Net(n.ports, n.refs - {s}, true)
      else Net(n.ports[p := n.ports[p].(refCount := n.ports[p].refCount - 1)], n.refs - {s}, n.failed)
  }

  /** gtphub_tunnel_endpoint_set_peer, and setting any other pointer. */
  function SetRef(n: Net, s: Slot, target: Option<nat>): Net {
    var u := Unref(n, s);
    if target.None? then u
    else if target.value !in u.ports then u.(failed := true)
    else
      var p := target.value;
      Net(u.ports[p := u.ports[p].(refCount := u.ports[p].refCount + 1)], u.refs[s := p], u.failed)
  }

  /** Every pointer leads to a port, every port knows how many lead to it, and no count was taken
      below zero. */
  ghost predicate NetOk(n: Net) { RefsOk(n.refs, n.ports) && !n.failed }

  /** The same ports, but for their reference counts. */
  ghost predicate SamePorts(a: map<nat, Port>, b: map<nat, Port>) {
    a.Keys == b.Keys && forall p <- a :: b[p] == a[p].(refCount := b[p].refCount)
  }

  lemma DropSlot(refs: map<Slot, nat>, s: Slot, q: nat)
    requires s in refs
    ensures |SlotsOf(refs - {s}, q)| == |SlotsOf(refs, q)| - (if refs[s] == q then 1 else 0)
  {
    if refs[s] == q {
      assert s in SlotsOf(refs, q);
      assert SlotsOf(refs - {s}, q) == SlotsOf(refs, q) - {s};
    } else {
      assert SlotsOf(refs - {s}, q) == SlotsOf(refs, q);
    }
  }

  lemma AddSlot(refs: map<Slot, nat>, s: Slot, p: nat, q: nat)
    requires s !in refs
    ensures |SlotsOf(refs[s := p], q)| == |SlotsOf(refs, q)| + (if p == q then 1 else 0)
  {
    if p == q {
      assert SlotsOf(refs[s := p], q) == SlotsOf(refs, q) + {s};
    } else {
      assert SlotsOf(refs[s := p], q) == SlotsOf(refs, q);
    }
  }

  /** A referenced port has a count to decrease. */
  lemma Referenced(refs: map<Slot, nat>, ports: map<nat, Port>, s: Slot)
    requires RefsOk(refs, ports) && s in refs
    ensures refs[s] in ports && ports[refs[s]].refCount > 0
  {
    assert s in SlotsOf(refs, refs[s]);
  }

  lemma UnrefOk(n: Net, s: Slot)
    requires NetOk(n)
    ensures var g := Unref(n, s); NetOk(g) && g.refs == n.refs - {s} && SamePorts(n.ports, g.ports)
  {
    var g := Unref(n, s);
    if s in n.refs {
      Referenced(n.refs, n.ports, s);
      forall q | q in g.ports ensures g.ports[q].refCount == |SlotsOf(g.refs, q)| {
        DropSlot(n.refs, s, q);
      }
    } else {
      assert n.refs - {s} == n.refs;
    }
  }

  lemma CountUp(refs: map<Slot, nat>, ports: map<nat, Port>, s: Slot, p: nat)
    requires RefsOk(refs, ports) && s !in refs && p in ports
    ensures var up := ports[p := ports[p].(refCount := ports[p].refCount + 1)];
      RefsOk(refs[s := p], up) && SamePorts(ports, up)
  {
    var up := ports[p := ports[p].(refCount := ports[p].refCount + 1)];
    hide SlotsOf;
    forall q | q in up ensures up[q].refCount == |SlotsOf(refs[s := p], q)| {
      AddSlot(refs, s, p, q);
    }
  }

  lemma SamePortsChain(a: map<nat, Port>, b: map<nat, Port>, c: map<nat, Port>)
    requires SamePorts(a, b) && SamePorts(b, c)
    ensures SamePorts(a, c)
  {
  }

  lemma SetRefOk(n: Net, s: Slot, target: Option<nat>)
    requires NetOk(n) && (target.Some? ==> target.value in n.ports)
    ensures var g := SetRef(n, s, target);
      && NetOk(g) && SamePorts(n.ports, g.ports)
      && g.refs == if target.Some? then n.refs[s := target.value] else n.refs - {s}
  {
    UnrefOk(n, s);
    var u := Unref(n, s);
    assert u.ports.Keys == n.ports.Keys;
    hide Unref, RefsOk, SamePorts;
    if target.Some? {
      CountUp(u.refs, u.ports, s, target.value);
      SamePortsChain(n.ports, u.ports, SetRef(n, s, target).ports);
      assert u.refs[s := target.value] == n.refs[s := target.value];
    }
  }

  // ---- Expiry queues ----

  function Remove(q: seq<Due>, item: Item): seq<Due> {
    if q == [] then [] else (if q[0].item == item then [] else [q[0]]) + Remove(q[1..], item)
  }

  function Items(q: seq<Due>): set<Item> { set d <- q :: d.item }

  /** In order of expiry, none due before `from`, and each item once. */
  ghost predicate Ordered(q: seq<Due>, from: nat) {
    q != [] ==> from <= q[0].at && q[0].item !in Items(q[1..]) && Ordered(q[1..], q[0].at)
  }

  /** Exactly the items given, and none due after `latest`. */
  ghost predicate QueueOk(q: seq<Due>, items: set<Item>, latest: nat) {
    Ordered(q, 0) && Items(q) == items && forall d <- q :: d.at <= latest
  }

  lemma {:induction false} RemoveMembers(q: seq<Due>, item: Item)
    ensures forall d :: d in Remove(q, item) <==> d in q && d.item != item
    ensures Items(Remove(q, item)) == Items(q) - {item}
  {
    if q != [] {
      RemoveMembers(q[1..], item);
      assert q == [q[0]] + q[1..];
    }
  }

  lemma {:induction false} RemoveOrdered(q: seq<Due>, item: Item, from: nat)
    requires Ordered(q, from)
    ensures Ordered(Remove(q, item), from)
  {
    if q != [] {
      var rest := Remove(q[1..], item);
      RemoveOrdered(q[1..], item, q[0].at);
      RemoveMembers(q[1..], item);
      if q[0].item == item {
        assert [] + rest == rest;
        OrderedFrom(rest, q[0].at, from);
      } else {
        assert ([q[0]] + rest)[1..] == rest;
      }
    }
  }

  lemma OrderedFrom(q: seq<Due>, from: nat, before: nat)
    requires Ordered(q, from) && before <= from
    ensures Ordered(q, before)
  {
  }

  lemma {:induction false} AppendOrdered(q: seq<Due>, d: Due, from: nat)
    requires Ordered(q, from) && d.item !in Items(q) && from <= d.at && forall x <- q :: x.at <= d.at
    ensures Ordered(q + [d], from)
  {
    if q == [] {
      assert (q + [d])[1..] == [];
    } else {
      assert q[0] in q && forall x <- q[1..] :: x in q;
      AppendOrdered(q[1..], d, q[0].at);
      assert (q + [d])[1..] == q[1..] + [d];
      assert Items(q[1..] + [d]) == Items(q[1..]) + {d.item};
    }
  }

  /** expiry_add: moves the item to the end, with a new time. */
  function ExpiryAdd(q: seq<Due>, item: Item, at: nat): seq<Due> { Remove(q, item) + [Due(item, at)] }

  /** The ordering the code asserts before it adds to a queue. */
  predicate MayAdd(q: seq<Due>, at: nat) { q == [] || at >= q[|q| - 1].at }

  lemma RemoveOk(q: seq<Due>, item: Item, items: set<Item>, latest: nat)
    requires QueueOk(q, items, latest)
    ensures QueueOk(Remove(q, item), items - {item}, latest)
  {
    RemoveOrdered(q, item, 0);
    RemoveMembers(q, item);
  }

  /** Under non-decreasing time the ordering assertion holds. */
  lemma AddOk(q: seq<Due>, item: Item, at: nat, items: set<Item>, latest: nat)
    requires QueueOk(q, items, latest) && latest <= at
    ensures MayAdd(q, at) && QueueOk(ExpiryAdd(q, item, at), items + {item}, at)
  {
    var r := Remove(q, item);
    RemoveOrdered(q, item, 0);
    RemoveMembers(q, item);
    AppendOrdered(r, Due(item, at), 0);
    assert Items(r + [Due(item, at)]) == Items(r) + {item};
    assert items + {item} == items - {item} + {item};
    if q != [] { assert q[|q| - 1] in q; }
  }

  lemma QueueLater(q: seq<Due>, items: set<Item>, latest: nat, later: nat)
    requires QueueOk(q, items, latest) && latest <= later
    ensures QueueOk(q, items, later)
  {
  }

  // ---- What the tables hold ----

  function TunIds(ts: seq<Tunnel>): set<nat> { set t <- ts :: t.id }
  function NoteIds(ns: seq<Note>): set<nat> { set n <- ns :: n.id }
  function MapIdsOf(ms: seq<Mapping>): set<nat> { set m <- ms :: m.id }
  function MapIds(peers: map<nat, Peer>): set<nat> { set q, m | q in peers && m in MapIdsOf(peers[q].maps) :: m }

  function SlowItems(tuns: set<nat>, ress: set<nat>): set<Item> { (set t <- tuns :: TunItem(t)) + (set r <- ress :: ResItem(r)) }

  function QuickItems(maps: set<nat>, pends: set<nat>, looks: set<nat>): set<Item> {
    (set m <- maps :: MapItem(m)) + (set p <- pends :: PendItem(p)) + (set l <- looks :: LookupItem(l))
  }

  /** Pointers belong to live records, and every live mapping and resolved GGSN has one. */
  ghost predicate Owned(slots: set<Slot>, tuns: set<nat>, maps: set<nat>, ress: set<nat>) {
    && (forall s <- slots :: match s
         case Endpoint(t, _) => t in tuns
         case Origin(m) => m in maps
         case ResolvedPeer(r) => r in ress
         case Proxy(_) => true)
    && (forall m <- maps :: Origin(m) in slots) && (forall r <- ress :: ResolvedPeer(r) in slots)
  }

  /** Ports hang on peers with an address; addresses are unique on a socket, port numbers on an
      address. */
  ghost predicate PortsOk(ports: map<nat, Port>, peers: map<nat, Peer>) {
    && (forall p <- ports :: ports[p].peer in peers && peers[ports[p].peer].addr.Some?)
    && (forall p, q | p in ports && q in ports && ports[p].peer == ports[q].peer && ports[p].num == ports[q].num :: p == q)
    && (forall x, y | x in peers && y in peers && peers[x].bind == peers[y].bind && peers[x].addr.Some?
          && peers[x].addr == peers[y].addr :: x == y)
  }

  /** No tunnel is listed twice. */
  ghost predicate DistinctTunnels(ts: seq<Tunnel>) {
    ts != [] ==> ts[0].id !in TunIds(ts[1..]) && DistinctTunnels(ts[1..])
  }

  lemma {:induction false} SameTunnel(ts: seq<Tunnel>, x: Tunnel, y: Tunnel)
    requires DistinctTunnels(ts) && x in ts && y in ts && x.id == y.id
    ensures x == y
  {
    if x in ts[1..] && y in ts[1..] {
      SameTunnel(ts[1..], x, y);
    }
  }

  /** Names have been given out, and a tunnel's is its own. */
  ghost predicate IdsOk(h: Hub) {
    && DistinctTunnels(h.lists.tunnels)
    && (forall t <- TunIds(h.lists.tunnels) :: t < h.nextId) && (forall m <- MapIds(h.peers) :: m < h.nextId)
    && (forall r <- NoteIds(h.lists.resolved) :: r < h.nextId) && (forall p <- NoteIds(h.lists.pending) :: p < h.nextId)
    && (forall l <- NoteIds(h.lists.lookups) :: l < h.nextId)
    && (forall p <- h.net.ports :: p < h.nextId) && (forall q <- h.peers :: q < h.nextId)
  }

  const TEI_MAX := 0xffffffff

  /** Replacement TEIs are not zero; those of checked tunnels differ. */
  ghost predicate TeisOk(ts: seq<Tunnel>, last: nat) {
    && 1 <= last <= TEI_MAX && (forall t <- ts :: 1 <= t.teiRepl <= TEI_MAX)
    && (forall x, y | x in ts && y in ts && x.checked && y.checked && x.teiRepl == y.teiRepl :: x == y)
  }

  const SEQ_START := 0x6d31 - 1
  const SEQ_POOL := 0x10000

  function SeqAt(k: nat): nat { (SEQ_START + k) % SEQ_POOL }

  ghost predicate PeerSeqOk(p: Peer) {
    && p.last == SeqAt(p.drawn)
    && (forall m <- p.maps :: 1 <= m.at <= p.drawn && m.repl == SeqAt(m.at))
    && (forall x, y | x in p.maps && y in p.maps && (x.at == y.at || x.id == y.id) :: x == y)
  }

  /** A mapping belongs to one peer. */
  ghost predicate SeqsOk(peers: map<nat, Peer>) {
    && (forall q <- peers :: PeerSeqOk(peers[q]))
    && (forall q, r | q in peers && r in peers && q != r :: MapIdsOf(peers[q].maps) !! MapIdsOf(peers[r].maps))
  }

  ghost predicate PointersOk(h: Hub) {
    && NetOk(h.net) && PortsOk(h.net.ports, h.peers)
    && Owned(h.net.refs.Keys, TunIds(h.lists.tunnels), MapIds(h.peers), NoteIds(h.lists.resolved))
  }

  /** Tunnels and resolved GGSNs are queued for slow expiry, mappings, pending deletes and lookups for
      quick expiry, exactly as long as they are in their lists. */
  ghost predicate QueuesOk(q: Queues, l: Lists, maps: set<nat>) {
    && QueueOk(q.slow, SlowItems(TunIds(l.tunnels), NoteIds(l.resolved)), q.clock + SLOW)
    && QueueOk(q.quick, QuickItems(maps, NoteIds(l.pending), NoteIds(l.lookups)), q.clock + QUICK)
    && !q.failed
  }

  /** What every operation keeps. */
  ghost predicate Inv(h: Hub) {
    && PointersOk(h) && QueuesOk(h.queues, h.lists, MapIds(h.peers)) && IdsOk(h)
    && TeisOk(h.lists.tunnels, h.teiLast) && SeqsOk(h.peers)
  }

  // ---- Deleting an item of an expiry queue ----

  function WithoutTunnel(ts: seq<Tunnel>, t: nat): seq<Tunnel> {
    if ts == [] then [] else (if ts[0].id == t then [] else [ts[0]]) + WithoutTunnel(ts[1..], t)
  }

  function WithoutNote(ns: seq<Note>, n: nat): seq<Note> {
    if ns == [] then [] else (if ns[0].id == n then [] else [ns[0]]) + WithoutNote(ns[1..], n)
  }

  function WithoutMapping(ms: seq<Mapping>, m: nat): seq<Mapping> {
    if ms == [] then [] else (if ms[0].id == m then [] else [ms[0]]) + WithoutMapping(ms[1..], m)
  }

  lemma {:induction false} WithoutTunnelOk(ts: seq<Tunnel>, t: nat)
    ensures forall x :: x in WithoutTunnel(ts, t) <==> x in ts && x.id != t
    ensures TunIds(WithoutTunnel(ts, t)) == TunIds(ts) - {t}
    ensures DistinctTunnels(ts) ==> DistinctTunnels(WithoutTunnel(ts, t))
  {
    if ts != [] {
      WithoutTunnelOk(ts[1..], t);
      assert ts == [ts[0]] + ts[1..];
      var rest := WithoutTunnel(ts[1..], t);
      assert [] + rest == rest && ([ts[0]] + rest)[1..] == rest;
    }
  }

  lemma {:induction false} WithoutNoteOk(ns: seq<Note>, n: nat)
    ensures forall x :: x in WithoutNote(ns, n) <==> x in ns && x.id != n
    ensures NoteIds(WithoutNote(ns, n)) == NoteIds(ns) - {n}
  {
    if ns != [] {
      WithoutNoteOk(ns[1..], n);
      assert ns == [ns[0]] + ns[1..];
    }
  }

  lemma {:induction false} WithoutMappingOk(ms: seq<Mapping>, m: nat)
    ensures forall x :: x in WithoutMapping(ms, m) <==> x in ms && x.id != m
    ensures MapIdsOf(WithoutMapping(ms, m)) == MapIdsOf(ms) - {m}
  {
    if ms != [] {
      WithoutMappingOk(ms[1..], m);
      assert ms == [ms[0]] + ms[1..];
    }
  }

  function Dequeue(q: Queues, item: Item): Queues { q.(quick := Remove(q.quick, item), slow := Remove(q.slow, item)) }

  const SGSN_CTRL := Bind(Sgsn, Ctrl)
  const SGSN_USER := Bind(Sgsn, User)
  const GGSN_CTRL := Bind(Ggsn, Ctrl)
  const GGSN_USER := Bind(Ggsn, User)

  function EndpointsOf(t: nat): set<Slot> {
    {Endpoint(t, SGSN_CTRL), Endpoint(t, SGSN_USER), Endpoint(t, GGSN_CTRL), Endpoint(t, GGSN_USER)}
  }

  lemma FourBinds(b: Bind)
    ensures b == SGSN_CTRL || b == SGSN_USER || b == GGSN_CTRL || b == GGSN_USER
  {
    assert b == Bind(b.side, b.plane) && (b.side == Sgsn || b.side == Ggsn) && (b.plane == Ctrl || b.plane == User);
  }

  /** Clears the four endpoint pointers of a tunnel. */
  function UnrefTunnel(n: Net, t: nat): Net {
    Unref(Unref(Unref(Unref(n, Endpoint(t, SGSN_CTRL)), Endpoint(t, SGSN_USER)), Endpoint(t, GGSN_CTRL)), Endpoint(t, GGSN_USER))
  }

  /** Cuts a mapping out of its peer's map. */
  function CutMapping(peers: map<nat, Peer>, m: nat): map<nat, Peer> {
    map q | q in peers :: peers[q].(maps := WithoutMapping(peers[q].maps, m))
  }

  function DropPointers(n: Net, item: Item): Net {
    match item
    case TunItem(t) => UnrefTunnel(n, t)
    case MapItem(m) => if Origin(m) in n.refs then Unref(n, Origin(m)) else n.(failed := true)
    case ResItem(r) => Unref(n, ResolvedPeer(r))
    case PendItem(_) => n
    case LookupItem(_) => n
  }

  function DropRecord(l: Lists, item: Item): Lists {
    match item
    case TunItem(t) => l.(tunnels := WithoutTunnel(l.tunnels, t))
    case MapItem(m) => l
    case ResItem(r) => l.(resolved := WithoutNote(l.resolved, r))
    case PendItem(p) => l.(pending := WithoutNote(l.pending, p))
    case LookupItem(k) => l.(lookups := WithoutNote(l.lookups, k))
  }

  /** expiring_item_del with the call back of each kind of item. A mapping asserts that it has an
      origin. */
  function DelItem(h: Hub, item: Item): Hub {
    h.(queues := Dequeue(h.queues, item), lists := DropRecord(h.lists, item), net := DropPointers(h.net, item),
       peers := if item.MapItem? then CutMapping(h.peers, item.id) else h.peers)
  }

  /** The items in the queues. */
  function AllItems(q: Queues): set<Item> { Items(q.quick) + Items(q.slow) }

  lemma UnrefTunnelOk(n: Net, t: nat)
    requires NetOk(n)
    ensures var g := UnrefTunnel(n, t); NetOk(g) && SamePorts(n.ports, g.ports) && g.refs == n.refs - EndpointsOf(t)
  {
    hide Unref, NetOk, SamePorts;
    UnrefOk(n, Endpoint(t, SGSN_CTRL));
    var n1 := Unref(n, Endpoint(t, SGSN_CTRL));
    UnrefOk(n1, Endpoint(t, SGSN_USER));
    var n2 := Unref(n1, Endpoint(t, SGSN_USER));
    UnrefOk(n2, Endpoint(t, GGSN_CTRL));
    var n3 := Unref(n2, Endpoint(t, GGSN_CTRL));
    UnrefOk(n3, Endpoint(t, GGSN_USER));
    SamePortsChain(n.ports, n1.ports, n2.ports);
    SamePortsChain(n.ports, n2.ports, n3.ports);
    SamePortsChain(n.ports, n3.ports, UnrefTunnel(n, t).ports);
  }

  /** The pointers a record holds. */
  function SlotsOwned(item: Item): set<Slot> {
    match item
    case TunItem(t) => EndpointsOf(t)
    case MapItem(m) => {Origin(m)}
    case ResItem(r) => {ResolvedPeer(r)}
    case PendItem(_) => {}
    case LookupItem(_) => {}
  }

  lemma DropPointersOk(n: Net, item: Item)
    requires NetOk(n) && (item.MapItem? ==> Origin(item.id) in n.refs)
    ensures var g := DropPointers(n, item);
      NetOk(g) && SamePorts(n.ports, g.ports) && g.refs == n.refs - SlotsOwned(item)
  {
    hide NetOk, Unref, UnrefTunnel;
    match item
    case TunItem(t) => UnrefTunnelOk(n, t);
    case MapItem(m) => UnrefOk(n, Origin(m));
    case ResItem(r) => UnrefOk(n, ResolvedPeer(r));
    case PendItem(_) => assert n.refs - {} == n.refs;
    case LookupItem(_) => assert n.refs - {} == n.refs;
  }

  /** The names of a kind of record that are left without the item. */
  function Left(ids: set<nat>, item: Item, kind: bool): set<nat> { if kind then ids - {item.id} else ids }

  lemma OwnedWithout(slots: set<Slot>, tuns: set<nat>, maps: set<nat>, ress: set<nat>, item: Item)
    requires Owned(slots, tuns, maps, ress)
    ensures Owned(slots - SlotsOwned(item), Left(tuns, item, item.TunItem?), Left(maps, item, item.MapItem?), Left(ress, item, item.ResItem?))
  {
    if item.TunItem? {
      forall b: Bind ensures Endpoint(item.id, b) in EndpointsOf(item.id) { FourBinds(b); }
    }
  }

  lemma ItemsWithout(tuns: set<nat>, ress: set<nat>, maps: set<nat>, pends: set<nat>, looks: set<nat>, item: Item)
    ensures SlowItems(tuns, ress) - {item} == SlowItems(Left(tuns, item, item.TunItem?), Left(ress, item, item.ResItem?))
    ensures QuickItems(maps, pends, looks) - {item} ==
      QuickItems(Left(maps, item, item.MapItem?), Left(pends, item, item.PendItem?), Left(looks, item, item.LookupItem?))
  {
  }

  lemma DropRecordOk(l: Lists, item: Item)
    ensures var g := DropRecord(l, item);
      && TunIds(g.tunnels) == Left(TunIds(l.tunnels), item, item.TunItem?)
      && NoteIds(g.resolved) == Left(NoteIds(l.resolved), item, item.ResItem?)
      && NoteIds(g.pending) == Left(NoteIds(l.pending), item, item.PendItem?)
      && NoteIds(g.lookups) == Left(NoteIds(l.lookups), item, item.LookupItem?)
      && (forall t :: t in g.tunnels <==> t in l.tunnels && !(item.TunItem? && t.id == item.id))
      && (DistinctTunnels(l.tunnels) ==> DistinctTunnels(g.tunnels))
  {
    hide TunIds, NoteIds, WithoutTunnel, WithoutNote, DistinctTunnels;
    match item
    case TunItem(t) => WithoutTunnelOk(l.tunnels, t);
    case MapItem(_) =>
    case ResItem(r) => WithoutNoteOk(l.resolved, r);
    case PendItem(p) => WithoutNoteOk(l.pending, p);
    case LookupItem(k) => WithoutNoteOk(l.lookups, k);
  }

  lemma CutPeer(p: Peer, m: nat)
    requires PeerSeqOk(p)
    ensures var c := p.(maps := WithoutMapping(p.maps, m)); PeerSeqOk(c) && MapIdsOf(c.maps) == MapIdsOf(p.maps) - {m}
  {
    WithoutMappingOk(p.maps, m);
  }

  lemma CutMappingOk(peers: map<nat, Peer>, ports: map<nat, Port>, m: nat)
    requires SeqsOk(peers) && PortsOk(ports, peers)
    ensures var cut := CutMapping(peers, m);
      SeqsOk(cut) && PortsOk(ports, cut) && MapIds(cut) == MapIds(peers) - {m} && cut.Keys == peers.Keys
  {
    var cut := CutMapping(peers, m);
    forall q | q in peers
      ensures MapIdsOf(cut[q].maps) == MapIdsOf(peers[q].maps) - {m} && PeerSeqOk(cut[q])
    {
      CutPeer(peers[q], m);
    }
    hide WithoutMapping, MapIdsOf, PeerSeqOk, PortsOk;
    CutIds(peers, cut, m);
    CutPorts(ports, peers, m);
  }

  lemma CutIds(peers: map<nat, Peer>, cut: map<nat, Peer>, m: nat)
    requires cut.Keys == peers.Keys && forall q <- peers :: MapIdsOf(cut[q].maps) == MapIdsOf(peers[q].maps) - {m}
    ensures MapIds(cut) == MapIds(peers) - {m}
  {
    hide MapIdsOf;
    forall x ensures x in MapIds(cut) <==> x in MapIds(peers) - {m} {
      if x in MapIds(cut) {
        var q :| q in cut && x in MapIdsOf(cut[q].maps);
        assert x in MapIdsOf(peers[q].maps);
      }
      if x in MapIds(peers) - {m} {
        var q :| q in peers && x in MapIdsOf(peers[q].maps);
        assert x in MapIdsOf(cut[q].maps);
      }
    }
  }

  lemma CutPorts(ports: map<nat, Port>, peers: map<nat, Peer>, m: nat)
    requires PortsOk(ports, peers)
    ensures PortsOk(ports, CutMapping(peers, m))
  {
    hide WithoutMapping;
  }

  lemma PortsKept(ports: map<nat, Port>, after: map<nat, Port>, peers: map<nat, Peer>)
    requires PortsOk(ports, peers) && SamePorts(ports, after)
    ensures PortsOk(after, peers)
  {
  }

  lemma DequeueOk(q: Queues, l: Lists, maps: set<nat>, item: Item)
    requires QueuesOk(q, l, maps)
    ensures QueuesOk(Dequeue(q, item), DropRecord(l, item), Left(maps, item, item.MapItem?))
  {
    var tuns, ress, pends, looks := TunIds(l.tunnels), NoteIds(l.resolved), NoteIds(l.pending), NoteIds(l.lookups);
    hide QueueOk, SlowItems, QuickItems, TunIds, NoteIds, Remove, DropRecord;
    RemoveOk(q.slow, item, SlowItems(tuns, ress), q.clock + SLOW);
    RemoveOk(q.quick, item, QuickItems(maps, pends, looks), q.clock + QUICK);
    ItemsWithout(tuns, ress, maps, pends, looks, item);
    DropRecordOk(l, item);
  }

  lemma MapHasOrigin(h: Hub, item: Item)
    requires Inv(h) && item in AllItems(h.queues) && item.MapItem?
    ensures Origin(item.id) in h.net.refs
  {
    hide NetOk, PortsOk, IdsOk, SeqsOk, TeisOk, MapIds, NoteIds, TunIds;
    assert item !in SlowItems(TunIds(h.lists.tunnels), NoteIds(h.lists.resolved));
    assert item in QuickItems(MapIds(h.peers), NoteIds(h.lists.pending), NoteIds(h.lists.lookups));
  }

  /** The peers after the deletion of an item. */
  lemma CutPeersOk(h: Hub, item: Item)
    requires SeqsOk(h.peers) && PortsOk(h.net.ports, h.peers)
    ensures var peers := DelItem(h, item).peers;
      && SeqsOk(peers) && PortsOk(h.net.ports, peers) && peers.Keys == h.peers.Keys
      && MapIds(peers) == Left(MapIds(h.peers), item, item.MapItem?)
  {
    hide SeqsOk, PortsOk, MapIds, CutMapping;
    if item.MapItem? { CutMappingOk(h.peers, h.net.ports, item.id); }
  }

  lemma IdsWithout(h: Hub, g: Hub)
    requires IdsOk(h) && g.nextId >= h.nextId && g.net.ports.Keys <= h.net.ports.Keys && g.peers.Keys <= h.peers.Keys
    requires DistinctTunnels(g.lists.tunnels) && forall t <- g.lists.tunnels :: t in h.lists.tunnels
    requires MapIds(g.peers) <= MapIds(h.peers) && NoteIds(g.lists.resolved) <= NoteIds(h.lists.resolved)
    requires NoteIds(g.lists.pending) <= NoteIds(h.lists.pending) && NoteIds(g.lists.lookups) <= NoteIds(h.lists.lookups)
    ensures IdsOk(g)
  {
    hide MapIds, NoteIds, DistinctTunnels;
    assert forall t <- TunIds(g.lists.tunnels) :: t in TunIds(h.lists.tunnels);
  }

  lemma PointersWithout(h: Hub, item: Item)
    requires PointersOk(h) && SeqsOk(h.peers) && (item.MapItem? ==> Origin(item.id) in h.net.refs)
    ensures PointersOk(DelItem(h, item)) && SamePorts(h.net.ports, DelItem(h, item).net.ports)
  {
    var g := DelItem(h, item);
    DropPointersOk(h.net, item);
    DropRecordOk(h.lists, item);
    CutPeersOk(h, item);
    hide NetOk, PortsOk, Owned, SamePorts, TunIds, MapIds, NoteIds, DropPointers, DropRecord, CutMapping, SlotsOwned;
    PortsKept(h.net.ports, g.net.ports, g.peers);
    OwnedWithout(h.net.refs.Keys, TunIds(h.lists.tunnels), MapIds(h.peers), NoteIds(h.lists.resolved), item);
    assert g.net.refs.Keys == h.net.refs.Keys - SlotsOwned(item);
  }

  /** Deleting any queued item keeps every invariant: the counts of the ports, the order of the
      queues, the match of lists and queues. No assertion of the code fails. */
  lemma DelItemOk(h: Hub, item: Item)
    requires Inv(h) && item in AllItems(h.queues)
    ensures Inv(DelItem(h, item)) && SamePorts(h.net.ports, DelItem(h, item).net.ports)
    ensures DelItem(h, item).net.refs == h.net.refs - SlotsOwned(item)
  {
    var g := DelItem(h, item);
    if item.MapItem? { MapHasOrigin(h, item); }
    DropPointersOk(h.net, item);
    DropRecordOk(h.lists, item);
    CutPeersOk(h, item);
    hide NetOk, PortsOk, Owned, SamePorts, QueuesOk, IdsOk, SeqsOk, TunIds, MapIds, NoteIds, DropPointers, DropRecord, CutMapping, SlotsOwned, PointersOk;
    PointersWithout(h, item);
    DequeueOk(h.queues, h.lists, MapIds(h.peers), item);
    KeysKept(h.net.ports, g.net.ports);
    TunnelsDistinct(h);
    IdsWithout(h, g);
  }

  lemma TunnelsDistinct(h: Hub)
    requires IdsOk(h)
    ensures DistinctTunnels(h.lists.tunnels)
  {
  }

  lemma KeysKept(a: map<nat, Port>, b: map<nat, Port>)
    requires SamePorts(a, b)
    ensures a.Keys == b.Keys
  {
  }
}
