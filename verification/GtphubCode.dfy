/** The loops of the GTP hub over its lists and queues (src/gtphub/gtphub.c:601-648, 669-679, 728-751,
    1250-1356, 1370-1390, 1862-1900, 2377-2420), against what they are to compute. */
module GtphubCode {
  import opened GtphubState
  import opened GtphubTei
  import opened GtphubOps
  import opened GtphubSeq
  import opened GtphubEvents
  import opened GtphubExpiry

  /** An item is gone: it is queued nowhere, exactly its own pointers went, and every invariant holds. */
  ghost predicate Deleted(h: Hub, g: Hub, item: Item) {
    && Inv(g) && item !in AllItems(g.queues)
    && g.net.refs == h.net.refs - SlotsOwned(item) && SamePorts(h.net.ports, g.net.ports)
  }

  lemma ItemDeleted(h: Hub, item: Item)
    ensures Inv(h) && item in AllItems(h.queues) ==> Deleted(h, DelItem(h, item), item)
  {
    hide Inv, SlotsOwned, SamePorts, DropPointers, DropRecord, CutMapping;
    RemoveMembers(h.queues.quick, item);
    RemoveMembers(h.queues.slow, item);
    if Inv(h) && item in AllItems(h.queues) { DelItemOk(h, item); }
  }

  class GtpHub {
    var peers: map<nat, Peer>
    var net: Net
    var lists: Lists
    var queues: Queues
    var teiLast: nat
    var nextId: nat

    constructor (now: nat)
      ensures State() == Hub(map[], Net(map[], map[], false), Lists([], [], [], []), Queues([], [], now, false), TEI_MAX, 0)
    {
      peers, net, lists := map[], Net(map[], map[], false), Lists([], [], [], []);
      queues, teiLast, nextId := Queues([], [], now, false), TEI_MAX, 0;
    }

    function State(): Hub
      reads this
    {
      Hub(peers, net, lists, queues, teiLast, nextId)
    }

    /** gtphub_port_ref_count_dec with the pointer cleared, and gtphub_port_ref_count_inc with the pointer set, as in
        gtphub_tunnel_endpoint_set_peer: afterwards every port is pointed to as often as it counts. */
    method SetPeer(s: Slot, target: Option<nat>)
      modifies `net
      ensures net == SetRef(old(net), s, target)
      ensures NetOk(old(net)) && (target.Some? ==> target.value in old(net.ports)) ==>
        && NetOk(net) && SamePorts(old(net.ports), net.ports)
        && net.refs == if target.Some? then old(net.refs)[s := target.value] else old(net.refs) - {s}
    {
      if NetOk(net) && (target.Some? ==> target.value in net.ports) { SetRefOk(net, s, target); }
      hide NetOk, SamePorts;
      if s in net.refs {
        var p := net.refs[s];
        if p !in net.ports || net.ports[p].refCount == 0 {
          net := net.(refs := net.refs - {s}, failed := true);
        } else {
          net := net.(ports := net.ports[p := net.ports[p].(refCount := net.ports[p].refCount - 1)], refs := net.refs - {s});
        }
      }
      if target.Some? {
        var p := target.value;
        if p !in net.ports {
          net := net.(failed := true);
        } else {
          net := net.(ports := net.ports[p := net.ports[p].(refCount := net.ports[p].refCount + 1)], refs := net.refs[s := p]);
        }
      }
    }

    /** The call back of an item: a tunnel gives up its four endpoints, a mapping its origin, which it must have, and its
        place in the map, a resolved GGSN its peer; then the record leaves its list. */
    method DelCallBack(item: Item)
      modifies `net, `peers, `lists
      ensures net == DropPointers(old(net), item) && lists == DropRecord(old(lists), item)
      ensures peers == if item.MapItem? then CutMapping(old(peers), item.id) else old(peers)
    {
      hide Unref, CutMapping;
      match item {
        case TunItem(t) =>
          SetPeer(Endpoint(t, SGSN_CTRL), None);
          SetPeer(Endpoint(t, SGSN_USER), None);
          SetPeer(Endpoint(t, GGSN_CTRL), None);
          SetPeer(Endpoint(t, GGSN_USER), None);
          lists := lists.(tunnels := WithoutTunnel(lists.tunnels, t));
        case MapItem(m) =>
          peers := CutMapping(peers, m);
          if Origin(m) in net.refs { SetPeer(Origin(m), None); } else { net := net.(failed := true); }
        case ResItem(r) =>
          SetPeer(ResolvedPeer(r), None);
          lists := lists.(resolved := WithoutNote(lists.resolved, r));
        case PendItem(p) => lists := lists.(pending := WithoutNote(lists.pending, p));
        case LookupItem(k) => lists := lists.(lookups := WithoutNote(lists.lookups, k));
      }
    }

    /** expiring_item_del: the item is out of its queue before its call back runs. Afterwards it is queued and listed
        nowhere, exactly its own pointers are gone, and all counts are right. */
    method ItemDel(item: Item)
      modifies this
      ensures State() == DelItem(old(State()), item)
      ensures Inv(old(State())) && item in AllItems(old(queues)) ==> Deleted(old(State()), State(), item)
    {
      ItemDeleted(State(), item);
      hide Inv, AllItems, Deleted, DropPointers, DropRecord, CutMapping, Remove;
      queues := queues.(quick := Remove(queues.quick, item), slow := Remove(queues.slow, item));
      DelCallBack(item);
    }

    method ExpiryTick(slow: bool, now: nat) returns (expired: nat)
      modifies this
      ensures (State(), expired) == Tick(old(State()), slow, now)
    {
      hide DelItem;
      expired := 0;
      while QueueOf(queues, slow) != [] && QueueOf(queues, slow)[0].at <= now
        invariant var all, rest := Tick(old(State()), slow, now), Tick(State(), slow, now);
          all == (rest.0, rest.1 + expired)
        decreases |QueueOf(queues, slow)|
      {
        RemoveFirst(QueueOf(queues, slow));
        DelShortens(State(), slow);
        ItemDel(QueueOf(queues, slow)[0].item);
        expired := expired + 1;
      }
    }

    method ExpiryClear(slow: bool)
      modifies this
      ensures State() == Clear(old(State()), slow)
    {
      hide DelItem;
      while QueueOf(queues, slow) != []
        invariant Clear(old(State()), slow) == Clear(State(), slow)
        decreases |QueueOf(queues, slow)|
      {
        DelShortens(State(), slow);
        ItemDel(QueueOf(queues, slow)[0].item);
      }
    }

    /** The code deletes stale tunnels and looks for an unused TEI in one pass over the list; what comes
        out is that of doing the one after the other. It gives up in the middle of the list when no TEI
        can be found. */
    method CheckReusedTeis(n: Tunnel) returns (ok: bool)
      requires Inv(State()) && n in lists.tunnels
      modifies this
      ensures var r := CheckReused(old(State()), n); (ok <==> r.Some?) && (ok ==> State() == r.value)
    {
      ghost var h, all := State(), lists.tunnels;
      var ts := lists.tunnels;
      var p := Pick(n.teiRepl, TEI_MAX, NO_RANGE_YET);
      TunnelsDistinct(h) by { InvHasIds(h); }
      hide Inv, SharesAny, DelItem, Pass, DistinctTunnels, CheckMapped, CheckReused;
      PassWhole(h, n);
      while ts != []
        invariant p.Pick? && Inv(State()) && DistinctTunnels(ts) && forall x <- ts :: x in lists.tunnels
        invariant Pass(h, all, n, Pick(n.teiRepl, TEI_MAX, NO_RANGE_YET)) == Pass(State(), ts, n, p)
        decreases |ts|
      {
        var x := ts[0];
        HeadOf(ts);
        PassStep(State(), ts, n, p);
        if x.id != n.id {
          if SharesAny(State(), x, n) {
            ItemDel(TunItem(x.id));
          } else {
            p := CheckMapped(p, x.teiRepl);
            if p.Exhausted? { return false; }
          }
        }
        ts := ts[1..];
      }
      PassEnd(State(), n, p);
      lists := lists.(tunnels := WithTunnel(lists.tunnels, n.(teiRepl := p.repl, checked := true)));
      ok := true;
    }

    method UnmapTei(b: Bind, tei: nat, from: Option<Addr>) returns (found: Option<Tunnel>)
      modifies this
      ensures found == FindTunnel(old(State()), old(lists.tunnels), b, tei, from)
      ensures State() == if found.Some? then RefreshTunnel(old(State()), found.value.id) else old(State())
    {
      hide AddrAt, Enqueue;
      var i := 0;
      assert lists.tunnels[0..] == lists.tunnels;
      while i < |lists.tunnels|
        invariant 0 <= i <= |lists.tunnels| && State() == old(State())
        invariant FindTunnel(State(), lists.tunnels, b, tei, from) == FindTunnel(State(), lists.tunnels[i..], b, tei, from)
      {
        var t := lists.tunnels[i];
        assert lists.tunnels[i..][1..] == lists.tunnels[i + 1..];
        if t.teiRepl == tei && AddrAt(State(), Endpoint(t.id, b)).Some? && AddrAt(State(), Endpoint(t.id, b)) == from {
          queues := Enqueue(queues, true, TunItem(t.id));
          return Some(t);
        }
        i := i + 1;
      }
      found := None;
    }

    /** One side of one tunnel: if the restarted peer stands there and the other side has announced a control TEI, the
        other side is sent a delete request, with a number from its pool, and this side is made unusable. */
    method RestartOneSide(t: Tunnel, side: Side, peer: nat)
      modifies this
      ensures State() == RestartSide(old(State()), t, side, peer)
    {
      hide SetRef;
      var ctrl, other := Endpoint(t.id, Bind(side, Ctrl)), Bind(OtherSide(side), Ctrl);
      if ctrl !in net.refs || TeiOf(t, other) == 0 { return; }
      if net.refs[ctrl] !in net.ports || net.ports[net.refs[ctrl]].peer != peer { return; }
      var to := Endpoint(t.id, other);
      if to in net.refs && net.refs[to] in net.ports && net.ports[net.refs[to]].peer in peers {
        var q := net.ports[net.refs[to]].peer;
        peers := peers[q := Draw(peers[q])];
      }
      SetPeer(ctrl, None);
      SetPeer(Endpoint(t.id, Bind(side, User)), None);
    }

    /** gtphub_restarted: both sides of every tunnel. The pointers that go are exactly the endpoints on sides where the
        peer stood. */
    method Restarted(peer: nat)
      modifies this
      ensures State() == RestartTunnels(old(State()), old(lists.tunnels), peer)
      ensures Inv(old(State())) ==>
        Inv(State()) && forall s :: s in net.refs <==> s in old(net.refs) && !Taken(old(State()), s, peer)
    {
      if Inv(State()) {
        RestartClears(State(), peer);
        RestartTunnelsOk(State(), lists.tunnels, peer);
        KeepsInv(State(), RestartTunnels(State(), lists.tunnels, peer));
      }
      hide RestartSide, Inv, Taken;
      var ts := lists.tunnels;
      var i := 0;
      assert ts[0..] == ts;
      while i < |ts|
        invariant 0 <= i <= |ts|
        invariant RestartTunnels(old(State()), ts, peer) == RestartTunnels(State(), ts[i..], peer)
      {
        assert ts[i..][1..] == ts[i + 1..];
        RestartOneSide(ts[i], Sgsn, peer);
        RestartOneSide(ts[i], Ggsn, peer);
        i := i + 1;
      }
    }

    /** Deletes every port nobody points to. */
    method GcPorts()
      modifies `net
      ensures net == CollectPorts(old(net))
    {
      ghost var was := net;
      var ports: map<nat, Port> := map[];
      var todo := net.ports.Keys;
      while todo != {}
        invariant todo <= net.ports.Keys && net == was
        invariant ports.Keys == set p | p in net.ports && p !in todo && net.ports[p].refCount != 0
        invariant forall p <- ports :: p in net.ports && ports[p] == net.ports[p]
        decreases |todo|
      {
        var p :| p in todo;
        if net.ports[p].refCount != 0 { ports := ports[p := net.ports[p]]; }
        todo := todo - {p};
      }
      net := net.(ports := ports);
      assert net.ports == CollectPorts(was).ports;
    }

    /** Deletes every address without ports, and every peer without address and mappings. */
    method GcPeers()
      modifies `peers
      ensures peers == CollectPeers(old(peers), net.ports)
    {
      hide HasPorts;
      ghost var was := peers;
      var kept: map<nat, Peer> := map[];
      var left := peers.Keys;
      while left != {}
        invariant left <= peers.Keys && peers == was
        invariant kept.Keys == set q | q in peers && q !in left && (HasPorts(net.ports, q) || peers[q].maps != [])
        invariant forall q <- kept :: q in peers && kept[q] == peers[q].(addr := if HasPorts(net.ports, q) then peers[q].addr else None)
        decreases |left|
      {
        var q :| q in left;
        var some := HasPorts(net.ports, q);
        if some || peers[q].maps != [] {
          kept := kept[q := peers[q].(addr := if some then peers[q].addr else None)];
        }
        left := left - {q};
      }
      peers := kept;
      assert peers == CollectPeers(was, net.ports);
    }

    /** gtphub_gc_bind over all sockets: ports, then addresses, then peers. */
    method GcBinds()
      modifies this
      ensures State() == Collect(old(State()))
    {
      GcPorts();
      GcPeers();
    }

    method GtphubGc(now: nat)
      modifies this
      ensures State() == Gc(old(State()), now)
    {
      hide Tick, Collect;
      var expired := ExpiryTick(false, now);
      var more := ExpiryTick(true, now);
      expired := expired + more;
      if expired > 0 { GcBinds(); }
    }

    method GtphubFree()
      modifies this
      ensures State() == Free(old(State()))
    {
      hide Clear, Collect;
      ExpiryClear(false);
      ExpiryClear(true);
      GcBinds();
    }
  }

  lemma DelShortens(h: Hub, slow: bool)
    requires QueueOf(h.queues, slow) != []
    ensures var q := QueueOf(h.queues, slow); |QueueOf(DelItem(h, q[0].item).queues, slow)| < |q|
  {
    RemoveFirst(QueueOf(h.queues, slow));
  }

  lemma InvHasIds(h: Hub)
    requires Inv(h)
    ensures IdsOk(h)
  {
  }

  /** Both passes over the rest of the list. */
  ghost function Pass(h: Hub, ts: seq<Tunnel>, n: Tunnel, p: Pick): (Hub, Pick) {
    (DropStale(h, ts, n), PickTei(p, OtherTeis(h, ts, n)))
  }

  lemma PassWhole(h: Hub, n: Tunnel)
    ensures var r := Pass(h, h.lists.tunnels, n, Pick(n.teiRepl, TEI_MAX, NO_RANGE_YET));
      CheckReused(h, n) == if r.1.Exhausted? then None else Some(PutTunnel(r.0, n.(teiRepl := r.1.repl, checked := true)))
  {
    hide DropStale, PickTei, OtherTeis, PutTunnel;
  }

  lemma PassUnfold(h: Hub, x: Tunnel, rest: seq<Tunnel>, n: Tunnel, p: Pick)
    requires p.Pick?
    ensures var stale := x.id != n.id && SharesAny(h, x, n); var taken := x.id != n.id && !SharesAny(h, x, n);
      && DropStale(h, [x] + rest, n) == DropStale(if stale then DelItem(h, TunItem(x.id)) else h, rest, n)
      && PickTei(p, OtherTeis(h, [x] + rest, n)) == PickTei(if taken then CheckMapped(p, x.teiRepl) else p, OtherTeis(h, rest, n))
  {
    hide SharesAny, DelItem, CheckMapped;
    assert ([x] + rest)[1..] == rest;
    var others := OtherTeis(h, rest, n);
    assert [] + others == others && ([x.teiRepl] + others)[1..] == others;
  }

  /** One step of the two passes. */
  lemma PassStep(h: Hub, ts: seq<Tunnel>, n: Tunnel, p: Pick)
    requires p.Pick? && ts != [] && Inv(h) && DistinctTunnels(ts) && forall x <- ts :: x in h.lists.tunnels
    ensures var x, rest := ts[0], ts[1..];
      if x.id == n.id then Pass(h, ts, n, p) == Pass(h, rest, n, p)
      else if SharesAny(h, x, n) then
        var d := DelItem(h, TunItem(x.id));
        Pass(h, ts, n, p) == Pass(d, rest, n, p) && Inv(d) && forall y <- rest :: y in d.lists.tunnels
      else
        var q := CheckMapped(p, x.teiRepl);
        Pass(h, ts, n, p) == Pass(h, rest, n, q) && (q.Exhausted? ==> Pass(h, ts, n, p).1.Exhausted?)
  {
    var x, rest := ts[0], ts[1..];
    hide Inv, SharesAny, DelItem, DropStale, PickTei, OtherTeis, CheckMapped, DistinctTunnels;
    HeadOf(ts);
    PassUnfold(h, x, rest, n, p);
    if x.id != n.id {
      if SharesAny(h, x, n) { StaleGone(h, x, rest, n); }
      else if CheckMapped(p, x.teiRepl).Exhausted? { PickDone(CheckMapped(p, x.teiRepl), OtherTeis(h, rest, n)); }
    }
  }

  lemma PassEnd(h: Hub, n: Tunnel, p: Pick)
    ensures Pass(h, [], n, p) == (h, p)
  {
  }

  lemma PickDone(p: Pick, teis: seq<nat>)
    requires p.Exhausted?
    ensures PickTei(p, teis).Exhausted?
  {
  }

  lemma HeadOf(ts: seq<Tunnel>)
    requires ts != [] && DistinctTunnels(ts)
    ensures ts == [ts[0]] + ts[1..] && ts[0] in ts && DistinctTunnels(ts[1..])
    ensures forall y <- ts[1..] :: y in ts && y.id != ts[0].id
  {
    DistinctHead(ts);
  }

  /** Deleting a stale tunnel: the others of the list stay, and so does what they share. */
  lemma StaleGone(h: Hub, x: Tunnel, rest: seq<Tunnel>, n: Tunnel)
    requires Inv(h) && x in h.lists.tunnels && n.id != x.id && forall y <- rest :: y in h.lists.tunnels && y.id != x.id
    ensures var d := DelItem(h, TunItem(x.id));
      Inv(d) && (forall y <- rest :: y in d.lists.tunnels) && OtherTeis(d, rest, n) == OtherTeis(h, rest, n)
  {
    hide Inv, SharesAny, DelItem, OtherTeis, AllItems;
    TunnelQueued(h, x);
    DelItemOk(h, TunItem(x.id));
    TunnelsLeft(h, x.id);
    OtherTeisStable(h, x.id, rest, n);
  }

  /** A deletion does not change which of the other tunnels are stale. */
  lemma {:induction false} OtherTeisStable(h: Hub, y: nat, ts: seq<Tunnel>, n: Tunnel)
    requires Inv(h) && TunItem(y) in AllItems(h.queues) && n.id != y && forall x <- ts :: x.id != y
    ensures OtherTeis(DelItem(h, TunItem(y)), ts, n) == OtherTeis(h, ts, n)
  {
    hide Inv, DelItem, SharesAny, AllItems;
    if ts != [] {
      SharesStable(h, y, ts[0], n);
      OtherTeisStable(h, y, ts[1..], n);
    }
  }

  // ---- Number pools and maps ----

  /** nr_pool_next. */
  method PoolNext(last: nat, least: nat, greatest: nat) returns (next: nat)
    requires least <= last <= greatest
    ensures next == if last >= greatest then least else last + 1
    ensures least <= next <= greatest
  {
    if last >= greatest { next := least; } else { next := last + 1; }
  }

  method NrMapGet(refs: map<Slot, nat>, maps: seq<Mapping>, from: nat, orig: nat) returns (m: Option<Mapping>)
    ensures m == MapGet(refs, maps, from, orig)
  {
    assert maps[0..] == maps;
    for i := 0 to |maps|
      invariant MapGet(refs, maps, from, orig) == MapGet(refs, maps[i..], from, orig)
    {
      assert maps[i..][1..] == maps[i + 1..];
      if Origin(maps[i].id) in refs && refs[Origin(maps[i].id)] == from && maps[i].orig == orig { return Some(maps[i]); }
    }
    m := None;
  }

  method NrMapGetInv(maps: seq<Mapping>, repl: nat) returns (m: Option<Mapping>)
    ensures m == MapGetInv(maps, repl)
  {
    assert maps[0..] == maps;
    for i := 0 to |maps|
      invariant MapGetInv(maps, repl) == MapGetInv(maps[i..], repl)
    {
      assert maps[i..][1..] == maps[i + 1..];
      if maps[i].repl == repl { return Some(maps[i]); }
    }
    m := None;
  }
}
