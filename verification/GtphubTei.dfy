/** Replacement TEIs of the GTP hub: the check that a tunnel's endpoints and its replacement TEI are its
    own (gtphub_check_mapped_tei, gtphub_check_reused_teis, src/gtphub/gtphub.c:1250-1356). */
module GtphubTei {
  import opened GtphubState

  /** The address behind a pointer. */
  function AddrAt(h: Hub, s: Slot): Option<Addr> {
    if s in h.net.refs && h.net.refs[s] in h.net.ports && h.net.ports[h.net.refs[s]].peer in h.peers
    then h.peers[h.net.ports[h.net.refs[s]].peer].addr
    else None
  }

  /** The tunnels have the same peer address and TEI at an endpoint. */
  predicate Shares(h: Hub, x: Tunnel, n: Tunnel, b: Bind) {
    && TeiOf(x, b) != 0 && TeiOf(x, b) == TeiOf(n, b)
    && AddrAt(h, Endpoint(x.id, b)).Some? && AddrAt(h, Endpoint(x.id, b)) == AddrAt(h, Endpoint(n.id, b))
  }

  predicate SharesAny(h: Hub, x: Tunnel, n: Tunnel) {
    Shares(h, x, n, SGSN_CTRL) || Shares(h, x, n, SGSN_USER) || Shares(h, x, n, GGSN_CTRL) || Shares(h, x, n, GGSN_USER)
  }

  // ---- Finding an unused TEI ----

  /** What is known of the TEIs seen so far: their least and greatest, and the number picked. */
  datatype Pick = Pick(repl: nat, min: nat, max: nat) | Exhausted

  /** One comparison; a taken number is replaced by one above the known range, else below it. */
  function CheckMapped(p: Pick, tei: nat): Pick
    requires p.Pick?
  {
    if p.repl == 0 || tei == 0 then p
    else
      var min, max := if p.min < tei then p.min else tei, if p.max > tei then p.max else tei;
      if p.repl != tei then Pick(p.repl, min, max)
      else if max < TEI_MAX then Pick(max + 1, min, max + 1)
      else if min > 1 then Pick(min - 1, min - 1, max)
      else Exhausted
  }

  function PickTei(p: Pick, teis: seq<nat>): Pick
    decreases |teis|
  {
    if teis == [] || p.Exhausted? then p else PickTei(CheckMapped(p, teis[0]), teis[1..])
  }

  /** The number picked is in range and differs from all those seen. */
  lemma {:induction false} PickFresh(p: Pick, teis: seq<nat>, seen: set<nat>)
    requires p.Pick? && 1 <= p.repl <= TEI_MAX && p.repl !in seen && p.min >= 1
    requires (forall x <- seen :: p.min <= x <= p.max) && forall x <- teis :: 1 <= x <= TEI_MAX
    ensures var r := PickTei(p, teis); r.Pick? ==> 1 <= r.repl <= TEI_MAX && r.repl !in seen && r.repl !in teis
    decreases |teis|
  {
    if teis != [] {
      assert teis[0] in teis && forall x <- teis[1..] :: x in teis;
      var q := CheckMapped(p, teis[0]);
      if q.Pick? { PickFresh(q, teis[1..], seen + {teis[0]}); }
    }
  }

  /** What is known of the TEIs `met` so far: the number picked is not among those met since, and the range is that of the
      numbers met, but for the number picked. */
  ghost predicate Ranged(p: Pick, met: set<nat>) {
    && p.Pick? && 1 <= p.repl <= TEI_MAX && (forall x <- met :: 1 <= x <= TEI_MAX && p.min <= x <= p.max)
    && (if met == {} then p.min == TEI_MAX && p.max == NO_RANGE_YET
        else (p.min in met || p.min == p.repl) && (p.max in met || p.max == p.repl))
  }

  /** The least and the greatest TEI were both met. */
  predicate BothEnds(met: set<nat>) { 1 in met && TEI_MAX in met }

  lemma CheckMappedExact(p: Pick, met: set<nat>, tei: nat)
    requires Ranged(p, met) && 1 <= tei <= TEI_MAX
    ensures var q := CheckMapped(p, tei);
      (q.Exhausted? <==> tei == p.repl && BothEnds(met + {tei})) && (q.Pick? ==> Ranged(q, met + {tei}))
  {
    var min, max := if p.min < tei then p.min else tei, if p.max > tei then p.max else tei;
    assert min in met + {tei} || min == p.repl;
    assert max in met + {tei} || max == p.repl;
  }

  function SetOf(teis: seq<nat>): set<nat> { set x <- teis }

  /** At entry `k` the number picked so far is taken, and both ends were met by then. */
  ghost predicate StuckAt(p: Pick, met: set<nat>, teis: seq<nat>, k: nat) {
    k < |teis| && var q := PickTei(p, teis[..k]); q.Pick? && q.repl == teis[k] && BothEnds(met + SetOf(teis[..k + 1]))
  }

  ghost predicate Stuck(p: Pick, met: set<nat>, teis: seq<nat>) { exists k: nat :: StuckAt(p, met, teis, k) }

  lemma StuckSome(p: Pick, met: set<nat>, teis: seq<nat>, k: nat)
    requires StuckAt(p, met, teis, k)
    ensures Stuck(p, met, teis)
  {
    hide StuckAt;
  }

  lemma StuckWhere(p: Pick, met: set<nat>, teis: seq<nat>) returns (k: nat)
    requires Stuck(p, met, teis)
    ensures StuckAt(p, met, teis, k) && k < |teis|
  {
    k :| StuckAt(p, met, teis, k);
  }

  /** The search gives up exactly if some entry is the number picked from those before it, with both ends of the range
      among the entries up to it; how many numbers are free plays no part. */
  lemma {:induction false} PickFails(p: Pick, met: set<nat>, teis: seq<nat>)
    requires Ranged(p, met) && forall x <- teis :: 1 <= x <= TEI_MAX
    ensures PickTei(p, teis).Exhausted? <==> Stuck(p, met, teis)
    decreases |teis|
  {
    hide Ranged, CheckMapped, BothEnds, Stuck;
    RangedPick(p, met);
    if teis == [] {
      if Stuck(p, met, teis) {
        var _ := StuckWhere(p, met, teis);
      }
    } else {
      assert teis[0] in teis && forall x <- teis[1..] :: x in teis;
      CheckMappedExact(p, met, teis[0]);
      var q, more := CheckMapped(p, teis[0]), met + {teis[0]};
      assert teis[..1] == [teis[0]] && teis[..0] == [];
      assert met + SetOf(teis[..1]) == more;
      assert StuckAt(p, met, teis, 0) <==> q.Exhausted?;
      if q.Pick? {
        PickFails(q, more, teis[1..]);
        if Stuck(p, met, teis) {
          var k := StuckWhere(p, met, teis);
          StuckShift(p, met, teis, q, k - 1);
          StuckSome(q, more, teis[1..], k - 1);
        }
        if Stuck(q, more, teis[1..]) {
          var k := StuckWhere(q, more, teis[1..]);
          StuckShift(p, met, teis, q, k);
          StuckSome(p, met, teis, k + 1);
        }
      } else {
        PickStops(teis[1..]);
        StuckSome(p, met, teis, 0);
      }
    }
  }

  lemma RangedPick(p: Pick, met: set<nat>)
    requires Ranged(p, met)
    ensures p.Pick?
  {
  }

  lemma PickStops(teis: seq<nat>)
    ensures PickTei(Exhausted, teis) == Exhausted
  {
  }

  lemma StuckShift(p: Pick, met: set<nat>, teis: seq<nat>, q: Pick, k: nat)
    requires p.Pick? && teis != [] && q == CheckMapped(p, teis[0])
    ensures StuckAt(q, met + {teis[0]}, teis[1..], k) <==> StuckAt(p, met, teis, k + 1)
  {
    hide CheckMapped, BothEnds;
    if k < |teis| - 1 {
      assert teis[1..][..k] == teis[..k + 1][1..];
      assert teis[..k + 2] == [teis[0]] + teis[1..][..k + 1];
      assert met + SetOf(teis[..k + 2]) == met + {teis[0]} + SetOf(teis[1..][..k + 1]);
    }
  }

  /** Three TEIs are enough. */
  lemma ThreeSuffice(repl: nat)
    requires 1 < repl < TEI_MAX
    ensures PickTei(Pick(repl, TEI_MAX, NO_RANGE_YET), [1, TEI_MAX, repl]).Exhausted?
  {
    var p := Pick(repl, TEI_MAX, NO_RANGE_YET);
    var teis := [1, TEI_MAX, repl];
    PickFails(p, {}, teis);
    assert teis[..2] == [1, TEI_MAX] && teis[..3] == teis;
    var q, r := Pick(repl, 1, 1), Pick(repl, 1, TEI_MAX);
    assert CheckMapped(p, 1) == q && CheckMapped(q, TEI_MAX) == r;
    assert [1, TEI_MAX][1..] == [TEI_MAX] && [TEI_MAX][1..] == [];
    assert PickTei(r, []) == r;
    assert PickTei(q, [TEI_MAX]) == r;
    StuckSome(p, {}, teis, 2);
  }

  // ---- Deleting stale tunnels ----

  /** Every other tunnel that shares an endpoint with `n` is stale, and is deleted. */
  function DropStale(h: Hub, ts: seq<Tunnel>, n: Tunnel): Hub
    decreases |ts|
  {
    if ts == [] then h
    else DropStale(if ts[0].id != n.id && SharesAny(h, ts[0], n) then DelItem(h, TunItem(ts[0].id)) else h, ts[1..], n)
  }

  /** The replacement TEIs of the tunnels that are not stale, in the order of the list. */
  function OtherTeis(h: Hub, ts: seq<Tunnel>, n: Tunnel): seq<nat> {
    if ts == [] then []
    else (if ts[0].id != n.id && !SharesAny(h, ts[0], n) then [ts[0].teiRepl] else []) + OtherTeis(h, ts[1..], n)
  }

  /** The list with the record of a tunnel changed. */
  function WithTunnel(ts: seq<Tunnel>, x: Tunnel): seq<Tunnel> {
    if ts == [] then [] else [if ts[0].id == x.id then x else ts[0]] + WithTunnel(ts[1..], x)
  }

  function PutTunnel(h: Hub, x: Tunnel): Hub {
    h.(lists := h.lists.(tunnels := WithTunnel(h.lists.tunnels, x)))
  }

  const NO_RANGE_YET := 0

  /** gtphub_check_reused_teis; without a result the program is stopped by its caller. */
  function CheckReused(h: Hub, n: Tunnel): Option<Hub> {
    var picked := PickTei(Pick(n.teiRepl, TEI_MAX, NO_RANGE_YET), OtherTeis(h, h.lists.tunnels, n));
    if picked.Exhausted? then None
    else
      var g := DropStale(h, h.lists.tunnels, n);
      Some(PutTunnel(g, n.(teiRepl := picked.repl, checked := true)))
  }

  /** When the check stops the program. */
  lemma CheckReusedFails(h: Hub, n: Tunnel)
    requires Inv(h) && n in h.lists.tunnels
    ensures CheckReused(h, n).None? <==> Stuck(Pick(n.teiRepl, TEI_MAX, NO_RANGE_YET), {}, OtherTeis(h, h.lists.tunnels, n))
  {
    var p, teis := Pick(n.teiRepl, TEI_MAX, NO_RANGE_YET), OtherTeis(h, h.lists.tunnels, n);
    TeisInRange(h);
    OtherTeisAre(h, h.lists.tunnels, n);
    hide Inv, SharesAny, DropStale, OtherTeis, PickTei, WithTunnel, Stuck;
    PickFails(p, {}, teis);
  }

  /** Deleting a third tunnel does not change what two tunnels share. */
  lemma SharesStable(h: Hub, y: nat, x: Tunnel, n: Tunnel)
    requires Inv(h) && TunItem(y) in AllItems(h.queues) && x.id != y && n.id != y
    ensures SharesAny(DelItem(h, TunItem(y)), x, n) == SharesAny(h, x, n)
  {
    hide Inv, DelItem, AllItems, SharesAny;
    forall b: Bind
      ensures AddrAt(DelItem(h, TunItem(y)), Endpoint(x.id, b)) == AddrAt(h, Endpoint(x.id, b))
      ensures AddrAt(DelItem(h, TunItem(y)), Endpoint(n.id, b)) == AddrAt(h, Endpoint(n.id, b))
    {
      AddrStable(h, y, Endpoint(x.id, b));
      AddrStable(h, y, Endpoint(n.id, b));
    }
    SameShares(h, DelItem(h, TunItem(y)), x, n, n);
  }

  lemma SameShares(h: Hub, g: Hub, x: Tunnel, n: Tunnel, m: Tunnel)
    requires forall b: Bind :: AddrAt(g, Endpoint(x.id, b)) == AddrAt(h, Endpoint(x.id, b))
    requires forall b: Bind :: AddrAt(g, Endpoint(n.id, b)) == AddrAt(h, Endpoint(n.id, b))
    requires n.id == m.id && n.teiOrig == m.teiOrig
    ensures SharesAny(g, x, m) == SharesAny(h, x, n)
  {
    hide AddrAt;
  }

  lemma AddrStable(h: Hub, y: nat, s: Slot)
    requires Inv(h) && TunItem(y) in AllItems(h.queues) && s !in EndpointsOf(y)
    ensures AddrAt(DelItem(h, TunItem(y)), s) == AddrAt(h, s)
  {
    DelItemOk(h, TunItem(y));
    hide Inv, DropPointers, DropRecord, Dequeue, AllItems, EndpointsOf;
  }

  lemma TunnelQueued(h: Hub, x: Tunnel)
    requires Inv(h) && x in h.lists.tunnels
    ensures TunItem(x.id) in AllItems(h.queues)
  {
    hide PointersOk, IdsOk, TeisOk, SeqsOk, NoteIds, MapIds, Items;
    assert TunItem(x.id) in SlowItems(TunIds(h.lists.tunnels), NoteIds(h.lists.resolved));
  }

  lemma TunnelsLeft(h: Hub, y: nat)
    ensures forall x :: x in DelItem(h, TunItem(y)).lists.tunnels <==> x in h.lists.tunnels && x.id != y
  {
    DropRecordOk(h.lists, TunItem(y));
  }

  /** Exactly the tunnels in the list that share an endpoint with `n` go. */
  lemma {:induction false} DropStaleExact(h: Hub, ts: seq<Tunnel>, n: Tunnel)
    requires Inv(h) && DistinctTunnels(ts) && forall x <- ts :: x in h.lists.tunnels
    ensures var g := DropStale(h, ts, n);
      && Inv(g) && g.nextId == h.nextId && g.teiLast == h.teiLast && g.queues.clock == h.queues.clock
      && (forall x :: x in g.lists.tunnels <==> x in h.lists.tunnels && !(x in ts && x.id != n.id && SharesAny(h, x, n)))
      && (forall x | x in g.lists.tunnels && x.id != n.id :: SharesAny(g, x, n) == SharesAny(h, x, n))
    decreases |ts|
  {
    hide Inv, DelItem, SharesAny, AllItems, DistinctTunnels;
    if ts != [] {
      var x := ts[0];
      DistinctHead(ts);
      assert x in ts && forall y <- ts[1..] :: y in ts;
      if x.id != n.id && SharesAny(h, x, n) {
        var d := DelItem(h, TunItem(x.id));
        TunnelQueued(h, x);
        DelItemOk(h, TunItem(x.id));
        TunnelsLeft(h, x.id);
        DelItemRest(h, x.id);
        forall y: Tunnel | y.id != x.id ensures SharesAny(d, y, n) == SharesAny(h, y, n) {
          SharesStable(h, x.id, y, n);
        }
        DropStaleExact(d, ts[1..], n);
        SameNames(h, x);
      } else {
        DropStaleExact(h, ts[1..], n);
      }
      assert ts == [x] + ts[1..];
    }
  }

  lemma SameNames(h: Hub, x: Tunnel)
    requires Inv(h) && x in h.lists.tunnels
    ensures forall y | y in h.lists.tunnels && y.id == x.id :: y == x
  {
    forall y | y in h.lists.tunnels && y.id == x.id ensures y == x { SameTunnel(h.lists.tunnels, x, y); }
  }

  lemma DistinctHead(ts: seq<Tunnel>)
    requires DistinctTunnels(ts) && ts != []
    ensures DistinctTunnels(ts[1..]) && forall y <- ts[1..] :: y.id != ts[0].id
  {
    assert forall y <- ts[1..] :: y.id in TunIds(ts[1..]);
  }

  lemma DelItemRest(h: Hub, t: nat)
    ensures var g := DelItem(h, TunItem(t));
      g.nextId == h.nextId && g.teiLast == h.teiLast && g.queues.clock == h.queues.clock
  {
  }

  lemma {:induction false} OtherTeisAre(h: Hub, ts: seq<Tunnel>, n: Tunnel)
    ensures forall x | x in ts && x.id != n.id && !SharesAny(h, x, n) :: x.teiRepl in OtherTeis(h, ts, n)
    ensures forall r <- OtherTeis(h, ts, n) :: exists x <- ts :: x.teiRepl == r && x.id != n.id && !SharesAny(h, x, n)
  {
    hide SharesAny;
    if ts != [] {
      OtherTeisAre(h, ts[1..], n);
      assert ts == [ts[0]] + ts[1..];
    }
  }

  lemma {:induction false} WithTunnelOk(ts: seq<Tunnel>, x: Tunnel)
    ensures var us := WithTunnel(ts, x);
      && TunIds(us) == TunIds(ts) && (DistinctTunnels(ts) ==> DistinctTunnels(us))
      && forall y :: y in us <==> if y.id == x.id then y == x && x.id in TunIds(ts) else y in ts
  {
    if ts != [] {
      WithTunnelOk(ts[1..], x);
      var us := WithTunnel(ts, x);
      assert us[1..] == WithTunnel(ts[1..], x);
      assert TunIds(us) == {us[0].id} + TunIds(us[1..]) && TunIds(ts) == {ts[0].id} + TunIds(ts[1..]);
      assert ts == [ts[0]] + ts[1..] && us == [us[0]] + us[1..];
    }
  }

  /** Changing a tunnel's record keeps the invariants, if its replacement TEI stays its own. */
  lemma PutTunnelOk(h: Hub, x: Tunnel)
    requires Inv(h) && 1 <= x.teiRepl <= TEI_MAX
    requires x.checked ==> forall y | y in h.lists.tunnels && y.id != x.id && y.checked :: y.teiRepl != x.teiRepl
    ensures Inv(PutTunnel(h, x))
  {
    var us := WithTunnel(h.lists.tunnels, x);
    var g := PutTunnel(h, x);
    WithTunnelOk(h.lists.tunnels, x);
    assert IdsOk(g) by { hide TunIds, MapIds, NoteIds, DistinctTunnels; }
    hide TunIds, MapIds, NoteIds, QueueOk, IdsOk, SeqsOk, NetOk, PortsOk, Owned, WithTunnel;
  }

  /** The tunnel's replacement TEI is its own, and no other tunnel shares an endpoint with it. */
  ghost predicate OwnTei(h: Hub, m: Tunnel) {
    && m in h.lists.tunnels && m.checked && 1 <= m.teiRepl <= TEI_MAX
    && forall x | x in h.lists.tunnels && x.id != m.id :: x.teiRepl != m.teiRepl && !SharesAny(h, x, m)
  }

  lemma OwnTeiPut(d: Hub, n: Tunnel, repl: nat)
    requires Inv(d) && n in d.lists.tunnels && 1 <= repl <= TEI_MAX
    requires forall x | x in d.lists.tunnels && x.id != n.id :: x.teiRepl != repl && !SharesAny(d, x, n)
    ensures var m := n.(teiRepl := repl, checked := true); var g := PutTunnel(d, m);
      && Inv(g) && OwnTei(g, m) && forall x: Tunnel | x.id != n.id :: x in g.lists.tunnels <==> x in d.lists.tunnels
  {
    var m := n.(teiRepl := repl, checked := true);
    var g := PutTunnel(d, m);
    hide Inv, SharesAny, WithTunnel;
    PutTunnelOk(d, m);
    WithTunnelOk(d.lists.tunnels, m);
    assert n.id in TunIds(d.lists.tunnels);
    forall x | x in g.lists.tunnels && x.id != n.id ensures x.teiRepl != repl && !SharesAny(g, x, m) {
      SameShares(d, g, x, n, m);
    }
  }

  /** When the check succeeds the tunnel's replacement TEI is not zero and differs from that of every
      surviving tunnel, no survivor shares an endpoint with it, and exactly the tunnels that did
      share one are gone. */
  lemma CheckReusedOk(h: Hub, n: Tunnel)
    requires Inv(h) && n in h.lists.tunnels && CheckReused(h, n).Some?
    ensures var g := CheckReused(h, n).value;
      && Inv(g) && g.nextId == h.nextId && g.teiLast == h.teiLast && g.queues.clock == h.queues.clock
      && (forall x: Tunnel | x.id != n.id :: x in g.lists.tunnels <==> x in h.lists.tunnels && !SharesAny(h, x, n))
      && exists repl :: OwnTei(g, n.(teiRepl := repl, checked := true))
  {
    var ts := h.lists.tunnels;
    var d := DropStale(h, ts, n);
    var teis := OtherTeis(h, ts, n);
    TunnelsDistinct(h);
    DropStaleExact(h, ts, n);
    OtherTeisAre(h, ts, n);
    TeisInRange(h);
    PickFresh(Pick(n.teiRepl, TEI_MAX, NO_RANGE_YET), teis, {});
    var repl := PickTei(Pick(n.teiRepl, TEI_MAX, NO_RANGE_YET), teis).repl;
    hide Inv, SharesAny, DropStale, OtherTeis, PickTei, WithTunnel;
    OwnTeiPut(d, n, repl);
  }

  lemma TeisInRange(h: Hub)
    requires Inv(h)
    ensures forall x <- h.lists.tunnels :: 1 <= x.teiRepl <= TEI_MAX
  {
    hide PointersOk, QueuesOk, IdsOk, SeqsOk;
  }
}
