/** Exactly which create messages take a tunnel's endpoint onto the address and TEI of another checked tunnel
    (src/gtphub/gtphub.c:1295-1356, 1525-1621). */
module GtphubClash {
  import opened GtphubState
  import opened GtphubTei
  import opened GtphubOps
  import opened GtphubSeq
  import opened GtphubEvents
  import opened GtphubPackets
  import opened GtphubCreate
  import opened GtphubRuns
  import opened GtphubDwindles
  import opened GtphubStops

  // ---- Who shares an endpoint with one tunnel ----

  /** A checked tunnel other than `t`, with the TEI of `t` at the endpoint, is at the address there. */
  ghost predicate Holds(h: Hub, t: nat, b: Bind, a: Addr, x: Tunnel)
    requires t in TunIds(h.lists.tunnels)
  {
    && x in h.lists.tunnels && x.checked && x.id != t
    && TeiOf(x, b) != 0 && TeiOf(x, b) == TeiOf(TunnelOf(h, t), b) && AddrAt(h, Endpoint(x.id, b)) == Some(a)
  }

  ghost predicate Held(h: Hub, t: nat, b: Bind, a: Addr)
    requires t in TunIds(h.lists.tunnels)
  {
    exists x :: Holds(h, t, b, a, x)
  }

  /** At this address the tunnel, being checked, would share the endpoint with another checked one. */
  ghost predicate Onto(h: Hub, t: nat, b: Bind, a: Addr)
    requires t in TunIds(h.lists.tunnels)
  {
    TunnelOf(h, t).checked && Held(h, t, b, a)
  }

  /** The tunnels other than `t` share no endpoints. */
  ghost predicate Apart(h: Hub, t: nat) {
    forall x, y | x in h.lists.tunnels && y in h.lists.tunnels && x.checked && y.checked && x.id != y.id && x.id != t && y.id != t ::
      !SharesAny(h, x, y)
  }

  /** No other shares this endpoint with `t`. */
  ghost predicate Clear(h: Hub, t: nat, b: Bind)
    requires t in TunIds(h.lists.tunnels)
  {
    TunnelOf(h, t).checked ==>
      forall x | x in h.lists.tunnels && x.checked && x.id != t :: !Shares(h, x, TunnelOf(h, t), b)
  }

  ghost predicate AllClear(h: Hub, t: nat)
    requires t in TunIds(h.lists.tunnels)
  {
    Clear(h, t, SGSN_CTRL) && Clear(h, t, SGSN_USER) && Clear(h, t, GGSN_CTRL) && Clear(h, t, GGSN_USER)
  }

  ghost predicate SharesNone(h: Hub, t: nat)
    requires t in TunIds(h.lists.tunnels)
  {
    TunnelOf(h, t).checked ==> forall x | x in h.lists.tunnels && x.checked && x.id != t :: !SharesAny(h, x, TunnelOf(h, t))
  }

  lemma ClearNone(h: Hub, t: nat)
    requires t in TunIds(h.lists.tunnels)
    ensures SharesNone(h, t) <==> AllClear(h, t)
  {
    var n := TunnelOf(h, t);
    hide AddrAt, Shares, TunIds;
    if n.checked && AllClear(h, t) {
      forall x | x in h.lists.tunnels && x.checked && x.id != t ensures !SharesAny(h, x, n) { }
    }
    if n.checked && SharesNone(h, t) {
      forall x | x in h.lists.tunnels && x.checked && x.id != t
        ensures !Shares(h, x, n, SGSN_CTRL) && !Shares(h, x, n, SGSN_USER) && !Shares(h, x, n, GGSN_CTRL) && !Shares(h, x, n, GGSN_USER)
      {
        assert !SharesAny(h, x, n);
      }
    }
  }

  lemma ClearSplit(h: Hub, t: nat)
    requires Inv(h) && t in TunIds(h.lists.tunnels)
    ensures EndpointsDistinct(h) <==> Apart(h, t) && AllClear(h, t)
  {
    var n := TunnelOf(h, t);
    hide Inv, SharesAny, TunIds, AllClear;
    SameNames(h, n);
    ClearNone(h, t);
    if Apart(h, t) && SharesNone(h, t) {
      forall x, y | x in h.lists.tunnels && y in h.lists.tunnels && x.checked && y.checked && x.id != y.id ensures !SharesAny(h, x, y) {
        if x.id == t { SharesSymmetric(h, x, y); }
      }
    }
  }

  lemma HoldsSome(h: Hub, t: nat, b: Bind, a: Addr, x: Tunnel)
    requires t in TunIds(h.lists.tunnels) && Holds(h, t, b, a, x)
    ensures Held(h, t, b, a)
  {
    hide Holds;
  }

  lemma HeldBy(h: Hub, t: nat, b: Bind, a: Addr) returns (x: Tunnel)
    requires t in TunIds(h.lists.tunnels) && Held(h, t, b, a)
    ensures Holds(h, t, b, a, x)
  {
    x :| Holds(h, t, b, a, x);
  }

  // ---- Setting an endpoint ----

  lemma SetTunnel(h: Hub, t: nat, b: Bind, peer: nat)
    requires Inv(h) && t in TunIds(h.lists.tunnels) && peer in h.net.ports
    ensures var g := SetEndpoint(h, t, b, Some(peer)); g.lists == h.lists && Inv(g) && TunnelOf(g, t) == TunnelOf(h, t)
  {
    hide Inv, SetRef, TunIds, SamePorts, Grows;
    SetEndpointOk(h, t, b, Some(peer));
    SameTunnels(h, SetEndpoint(h, t, b, Some(peer)), t);
  }

  /** The addresses after the endpoint was set. */
  ghost predicate MovedTo(h: Hub, g: Hub, t: nat, b: Bind, a: Addr) {
    && g.lists.tunnels == h.lists.tunnels
    && (t in TunIds(h.lists.tunnels) ==> TunnelOf(g, t) == TunnelOf(h, t))
    && forall x: nat, c: Bind ::
         AddrAt(g, Endpoint(x, c)) == if x == t && c == b then Some(a) else AddrAt(h, Endpoint(x, c))
  }

  lemma SetMoves(h: Hub, t: nat, b: Bind, peer: nat, a: Addr)
    requires Inv(h) && t in TunIds(h.lists.tunnels) && peer in h.net.ports && PeerAddr(h, peer) == Some(a)
    ensures MovedTo(h, SetEndpoint(h, t, b, Some(peer)), t, b, a)
  {
    hide Inv, SetEndpoint, TunIds, AddrAt;
    var g := SetEndpoint(h, t, b, Some(peer));
    SetTunnel(h, t, b, peer);
    forall x: nat, c: Bind
      ensures AddrAt(g, Endpoint(x, c)) == if x == t && c == b then Some(a) else AddrAt(h, Endpoint(x, c))
    {
      SetEndpointAddr(h, t, b, Some(peer), Endpoint(x, c));
    }
  }

  lemma MovedApart(h: Hub, g: Hub, t: nat, b: Bind, a: Addr)
    requires MovedTo(h, g, t, b, a)
    ensures Apart(g, t) <==> Apart(h, t)
  {
    hide AddrAt, TunIds, TeiOf;
    forall x: Tunnel, y: Tunnel | x.id != t && y.id != t ensures SharesAny(g, x, y) == SharesAny(h, x, y) { }
    hide SharesAny;
  }

  lemma MovedClear(h: Hub, g: Hub, t: nat, b: Bind, a: Addr, c: Bind)
    requires MovedTo(h, g, t, b, a) && t in TunIds(h.lists.tunnels)
    ensures Clear(g, t, c) <==> if c == b then !Onto(h, t, b, a) else Clear(h, t, c)
  {
    hide AddrAt, TunIds, TeiOf;
    var n := TunnelOf(h, t);
    assert n.id == t;
    if c != b {
      forall x: Tunnel ensures Shares(g, x, n, c) == Shares(h, x, n, c) { }
    } else {
      forall x: Tunnel | x in h.lists.tunnels && x.checked && x.id != t ensures Shares(g, x, n, b) <==> Holds(h, t, b, a, x) { }
      hide Shares;
      if Held(h, t, b, a) {
        var x := HeldBy(h, t, b, a);
        assert Shares(g, x, n, b);
      }
      forall x: Tunnel | Holds(h, t, b, a, x) ensures Held(h, t, b, a) { HoldsSome(h, t, b, a, x); }
    }
  }

  /** The same tunnels with the same addresses. */
  ghost predicate SameEnds(h: Hub, g: Hub) {
    g.lists.tunnels == h.lists.tunnels && forall x: nat, c: Bind :: AddrAt(g, Endpoint(x, c)) == AddrAt(h, Endpoint(x, c))
  }

  lemma RestsSame(h: Hub, g: Hub)
    requires Inv(h) && Rests(h, g)
    ensures SameEnds(h, g)
  {
    hide Inv, Steady, RefAt, AddrAt;
    forall x: nat, c: Bind ensures AddrAt(g, Endpoint(x, c)) == AddrAt(h, Endpoint(x, c)) { RestsAddr(h, g, Endpoint(x, c)); }
  }

  lemma SameDistinct(h: Hub, g: Hub)
    requires SameEnds(h, g)
    ensures EndpointsDistinct(g) <==> EndpointsDistinct(h)
  {
    hide AddrAt, TeiOf;
    forall x, y ensures SharesAny(g, x, y) == SharesAny(h, x, y) { }
    hide SharesAny;
  }

  lemma SameMoved(h: Hub, g: Hub, e: Hub, t: nat, b: Bind, a: Addr)
    requires Inv(h) && Inv(g) && SameEnds(h, g) && MovedTo(g, e, t, b, a) && t in TunIds(h.lists.tunnels)
    ensures MovedTo(h, e, t, b, a)
  {
    hide Inv, AddrAt, TunIds;
    SameTunnels(h, g, t);
  }

  // ---- One plane of a message ----

  /** The message has what the plane needs. */
  predicate Heeds(p: Packet, plane: Plane) { plane in p.gsn && (plane in p.teis || p.kind != CreateReq) }

  lemma PlaneParts(h: Hub, p: Packet, t: nat, from: nat, plane: Plane, cfg: Config) returns (g: Hub, peer: nat)
    requires Inv(h) && from in h.net.ports && PeerOf(h, from) in h.peers && t in TunIds(h.lists.tunnels) && Heeds(p, plane)
    ensures Inv(g) && Steady(h, g) && SameEnds(h, g) && t in TunIds(g.lists.tunnels) && TunnelOf(g, t) == TunnelOf(h, t)
    ensures peer in g.net.ports && PeerAddr(g, peer) == Some(Place(h, p, from, plane, cfg).0)
    ensures CreatePlane(h, p, t, from, plane, cfg) ==
      Rewritten(PlaneIe(g, t, Bind(p.side, plane), peer, TeiIn(p, plane)), Fits(p, plane, cfg))
    ensures PeerFromIe(h, p, from, plane, cfg) == (g, peer)
  {
    var b, place := Bind(p.side, plane), Place(h, p, from, plane, cfg);
    g, peer := PortHave(h, b, place.0, place.1).0, PortHave(h, b, place.0, place.1).1;
    hide Inv, PortHave, PlaneIe, TunIds, Steady, AddrAt, Rests, SameEnds;
    PortNamed(h, b, place.0, place.1);
    assert PeerFromIe(h, p, from, plane, cfg) == (g, peer);
    SameRests(h, g);
    RestsSame(h, g);
    SameTunnels(h, g, t);
  }

  /** A plane without a TEI only gives the endpoint another address. */
  lemma UntoldPlane(h: Hub, p: Packet, t: nat, from: nat, plane: Plane, cfg: Config)
    requires Inv(h) && from in h.net.ports && PeerOf(h, from) in h.peers && t in TunIds(h.lists.tunnels)
    requires Heeds(p, plane) && TeiIn(p, plane) == 0
    ensures var r := CreatePlane(h, p, t, from, plane, cfg);
      && !r.PlaneAbort? && MovedTo(h, r.h, t, Bind(p.side, plane), Place(h, p, from, plane, cfg).0)
      && (r.PlaneDone? <==> TeiOf(TunnelOf(h, t), Bind(p.side, plane)) != 0 && Fits(p, plane, cfg))
  {
    var b, a := Bind(p.side, plane), Place(h, p, from, plane, cfg).0;
    hide Inv, CreatePlane, SetEndpoint, TunIds, Steady, AddrAt, SameEnds, MovedTo, Place, PeerOf, PeerAddr, Fits, TeiIn, TeiOf;
    var g, peer := PlaneParts(h, p, t, from, plane, cfg);
    SetTunnel(g, t, b, peer);
    SetMoves(g, t, b, peer, a);
    SameMoved(h, g, SetEndpoint(g, t, b, Some(peer)), t, b, a);
  }

  /** The tunnels share an endpoint other than `b`. */
  ghost predicate SharesBeside(h: Hub, x: Tunnel, n: Tunnel, b: Bind) {
    || (b != SGSN_CTRL && Shares(h, x, n, SGSN_CTRL)) || (b != SGSN_USER && Shares(h, x, n, SGSN_USER))
    || (b != GGSN_CTRL && Shares(h, x, n, GGSN_CTRL)) || (b != GGSN_USER && Shares(h, x, n, GGSN_USER))
  }

  /** The tunnel goes when `t` is told the TEI at the address. */
  ghost predicate Reused(h: Hub, t: nat, b: Bind, a: Addr, tei: nat, x: Tunnel)
    requires t in TunIds(h.lists.tunnels)
  {
    (TeiOf(x, b) == tei && AddrAt(h, Endpoint(x.id, b)) == Some(a)) || SharesBeside(h, x, TunnelOf(h, t), b)
  }

  /** What telling the TEI leaves: `t`, checked, and the tunnels that go on as they were. */
  ghost predicate Survive(h: Hub, g: Hub, t: nat, b: Bind, a: Addr, tei: nat)
    requires t in TunIds(h.lists.tunnels)
  {
    && t in TunIds(g.lists.tunnels) && TunnelOf(g, t).checked
    && (forall c: Bind | c != b :: TeiOf(TunnelOf(g, t), c) == TeiOf(TunnelOf(h, t), c))
    && (forall x: Tunnel | x.id != t :: x in g.lists.tunnels <==> x in h.lists.tunnels && !Reused(h, t, b, a, tei, x))
    && (forall x: Tunnel, c: Bind | x in g.lists.tunnels && x.id != t :: AddrAt(g, Endpoint(x.id, c)) == AddrAt(h, Endpoint(x.id, c)))
  }

  lemma {:induction false} DropStaleAddr(h: Hub, ts: seq<Tunnel>, n: Tunnel, x: Tunnel, c: Bind)
    requires Inv(h) && DistinctTunnels(ts) && (forall y <- ts :: y in h.lists.tunnels) && x in DropStale(h, ts, n).lists.tunnels
    ensures AddrAt(DropStale(h, ts, n), Endpoint(x.id, c)) == AddrAt(h, Endpoint(x.id, c))
    decreases |ts|
  {
    hide Inv, DelItem, SharesAny, AllItems, DistinctTunnels, AddrAt;
    if ts != [] {
      var y := ts[0];
      DistinctHead(ts);
      assert y in ts && forall w <- ts[1..] :: w in ts;
      if y.id != n.id && SharesAny(h, y, n) {
        var d := DelItem(h, TunItem(y.id));
        TunnelQueued(h, y);
        DelItemOk(h, TunItem(y.id));
        TunnelsLeft(h, y.id);
        DropStaleAddr(d, ts[1..], n, x, c);
        DropStaleExact(d, ts[1..], n);
        AddrStable(h, y.id, Endpoint(x.id, c));
      } else {
        DropStaleAddr(h, ts[1..], n, x, c);
      }
    }
  }

  lemma PutAddr(h: Hub, x: Tunnel)
    ensures forall s :: AddrAt(PutTunnel(h, x), s) == AddrAt(h, s)
  {
    hide WithTunnel;
  }

  /** The check keeps the addresses of the tunnels it leaves. */
  lemma CheckAddrs(h: Hub, n: Tunnel)
    requires Inv(h) && n in h.lists.tunnels && CheckReused(h, n).Some?
    ensures var g := CheckReused(h, n).value;
      && n.id in TunIds(g.lists.tunnels) && TunnelOf(g, n.id).checked && TunnelOf(g, n.id).teiOrig == n.teiOrig
      && (forall x: Tunnel | x.id != n.id :: x in g.lists.tunnels <==> x in h.lists.tunnels && !SharesAny(h, x, n))
      && (forall x: Tunnel, c: Bind | x in g.lists.tunnels && x.id != n.id :: AddrAt(g, Endpoint(x.id, c)) == AddrAt(h, Endpoint(x.id, c)))
  {
    var d, g := DropStale(h, h.lists.tunnels, n), CheckReused(h, n).value;
    hide Inv, DropStale, OtherTeis, PickTei, PutTunnel, SharesAny, AddrAt, TunIds;
    CheckReusedOk(h, n);
    var repl :| OwnTei(g, n.(teiRepl := repl, checked := true));
    TunnelUnique(g, n.(teiRepl := repl, checked := true));
    var m := n.(teiRepl := PickTei(Pick(n.teiRepl, TEI_MAX, NO_RANGE_YET), OtherTeis(h, h.lists.tunnels, n)).repl, checked := true);
    assert g == PutTunnel(d, m);
    PutAddr(d, m);
    PutOthers(d, m);
    ListDistinct(h);
    forall x: Tunnel, c: Bind | x in g.lists.tunnels && x.id != n.id ensures AddrAt(g, Endpoint(x.id, c)) == AddrAt(h, Endpoint(x.id, c)) {
      DropStaleAddr(h, h.lists.tunnels, n, x, c);
    }
  }

  lemma PutOthers(h: Hub, x: Tunnel)
    ensures forall y: Tunnel | y.id != x.id :: y in PutTunnel(h, x).lists.tunnels <==> y in h.lists.tunnels
  {
    WithTunnelOk(h.lists.tunnels, x);
    hide WithTunnel, TunIds, DistinctTunnels;
  }

  /** What the tunnel, told the TEI at its new address, shares with the others. */
  lemma ToldShares(h: Hub, g: Hub, e: Hub, t: nat, b: Bind, a: Addr, tei: nat, x: Tunnel)
    requires t in TunIds(h.lists.tunnels) && MovedTo(h, g, t, b, a) && (forall s :: AddrAt(e, s) == AddrAt(g, s)) && tei != 0 && x.id != t
    ensures var y := TunnelOf(h, t).(teiOrig := TunnelOf(h, t).teiOrig[b := tei]); SharesAny(e, x, y) <==> Reused(h, t, b, a, tei, x)
  {
    hide AddrAt, TunIds;
    var n := TunnelOf(h, t);
    var y := n.(teiOrig := n.teiOrig[b := tei]);
    FourBinds(b);
    assert Shares(e, x, y, b) <==> TeiOf(x, b) == tei && AddrAt(h, Endpoint(x.id, b)) == Some(a);
    forall c: Bind | c != b ensures Shares(e, x, y, c) <==> Shares(h, x, n, c) { assert TeiOf(y, c) == TeiOf(n, c); }
    hide Shares, TeiOf;
  }

  lemma AnnounceSurvives(h: Hub, g: Hub, t: nat, b: Bind, a: Addr, tei: nat)
    requires t in TunIds(h.lists.tunnels) && MovedTo(h, g, t, b, a) && Inv(g) && tei != 0
    ensures t in TunIds(g.lists.tunnels)
    ensures var r := Announce(g, TunnelOf(g, t), b, tei); r.PlaneAbort? || (r.PlaneDone? && Survive(h, r.h, t, b, a, tei))
  {
    hide Inv, CheckReused, PutTunnel, TunIds, AddrAt, Reused, SharesAny, TeiOf;
    var n := TunnelOf(h, t);
    var y := n.(teiOrig := n.teiOrig[b := tei]);
    var e := PutTunnel(g, y);
    TunnelRange(g, n);
    PutTunnelOk(g, y);
    PutTunnelGrows(g, y);
    PutAddr(g, y);
    PutOthers(g, y);
    if CheckReused(e, y).Some? {
      CheckAddrs(e, y);
      forall x: Tunnel | x.id != t ensures SharesAny(e, x, y) <==> Reused(h, t, b, a, tei, x) { ToldShares(h, g, e, t, b, a, tei, x); }
      var k := CheckReused(e, y).value;
      forall c: Bind | c != b ensures TeiOf(TunnelOf(k, t), c) == TeiOf(n, c) { SameTei(TunnelOf(k, t), n, b, tei, c); }
    }
  }

  lemma SameTei(x: Tunnel, n: Tunnel, b: Bind, tei: nat, c: Bind)
    requires x.teiOrig == n.teiOrig[b := tei] && c != b
    ensures TeiOf(x, c) == TeiOf(n, c)
  {
  }

  /** The outcome of a plane that tells a TEI. */
  ghost predicate Tells(h: Hub, p: Packet, t: nat, from: nat, plane: Plane, cfg: Config, r: PlaneResult)
    requires Inv(h) && from in h.net.ports && PeerOf(h, from) in h.peers && t in TunIds(h.lists.tunnels) && plane in p.gsn
  {
    && (r.PlaneAbort? <==> PlaneSpent(h, p, t, from, plane, cfg))
    && (!r.PlaneAbort? ==>
          && (r.PlaneDone? <==> Fits(p, plane, cfg)) && (Apart(h, t) ==> EndpointsDistinct(r.h))
          && Survive(h, r.h, t, Bind(p.side, plane), Place(h, p, from, plane, cfg).0, TeiIn(p, plane)))
  }

  lemma ApartAnnounces(g: Hub, t: nat, b: Bind, tei: nat)
    requires Inv(g) && t in TunIds(g.lists.tunnels) && Apart(g, t)
    ensures var r := Announce(g, TunnelOf(g, t), b, tei); r.PlaneAbort? || (r.PlaneDone? && EndpointsDistinct(r.h))
  {
    hide Inv, Announce, TunIds, SharesAny;
    AnnounceDistinct(g, TunnelOf(g, t), b, tei);
  }

  lemma ToldPlane(h: Hub, p: Packet, t: nat, from: nat, plane: Plane, cfg: Config)
    requires Inv(h) && from in h.net.ports && PeerOf(h, from) in h.peers && t in TunIds(h.lists.tunnels)
    requires Heeds(p, plane) && TeiIn(p, plane) != 0
    ensures Tells(h, p, t, from, plane, cfg, CreatePlane(h, p, t, from, plane, cfg))
  {
    var b, a, tei := Bind(p.side, plane), Place(h, p, from, plane, cfg).0, TeiIn(p, plane);
    hide Inv, CreatePlane, SetEndpoint, TunIds, Steady, AddrAt, SameEnds, MovedTo, Place, PeerOf, PeerAddr, Fits, TeiIn, PlaneSpent,
      Announce, Apart, Survive, EndpointsDistinct;
    PlaneAborts(h, p, t, from, plane, cfg);
    var g, peer := PlaneParts(h, p, t, from, plane, cfg);
    var e := SetEndpoint(g, t, b, Some(peer));
    SetTunnel(g, t, b, peer);
    SetMoves(g, t, b, peer, a);
    SameMoved(h, g, e, t, b, a);
    AnnounceSurvives(h, e, t, b, a, tei);
    MovedApart(h, e, t, b, a);
    if Apart(h, t) { ApartAnnounces(e, t, b, tei); }
  }

  /** The replacement TEIs that the walk meets: those of the other tunnels that are not dropped, in the order of the list. */
  ghost function TeisLeft(h: Hub, ts: seq<Tunnel>, t: nat, b: Bind, a: Addr, tei: nat): seq<nat>
    requires t in TunIds(h.lists.tunnels)
  {
    if ts == [] then []
    else (if ts[0].id != t && !Reused(h, t, b, a, tei, ts[0]) then [ts[0].teiRepl] else []) + TeisLeft(h, ts[1..], t, b, a, tei)
  }

  lemma {:induction false} TeisLeftAre(h: Hub, g: Hub, e: Hub, ts: seq<Tunnel>, t: nat, b: Bind, a: Addr, tei: nat)
    requires t in TunIds(h.lists.tunnels) && MovedTo(h, g, t, b, a) && (forall s :: AddrAt(e, s) == AddrAt(g, s)) && tei != 0
    ensures var y := TunnelOf(h, t).(teiOrig := TunnelOf(h, t).teiOrig[b := tei]);
      OtherTeis(e, WithTunnel(ts, y), y) == TeisLeft(h, ts, t, b, a, tei)
  {
    hide AddrAt, TunIds, MovedTo, Reused, SharesAny;
    if ts != [] {
      var y := TunnelOf(h, t).(teiOrig := TunnelOf(h, t).teiOrig[b := tei]);
      assert WithTunnel(ts, y)[1..] == WithTunnel(ts[1..], y);
      TeisLeftAre(h, g, e, ts[1..], t, b, a, tei);
      if ts[0].id != t { ToldShares(h, g, e, t, b, a, tei, ts[0]); }
    }
  }

  /** A plane finds no TEI exactly if it tells one and the search among the replacement TEIs of the tunnels not dropped, from
      the tunnel's own on, gets stuck. */
  lemma SpentExact(h: Hub, p: Packet, t: nat, from: nat, plane: Plane, cfg: Config)
    requires Inv(h) && from in h.net.ports && PeerOf(h, from) in h.peers && t in TunIds(h.lists.tunnels) && Heeds(p, plane)
    ensures PlaneSpent(h, p, t, from, plane, cfg) <==>
      && TeiIn(p, plane) != 0
      && Stuck(Pick(TunnelOf(h, t).teiRepl, TEI_MAX, NO_RANGE_YET), {},
               TeisLeft(h, h.lists.tunnels, t, Bind(p.side, plane), Place(h, p, from, plane, cfg).0, TeiIn(p, plane)))
  {
    var b, a, tei := Bind(p.side, plane), Place(h, p, from, plane, cfg).0, TeiIn(p, plane);
    hide Inv, CreatePlane, SetEndpoint, TunIds, Steady, AddrAt, SameEnds, Place, PeerOf, PeerAddr, PeerFromIe, TeiIn, Stuck, Reused,
      OtherTeis, WithTunnel, TeisLeft;
    if tei != 0 {
      var g, peer := PlaneParts(h, p, t, from, plane, cfg);
      var e := SetEndpoint(g, t, b, Some(peer));
      SetTunnel(g, t, b, peer);
      SetMoves(g, t, b, peer, a);
      SameMoved(h, g, e, t, b, a);
      var y := TunnelOf(h, t).(teiOrig := TunnelOf(h, t).teiOrig[b := tei]);
      PutAddr(e, y);
      TeisLeftAre(h, e, PutTunnel(e, y), h.lists.tunnels, t, b, a, tei);
    }
  }

  // ---- Both planes ----

  /** As Held, of the tunnels that are left once `t` was told the TEI at its endpoint `b`. */
  ghost predicate HeldLate(h: Hub, t: nat, b: Bind, a: Addr, tei: nat, c: Bind, at: Addr)
    requires t in TunIds(h.lists.tunnels)
  {
    exists x :: Holds(h, t, c, at, x) && !Reused(h, t, b, a, tei, x)
  }

  lemma SurviveHolds(h: Hub, g: Hub, t: nat, b: Bind, a: Addr, tei: nat, c: Bind, at: Addr, x: Tunnel)
    requires t in TunIds(h.lists.tunnels) && Survive(h, g, t, b, a, tei) && c != b
    ensures Holds(g, t, c, at, x) <==> Holds(h, t, c, at, x) && !Reused(h, t, b, a, tei, x)
  {
    hide AddrAt, TunIds, TeiOf, Reused;
  }

  lemma SurviveOnto(h: Hub, g: Hub, t: nat, b: Bind, a: Addr, tei: nat, c: Bind, at: Addr)
    requires t in TunIds(h.lists.tunnels) && Survive(h, g, t, b, a, tei) && c != b
    ensures t in TunIds(g.lists.tunnels) && (Onto(g, t, c, at) <==> HeldLate(h, t, b, a, tei, c, at))
  {
    hide Holds, Reused, TunIds, AddrAt;
    forall x ensures Holds(g, t, c, at, x) <==> Holds(h, t, c, at, x) && !Reused(h, t, b, a, tei, x) {
      SurviveHolds(h, g, t, b, a, tei, c, at, x);
    }
  }

  lemma MovedOnto(h: Hub, g: Hub, t: nat, b: Bind, a: Addr, c: Bind, at: Addr)
    requires t in TunIds(h.lists.tunnels) && MovedTo(h, g, t, b, a)
    ensures t in TunIds(g.lists.tunnels) && (Onto(g, t, c, at) <==> Onto(h, t, c, at))
  {
    hide AddrAt, TunIds, TeiOf;
    forall x ensures Holds(g, t, c, at, x) <==> Holds(h, t, c, at, x) { }
    hide Holds;
  }

  /** After one plane without a TEI. */
  lemma OnePlane(h: Hub, g: Hub, t: nat, b: Bind, a: Addr)
    requires Inv(h) && Inv(g) && EndpointsDistinct(h) && t in TunIds(h.lists.tunnels) && MovedTo(h, g, t, b, a)
    ensures Apart(g, t) && (EndpointsDistinct(g) <==> !Onto(h, t, b, a))
  {
    hide Inv, EndpointsDistinct, TunIds, MovedTo, Apart, Clear, Onto;
    MovedSame(h, g, t, b, a);
    ClearSplit(h, t);
    ClearSplit(g, t);
    MovedApart(h, g, t, b, a);
    FourBinds(b);
    MovedClear(h, g, t, b, a, SGSN_CTRL);
    MovedClear(h, g, t, b, a, SGSN_USER);
    MovedClear(h, g, t, b, a, GGSN_CTRL);
    MovedClear(h, g, t, b, a, GGSN_USER);
  }

  lemma MovedSame(h: Hub, g: Hub, t: nat, b: Bind, a: Addr)
    requires MovedTo(h, g, t, b, a)
    ensures g.lists.tunnels == h.lists.tunnels
  {
    hide AddrAt, TunIds;
  }

  /** After two. */
  lemma TwoPlanes(h: Hub, g: Hub, e: Hub, t: nat, b: Bind, a: Addr, c: Bind, at: Addr)
    requires Inv(h) && Inv(g) && Inv(e) && EndpointsDistinct(h) && t in TunIds(h.lists.tunnels) && b != c
    requires MovedTo(h, g, t, b, a) && t in TunIds(g.lists.tunnels) && MovedTo(g, e, t, c, at)
    ensures EndpointsDistinct(e) <==> !Onto(h, t, b, a) && !Onto(h, t, c, at)
  {
    hide Inv, EndpointsDistinct, TunIds, MovedTo, Apart, Clear, Onto;
    MovedSame(g, e, t, c, at);
    ClearSplit(h, t);
    ClearSplit(g, t);
    ClearSplit(e, t);
    OnePlane(h, g, t, b, a);
    MovedApart(g, e, t, c, at);
    MovedOnto(h, g, t, b, a, c, at);
    FourBinds(b);
    FourBinds(c);
    MovedClear(g, e, t, c, at, SGSN_CTRL);
    MovedClear(g, e, t, c, at, SGSN_USER);
    MovedClear(g, e, t, c, at, GGSN_CTRL);
    MovedClear(g, e, t, c, at, GGSN_USER);
    MovedClear(h, g, t, b, a, SGSN_CTRL);
    MovedClear(h, g, t, b, a, SGSN_USER);
    MovedClear(h, g, t, b, a, GGSN_CTRL);
    MovedClear(h, g, t, b, a, GGSN_USER);
  }

  /** The message takes an endpoint of the tunnel, without telling a TEI for it, to where another checked tunnel has its TEI,
      and no later check undoes that. A control plane that tells its TEI drops tunnels first; a user plane that does leaves
      nothing shared. */
  ghost predicate Displaces(h: Hub, p: Packet, t: nat, from: nat, cfg: Config)
    requires Inv(h) && from in h.net.ports && PeerOf(h, from) in h.peers && t in TunIds(h.lists.tunnels)
  {
    var b, c := Bind(p.side, Ctrl), Bind(p.side, User);
    && Heeds(p, Ctrl)
    && var a := Place(h, p, from, Ctrl, cfg).0;
       var goesOn := Fits(p, Ctrl, cfg) && Heeds(p, User);
       if TeiIn(p, Ctrl) != 0 then
         && !PlaneSpent(h, p, t, from, Ctrl, cfg) && goesOn && TeiIn(p, User) == 0
         && HeldLate(h, t, b, a, TeiIn(p, Ctrl), c, Place(h, p, from, User, cfg).0)
       else if TeiOf(TunnelOf(h, t), b) == 0 then false
       else if !goesOn then Onto(h, t, b, a)
       else TeiIn(p, User) == 0 && (Onto(h, t, b, a) || Onto(h, t, c, Place(h, p, from, User, cfg).0))
  }

  lemma Unheeded(h: Hub, p: Packet, t: nat, from: nat, plane: Plane, cfg: Config)
    requires from in h.net.ports && PeerOf(h, from) in h.peers && t in TunIds(h.lists.tunnels) && !Heeds(p, plane)
    ensures CreatePlane(h, p, t, from, plane, cfg) == PlaneError(h)
  {
  }

  /** The tables after the control plane, when the user plane is next. */
  ghost predicate Next(h: Hub, p: Packet, t: nat, from: nat, cfg: Config, g: Hub)
    requires from in h.net.ports && PeerOf(h, from) in h.peers
  {
    && Inv(g) && from in g.net.ports && PeerOf(g, from) in g.peers && t in TunIds(g.lists.tunnels)
    && (User in p.gsn ==> Place(g, p, from, User, cfg) == Place(h, p, from, User, cfg))
  }

  lemma NextIs(h: Hub, p: Packet, t: nat, from: nat, cfg: Config)
    requires Inv(h) && from in h.net.ports && PeerOf(h, from) in h.peers && t in TunIds(h.lists.tunnels)
    ensures var one := CreatePlane(h, p, t, from, Ctrl, cfg);
      (one.PlaneDone? ==> Next(h, p, t, from, cfg, one.h)) && (!one.PlaneAbort? ==> Inv(one.h))
  {
    hide Inv, CreatePlane, TunIds, Steady, Told, Place, PeerOf, Grows;
    CreatePlaneOk(h, p, t, from, Ctrl, cfg);
    CreatePlaneSets(h, p, t, from, Ctrl, cfg);
    var one := CreatePlane(h, p, t, from, Ctrl, cfg);
    if one.PlaneDone? {
      SteadyPort(h, one.h, from);
      if User in p.gsn { PlaceStays(h, one.h, p, from, User, cfg); }
    }
  }

  ghost predicate Right(h: Hub, p: Packet, t: nat, from: nat, cfg: Config, r: PlaneResult)
    requires Inv(h) && from in h.net.ports && PeerOf(h, from) in h.peers && t in TunIds(h.lists.tunnels)
  {
    if r.PlaneAbort? then !Displaces(h, p, t, from, cfg) else EndpointsDistinct(r.h) <==> !Displaces(h, p, t, from, cfg)
  }

  lemma CreatePlaneInv(h: Hub, p: Packet, t: nat, from: nat, plane: Plane, cfg: Config)
    requires Inv(h) && from in h.net.ports && t in TunIds(h.lists.tunnels)
    ensures PeerOf(h, from) in h.peers
    ensures var r := CreatePlane(h, p, t, from, plane, cfg); !r.PlaneAbort? ==> Inv(r.h)
  {
    hide Inv, CreatePlane, TunIds, Grows, PeerOf;
    CreatePlaneOk(h, p, t, from, plane, cfg);
  }

  /** When a control plane without a TEI goes through. */
  lemma UntoldDisplaces(h: Hub, p: Packet, t: nat, from: nat, cfg: Config)
    requires Inv(h) && from in h.net.ports && PeerOf(h, from) in h.peers && t in TunIds(h.lists.tunnels)
    requires Heeds(p, Ctrl) && TeiIn(p, Ctrl) == 0 && Fits(p, Ctrl, cfg) && TeiOf(TunnelOf(h, t), Bind(p.side, Ctrl)) != 0
    ensures var b, c, a := Bind(p.side, Ctrl), Bind(p.side, User), Place(h, p, from, Ctrl, cfg).0;
      Displaces(h, p, t, from, cfg) <==>
        if Heeds(p, User) then TeiIn(p, User) == 0 && (Onto(h, t, b, a) || Onto(h, t, c, Place(h, p, from, User, cfg).0))
        else Onto(h, t, b, a)
  {
    hide Inv, TunIds, Place, PeerOf, TeiIn, TeiOf, Onto, HeldLate, PlaneSpent, Fits;
  }

  lemma UntoldUntold(h: Hub, p: Packet, t: nat, from: nat, cfg: Config, g: Hub)
    requires Inv(h) && from in h.net.ports && PeerOf(h, from) in h.peers && t in TunIds(h.lists.tunnels) && EndpointsDistinct(h)
    requires Next(h, p, t, from, cfg, g) && Heeds(p, Ctrl) && Heeds(p, User) && TeiIn(p, User) == 0
    requires MovedTo(h, g, t, Bind(p.side, Ctrl), Place(h, p, from, Ctrl, cfg).0)
    ensures var r := CreatePlane(g, p, t, from, User, cfg);
      && !r.PlaneAbort?
      && (EndpointsDistinct(r.h) <==>
            && !Onto(h, t, Bind(p.side, Ctrl), Place(h, p, from, Ctrl, cfg).0)
            && !Onto(h, t, Bind(p.side, User), Place(h, p, from, User, cfg).0))
  {
    hide Inv, CreatePlane, TunIds, Place, PeerOf, TeiIn, TeiOf, EndpointsDistinct, MovedTo, Onto, Fits;
    var b, c, a := Bind(p.side, Ctrl), Bind(p.side, User), Place(h, p, from, Ctrl, cfg).0;
    UntoldPlane(g, p, t, from, User, cfg);
    CreatePlaneInv(g, p, t, from, User, cfg);
    TwoPlanes(h, g, CreatePlane(g, p, t, from, User, cfg).h, t, b, a, c, Place(h, p, from, User, cfg).0);
  }

  lemma ThenTold(g: Hub, p: Packet, t: nat, from: nat, cfg: Config)
    requires Inv(g) && from in g.net.ports && PeerOf(g, from) in g.peers && t in TunIds(g.lists.tunnels) && Apart(g, t)
    requires Heeds(p, User) && TeiIn(p, User) != 0
    ensures var r := CreatePlane(g, p, t, from, User, cfg); r.PlaneAbort? || EndpointsDistinct(r.h)
  {
    hide Inv, CreatePlane, TunIds, PeerOf, TeiIn, EndpointsDistinct, Apart, Survive, PlaneSpent, Fits;
    ToldPlane(g, p, t, from, User, cfg);
  }

  /** The control plane has no TEI, and the user plane is next. */
  lemma UntoldThen(h: Hub, p: Packet, t: nat, from: nat, cfg: Config)
    requires Inv(h) && from in h.net.ports && PeerOf(h, from) in h.peers && t in TunIds(h.lists.tunnels) && EndpointsDistinct(h)
    requires Heeds(p, Ctrl) && TeiIn(p, Ctrl) == 0 && CreatePlane(h, p, t, from, Ctrl, cfg).PlaneDone?
    requires var g := CreatePlane(h, p, t, from, Ctrl, cfg).h; Next(h, p, t, from, cfg, g)
    ensures var g := CreatePlane(h, p, t, from, Ctrl, cfg).h; Right(h, p, t, from, cfg, CreatePlane(g, p, t, from, User, cfg))
  {
    hide Inv, CreatePlane, TunIds, Place, PeerOf, TeiIn, TeiOf, EndpointsDistinct, MovedTo, Apart, Onto, Displaces, Fits;
    UntoldPlane(h, p, t, from, Ctrl, cfg);
    UntoldDisplaces(h, p, t, from, cfg);
    var g := CreatePlane(h, p, t, from, Ctrl, cfg).h;
    OnePlane(h, g, t, Bind(p.side, Ctrl), Place(h, p, from, Ctrl, cfg).0);
    if !Heeds(p, User) {
      Unheeded(g, p, t, from, User, cfg);
    } else if TeiIn(p, User) == 0 {
      UntoldUntold(h, p, t, from, cfg, g);
    } else {
      ThenTold(g, p, t, from, cfg);
    }
  }

  /** When a control plane that told its TEI goes through. */
  lemma ToldDisplaces(h: Hub, p: Packet, t: nat, from: nat, cfg: Config)
    requires Inv(h) && from in h.net.ports && PeerOf(h, from) in h.peers && t in TunIds(h.lists.tunnels)
    requires Heeds(p, Ctrl) && TeiIn(p, Ctrl) != 0 && Fits(p, Ctrl, cfg) && !PlaneSpent(h, p, t, from, Ctrl, cfg)
    ensures var b, c, a := Bind(p.side, Ctrl), Bind(p.side, User), Place(h, p, from, Ctrl, cfg).0;
      Displaces(h, p, t, from, cfg) <==>
        && Heeds(p, User) && TeiIn(p, User) == 0
        && HeldLate(h, t, b, a, TeiIn(p, Ctrl), c, Place(h, p, from, User, cfg).0)
  {
    hide Inv, TunIds, Place, PeerOf, TeiIn, TeiOf, Onto, HeldLate, PlaneSpent, Fits;
  }

  lemma ToldUntold(h: Hub, p: Packet, t: nat, from: nat, cfg: Config, g: Hub)
    requires Inv(h) && from in h.net.ports && PeerOf(h, from) in h.peers && t in TunIds(h.lists.tunnels)
    requires Next(h, p, t, from, cfg, g) && Heeds(p, Ctrl) && Heeds(p, User) && TeiIn(p, User) == 0 && EndpointsDistinct(g)
    requires Survive(h, g, t, Bind(p.side, Ctrl), Place(h, p, from, Ctrl, cfg).0, TeiIn(p, Ctrl))
    ensures var r := CreatePlane(g, p, t, from, User, cfg);
      && !r.PlaneAbort?
      && (EndpointsDistinct(r.h) <==>
            !HeldLate(h, t, Bind(p.side, Ctrl), Place(h, p, from, Ctrl, cfg).0, TeiIn(p, Ctrl), Bind(p.side, User),
                      Place(h, p, from, User, cfg).0))
  {
    hide Inv, CreatePlane, TunIds, Place, PeerOf, TeiIn, TeiOf, EndpointsDistinct, MovedTo, Onto, HeldLate, Survive, Fits;
    var b, c, a := Bind(p.side, Ctrl), Bind(p.side, User), Place(h, p, from, Ctrl, cfg).0;
    UntoldPlane(g, p, t, from, User, cfg);
    CreatePlaneInv(g, p, t, from, User, cfg);
    OnePlane(g, CreatePlane(g, p, t, from, User, cfg).h, t, c, Place(h, p, from, User, cfg).0);
    SurviveOnto(h, g, t, b, a, TeiIn(p, Ctrl), c, Place(h, p, from, User, cfg).0);
  }

  /** The control plane has told its TEI, and the user plane is next. */
  lemma ToldThen(h: Hub, p: Packet, t: nat, from: nat, cfg: Config)
    requires Inv(h) && from in h.net.ports && PeerOf(h, from) in h.peers && t in TunIds(h.lists.tunnels) && EndpointsDistinct(h)
    requires Heeds(p, Ctrl) && TeiIn(p, Ctrl) != 0 && CreatePlane(h, p, t, from, Ctrl, cfg).PlaneDone?
    requires var g := CreatePlane(h, p, t, from, Ctrl, cfg).h; Next(h, p, t, from, cfg, g)
    ensures var g := CreatePlane(h, p, t, from, Ctrl, cfg).h; Right(h, p, t, from, cfg, CreatePlane(g, p, t, from, User, cfg))
  {
    hide Inv, CreatePlane, TunIds, Place, PeerOf, TeiIn, EndpointsDistinct, Apart, Survive, HeldLate, PlaneSpent, Fits, AllClear, Displaces;
    ClearSplit(h, t);
    ToldPlane(h, p, t, from, Ctrl, cfg);
    ToldDisplaces(h, p, t, from, cfg);
    var g := CreatePlane(h, p, t, from, Ctrl, cfg).h;
    if !Heeds(p, User) {
      Unheeded(g, p, t, from, User, cfg);
    } else if TeiIn(p, User) == 0 {
      ToldUntold(h, p, t, from, cfg, g);
    } else {
      ClearSplit(g, t);
      ThenTold(g, p, t, from, cfg);
    }
  }

  /** The message ends with its control plane. */
  lemma ControlEnds(h: Hub, p: Packet, t: nat, from: nat, cfg: Config)
    requires Inv(h) && from in h.net.ports && PeerOf(h, from) in h.peers && t in TunIds(h.lists.tunnels) && EndpointsDistinct(h)
    requires !CreatePlane(h, p, t, from, Ctrl, cfg).PlaneDone?
    ensures Right(h, p, t, from, cfg, CreatePlane(h, p, t, from, Ctrl, cfg))
  {
    var b, a := Bind(p.side, Ctrl), if Heeds(p, Ctrl) then Place(h, p, from, Ctrl, cfg).0 else [];
    hide Inv, CreatePlane, TunIds, Place, PeerOf, TeiIn, EndpointsDistinct, MovedTo, Apart, Held, Survive, HeldLate, PlaneSpent,
      Fits, AllClear;
    if !Heeds(p, Ctrl) {
      Unheeded(h, p, t, from, Ctrl, cfg);
    } else if TeiIn(p, Ctrl) == 0 {
      UntoldPlane(h, p, t, from, Ctrl, cfg);
      CreatePlaneInv(h, p, t, from, Ctrl, cfg);
      OnePlane(h, CreatePlane(h, p, t, from, Ctrl, cfg).h, t, b, a);
      UnannouncedHeld(h, t, b, a);
    } else {
      ClearSplit(h, t);
      ToldPlane(h, p, t, from, Ctrl, cfg);
    }
  }

  lemma UnannouncedHeld(h: Hub, t: nat, b: Bind, a: Addr)
    requires t in TunIds(h.lists.tunnels)
    ensures TeiOf(TunnelOf(h, t), b) == 0 ==> !Held(h, t, b, a)
  {
    hide TunIds, AddrAt, TeiOf;
  }

  /** A create message of a hub with distinct endpoints leaves them distinct if and only if it does not displace; one that
      stops the program does not. */
  lemma PlanesExact(h: Hub, p: Packet, t: nat, from: nat, cfg: Config)
    requires Inv(h) && from in h.net.ports && PeerOf(h, from) in h.peers && t in TunIds(h.lists.tunnels) && EndpointsDistinct(h)
    ensures var r := CreatePlanes(h, p, t, from, cfg);
      if r.HandledStop? then !Displaces(h, p, t, from, cfg) else EndpointsDistinct(r.h) <==> !Displaces(h, p, t, from, cfg)
  {
    hide Inv, CreatePlane, TunIds, Place, PeerOf, EndpointsDistinct, Displaces, TeiIn;
    CreatePlaneOk(h, p, t, from, Ctrl, cfg);
    NextIs(h, p, t, from, cfg);
    var one := CreatePlane(h, p, t, from, Ctrl, cfg);
    if one.PlaneDone? {
      DoneHeeds(h, p, t, from, Ctrl, cfg);
      CreatePlaneOk(one.h, p, t, from, User, cfg);
      if TeiIn(p, Ctrl) == 0 { UntoldThen(h, p, t, from, cfg); } else { ToldThen(h, p, t, from, cfg); }
    } else {
      ControlEnds(h, p, t, from, cfg);
    }
  }

  lemma DoneHeeds(h: Hub, p: Packet, t: nat, from: nat, plane: Plane, cfg: Config)
    requires from in h.net.ports && PeerOf(h, from) in h.peers && t in TunIds(h.lists.tunnels)
    ensures CreatePlane(h, p, t, from, plane, cfg).PlaneDone? ==> Heeds(p, plane)
  {
    if !Heeds(p, plane) { Unheeded(h, p, t, from, plane, cfg); }
  }
}
