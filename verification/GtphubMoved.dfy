/** A run of packets after which two checked tunnels have the same address and TEI at the same endpoint: two create
    exchanges, and then a create response without a TEI that carries another address (src/gtphub/gtphub.c:1576-1613). */
module GtphubMoved {
  import opened GtphubState
  import opened GtphubTei
  import opened GtphubOps
  import opened GtphubSeq
  import opened GtphubEvents
  import opened GtphubPackets
  import opened GtphubCreate
  import opened GtphubRuns
  import opened GtphubDwindles
  import opened GtphubRoutes
  import opened GtphubClash
  import opened GtphubDistinct

  function Host(n: int): Addr { [10, 0, 0, n] }

  const SGSN := Host(1)
  const GGSN := Host(2)

  /** A hub that goes by the addresses in the messages, with an address of its own on each socket. */
  const PLAIN := Config(false, map[SGSN_CTRL := Host(0), SGSN_USER := Host(0), GGSN_CTRL := Host(0), GGSN_USER := Host(0)])

  lemma FitsPlain(p: Packet, plane: Plane, n: int)
    requires plane in p.gsn && p.gsn[plane] == Host(n)
    ensures Fits(p, plane, PLAIN)
  {
    FourBinds(Bind(OtherSide(p.side), plane));
  }

  // ---- What stays ----

  /** Nothing but the tunnel `t` changes, of what is known of tunnels and proxies. */
  ghost predicate Beside(h: Hub, g: Hub, t: nat) {
    && Steady(h, g) && (forall x: Tunnel | x.id != t :: x in g.lists.tunnels <==> x in h.lists.tunnels)
    && (forall s: Slot | s.Proxy? || (s.Endpoint? && s.tun != t) :: RefAt(g, s) == RefAt(h, s))
  }

  lemma BesideChain(f: Hub, g: Hub, h: Hub, t: nat)
    requires Beside(f, g, t) && Beside(g, h, t)
    ensures Beside(f, h, t)
  {
    hide Steady, RefAt;
    SteadyChain(f, g, h);
  }

  lemma RestsBeside(h: Hub, g: Hub, t: nat)
    requires Rests(h, g)
    ensures Beside(h, g, t)
  {
    hide Steady, RefAt;
  }

  // ---- One plane ----

  /** At most one other tunnel. */
  ghost predicate Lonely(h: Hub, t: nat) {
    forall x, y | x in h.lists.tunnels && y in h.lists.tunnels && x.id != t && y.id != t :: x == y
  }

  /** With this address and TEI at this endpoint the tunnel would share no endpoint. */
  ghost predicate NoClash(h: Hub, t: nat, b: Bind, a: Addr, tei: nat)
    requires t in TunIds(h.lists.tunnels)
  {
    forall z | z in h.lists.tunnels && z.id != t ::
      && !(TeiOf(z, b) == tei && AddrAt(h, Endpoint(z.id, b)) == Some(a))
      && forall c: Bind | c != b :: !Shares(h, z, TunnelOf(h, t), c)
  }

  lemma {:induction false} NoneStale(h: Hub, ts: seq<Tunnel>, n: Tunnel)
    requires forall z | z in ts && z.id != n.id :: !SharesAny(h, z, n)
    ensures DropStale(h, ts, n) == h
    decreases |ts|
  {
    hide SharesAny, DelItem;
    if ts != [] {
      assert ts[0] in ts && forall z <- ts[1..] :: z in ts;
      NoneStale(h, ts[1..], n);
    }
  }

  lemma StuckEnds(p: Pick, teis: seq<nat>)
    ensures Stuck(p, {}, teis) ==> 1 in teis && TEI_MAX in teis
  {
    if Stuck(p, {}, teis) {
      var k := StuckWhere(p, {}, teis);
      hide PickTei;
      assert forall r <- teis[..k + 1] :: r in teis;
    }
  }

  lemma LonelyTeis(h: Hub, n: Tunnel)
    requires Lonely(h, n.id)
    ensures forall r, s | r in OtherTeis(h, h.lists.tunnels, n) && s in OtherTeis(h, h.lists.tunnels, n) :: r == s
  {
    hide SharesAny, OtherTeis;
    OtherTeisAre(h, h.lists.tunnels, n);
    forall r, s | r in OtherTeis(h, h.lists.tunnels, n) && s in OtherTeis(h, h.lists.tunnels, n) ensures r == s {
      var x :| x in h.lists.tunnels && x.teiRepl == r && x.id != n.id;
      var y :| y in h.lists.tunnels && y.teiRepl == s && y.id != n.id;
    }
  }

  lemma LonelyFinds(h: Hub, n: Tunnel)
    requires Inv(h) && n in h.lists.tunnels && Lonely(h, n.id)
    ensures CheckReused(h, n).Some?
  {
    hide Inv, Lonely, OtherTeis, CheckReused, Stuck;
    CheckReusedFails(h, n);
    LonelyTeis(h, n);
    StuckEnds(Pick(n.teiRepl, TEI_MAX, NO_RANGE_YET), OtherTeis(h, h.lists.tunnels, n));
  }

  lemma PutBeside(h: Hub, x: Tunnel)
    ensures Beside(h, PutTunnel(h, x), x.id)
  {
    PutSteady(h, x);
    WithTunnelOk(h.lists.tunnels, x);
    hide Steady, TunIds, WithTunnel, DistinctTunnels;
  }

  /** Without a stale tunnel the check only changes the record. */
  lemma CheckBeside(h: Hub, n: Tunnel)
    requires Inv(h) && n in h.lists.tunnels && Lonely(h, n.id) && forall z | z in h.lists.tunnels && z.id != n.id :: !SharesAny(h, z, n)
    ensures var r := CheckReused(h, n);
      && r.Some? && Inv(r.value) && Beside(h, r.value, n.id) && n.id in TunIds(r.value.lists.tunnels)
      && TunnelOf(r.value, n.id).checked
  {
    hide Inv, SharesAny, OtherTeis, PickTei, PutTunnel, DropStale, Lonely, Beside, TunIds;
    LonelyFinds(h, n);
    NoneStale(h, h.lists.tunnels, n);
    CheckReusedOk(h, n);
    var g := CheckReused(h, n).value;
    var repl :| OwnTei(g, n.(teiRepl := repl, checked := true));
    TunnelUnique(g, n.(teiRepl := repl, checked := true));
    var m := n.(teiRepl := PickTei(Pick(n.teiRepl, TEI_MAX, NO_RANGE_YET), OtherTeis(h, h.lists.tunnels, n)).repl, checked := true);
    assert g == PutTunnel(h, m);
    PutBeside(h, m);
  }

  lemma SetBeside(h: Hub, t: nat, b: Bind, peer: nat)
    requires Inv(h) && t in TunIds(h.lists.tunnels) && peer in h.net.ports
    ensures var g := SetEndpoint(h, t, b, Some(peer));
      Inv(g) && Beside(h, g, t) && g.lists == h.lists && TunnelOf(g, t) == TunnelOf(h, t)
  {
    hide Inv, SetRef, TunIds, SamePorts, Steady, Grows;
    InvNet(h);
    SetEndpointOk(h, t, b, Some(peer));
    EndpointSets(h, t, b, Some(peer));
    SetRefOk(h.net, Endpoint(t, b), Some(peer));
    SameTunnels(h, SetEndpoint(h, t, b, Some(peer)), t);
  }

  /** The tunnel with its new TEI at the endpoint shares nothing. */
  lemma NothingShared(h: Hub, t: nat, b: Bind, peer: nat, a: Addr, num: PortNum, tei: nat, z: Tunnel)
    requires Inv(h) && t in TunIds(h.lists.tunnels) && Names(h, peer, a, num) && NoClash(h, t, b, a, tei)
    requires z in h.lists.tunnels && z.id != t
    ensures var g := SetEndpoint(h, t, b, Some(peer)); var x := TunnelOf(h, t);
      var y := x.(teiOrig := x.teiOrig[b := tei]); !SharesAny(PutTunnel(g, y), z, y)
  {
    hide Inv, SetEndpoint, AddrAt, TunIds, WithTunnel;
    var g, x := SetEndpoint(h, t, b, Some(peer)), TunnelOf(h, t);
    var y := x.(teiOrig := x.teiOrig[b := tei]);
    PutAddr(g, y);
    forall c: Bind ensures !Shares(PutTunnel(g, y), z, y, c) {
      SetEndpointAddr(h, t, b, Some(peer), Endpoint(z.id, c));
      SetEndpointAddr(h, t, b, Some(peer), Endpoint(t, c));
      if c == b { assert TeiOf(y, c) == tei; } else { assert TeiOf(y, c) == TeiOf(x, c) && !Shares(h, z, x, c); }
    }
  }

  /** Either the plane has a TEI that clashes with none, or it has none and one was announced before. */
  ghost predicate Goes(h: Hub, t: nat, b: Bind, a: Addr, tei: nat)
    requires t in TunIds(h.lists.tunnels)
  {
    if tei == 0 then TeiOf(TunnelOf(h, t), b) != 0 && TunnelOf(h, t).checked else Lonely(h, t) && NoClash(h, t, b, a, tei)
  }

  lemma PlaneGoes(h: Hub, t: nat, b: Bind, peer: nat, a: Addr, num: PortNum, tei: nat)
    requires Inv(h) && t in TunIds(h.lists.tunnels) && Names(h, peer, a, num) && Goes(h, t, b, a, tei)
    ensures var r := PlaneIe(h, t, b, peer, tei);
      && r.PlaneDone? && Inv(r.h) && Beside(h, r.h, t) && t in TunIds(r.h.lists.tunnels) && TunnelOf(r.h, t).checked
      && (tei == 0 ==> TunnelOf(r.h, t) == TunnelOf(h, t))
  {
    hide Inv, SetEndpoint, TunIds, PutTunnel, CheckReused, Beside, NoClash, SharesAny;
    SetBeside(h, t, b, peer);
    var g, x := SetEndpoint(h, t, b, Some(peer)), TunnelOf(h, t);
    if tei != 0 {
      var y := x.(teiOrig := x.teiOrig[b := tei]);
      var p := PutTunnel(g, y);
      TunnelRange(g, x);
      PutTunnelOk(g, y);
      PutTunnelGrows(g, y);
      PutBeside(g, y);
      OthersSame(g, p, t);
      forall z | z in p.lists.tunnels && z.id != t ensures !SharesAny(p, z, y) {
        NothingShared(h, t, b, peer, a, num, tei, z);
      }
      CheckBeside(p, y);
      BesideChain(g, p, CheckReused(p, y).value, t);
      BesideChain(h, g, CheckReused(p, y).value, t);
    }
  }

  lemma OthersSame(h: Hub, g: Hub, t: nat)
    requires Beside(h, g, t)
    ensures forall z: Tunnel | z.id != t :: z in g.lists.tunnels <==> z in h.lists.tunnels
    ensures Lonely(h, t) ==> Lonely(g, t)
  {
    hide Steady, RefAt;
  }

  lemma BesideAddr(h: Hub, g: Hub, t: nat, s: Slot)
    requires Inv(h) && Beside(h, g, t) && s.Endpoint? && s.tun != t
    ensures AddrAt(g, s) == AddrAt(h, s)
  {
    hide Inv, Steady, RefAt;
    EndpointAddrSame(h, g, s);
  }

  lemma RestsGoes(h: Hub, g: Hub, t: nat, b: Bind, a: Addr, tei: nat)
    requires Inv(h) && Inv(g) && Rests(h, g) && t in TunIds(h.lists.tunnels) && Goes(h, t, b, a, tei)
    ensures Goes(g, t, b, a, tei)
  {
    hide Inv, Steady, RefAt, TunIds, AddrAt;
    SameTunnels(h, g, t);
    if tei != 0 {
      forall z | z in g.lists.tunnels && z.id != t
        ensures !(TeiOf(z, b) == tei && AddrAt(g, Endpoint(z.id, b)) == Some(a))
        ensures forall c: Bind | c != b :: !Shares(g, z, TunnelOf(g, t), c)
      {
        RestsAddr(h, g, Endpoint(z.id, b));
        forall c: Bind | c != b ensures !Shares(g, z, TunnelOf(g, t), c) {
          RestsAddr(h, g, Endpoint(z.id, c));
          RestsAddr(h, g, Endpoint(t, c));
          assert !Shares(h, z, TunnelOf(h, t), c);
        }
      }
    }
  }

  lemma CreatePlaneGoes(h: Hub, p: Packet, t: nat, from: nat, plane: Plane)
    requires Inv(h) && from in h.net.ports && PeerOf(h, from) in h.peers && t in TunIds(h.lists.tunnels)
    requires plane in p.gsn && Fits(p, plane, PLAIN) && (p.kind == CreateReq ==> plane in p.teis)
    requires Goes(h, t, Bind(p.side, plane), p.gsn[plane], TeiIn(p, plane))
    ensures var r := CreatePlane(h, p, t, from, plane, PLAIN);
      && r.PlaneDone? && Inv(r.h) && Beside(h, r.h, t) && t in TunIds(r.h.lists.tunnels) && TunnelOf(r.h, t).checked
      && (TeiIn(p, plane) == 0 ==> TunnelOf(r.h, t) == TunnelOf(h, t))
  {
    hide Inv, PortHave, PlaneIe, TunIds, Steady, Names, Fits, Goes, Beside, Rests;
    var b, a, num := Bind(p.side, plane), p.gsn[plane], if plane == Ctrl then 2123 else 2152;
    PortNamed(h, b, a, num);
    var (g, peer) := PortHave(h, b, a, num);
    assert PeerFromIe(h, p, from, plane, PLAIN) == (g, peer);
    SameRests(h, g);
    RestsBeside(h, g, t);
    RestsGoes(h, g, t, b, a, TeiIn(p, plane));
    SameTunnels(h, g, t);
    PlaneGoes(g, t, b, peer, a, num, TeiIn(p, plane));
    BesideChain(h, g, PlaneIe(g, t, b, peer, TeiIn(p, plane)).h, t);
  }

  // ---- Both planes ----

  /** The other tunnels' TEIs differ from the tunnel's, and from those of the message where they have its addresses. */
  ghost predicate Free(h: Hub, p: Packet, t: nat)
    requires t in TunIds(h.lists.tunnels) && Ctrl in p.gsn && User in p.gsn
  {
    forall z | z in h.lists.tunnels && z.id != t ::
      && (forall c: Bind :: TeiOf(z, c) == 0 || TeiOf(z, c) != TeiOf(TunnelOf(h, t), c))
      && !(TeiOf(z, Bind(p.side, Ctrl)) == TeiIn(p, Ctrl) && AddrAt(h, Endpoint(z.id, Bind(p.side, Ctrl))) == Some(p.gsn[Ctrl]))
      && !(TeiOf(z, Bind(p.side, User)) == TeiIn(p, User) && AddrAt(h, Endpoint(z.id, Bind(p.side, User))) == Some(p.gsn[User]))
  }

  /** Both planes have a TEI and clash with none, or neither has one and both were announced. */
  ghost predicate BothGo(h: Hub, p: Packet, t: nat)
    requires t in TunIds(h.lists.tunnels) && Ctrl in p.gsn && User in p.gsn
  {
    if TeiIn(p, Ctrl) != 0 then TeiIn(p, User) != 0 && Lonely(h, t) && Free(h, p, t)
    else
      && TeiIn(p, User) == 0 && TeiOf(TunnelOf(h, t), Bind(p.side, Ctrl)) != 0 && TeiOf(TunnelOf(h, t), Bind(p.side, User)) != 0
      && TunnelOf(h, t).checked
  }

  lemma BothOrNone(h: Hub, p: Packet, t: nat)
    requires t in TunIds(h.lists.tunnels) && Ctrl in p.gsn && User in p.gsn && BothGo(h, p, t)
    ensures TeiIn(p, Ctrl) == 0 <==> TeiIn(p, User) == 0
  {
    hide TunIds, AddrAt, TeiOf;
  }

  lemma FirstGoes(h: Hub, p: Packet, t: nat)
    requires t in TunIds(h.lists.tunnels) && Ctrl in p.gsn && User in p.gsn && BothGo(h, p, t)
    ensures Goes(h, t, Bind(p.side, Ctrl), p.gsn[Ctrl], TeiIn(p, Ctrl))
  {
    hide TunIds, AddrAt, TeiOf;
  }

  lemma SecondGoes(h: Hub, g: Hub, p: Packet, t: nat)
    requires Inv(h) && Inv(g) && t in TunIds(h.lists.tunnels) && Ctrl in p.gsn && User in p.gsn && BothGo(h, p, t)
    requires Beside(h, g, t) && t in TunIds(g.lists.tunnels) && TunnelOf(g, t).checked
    requires forall c: Bind | c != Bind(p.side, Ctrl) :: TeiOf(TunnelOf(g, t), c) == TeiOf(TunnelOf(h, t), c)
    requires TeiIn(p, Ctrl) != 0 ==>
      TeiOf(TunnelOf(g, t), Bind(p.side, Ctrl)) == TeiIn(p, Ctrl) && AddrAt(g, Endpoint(t, Bind(p.side, Ctrl))) == Some(p.gsn[Ctrl])
    ensures Goes(g, t, Bind(p.side, User), p.gsn[User], TeiIn(p, User))
  {
    hide Inv, Steady, RefAt, TunIds, AddrAt, TeiOf, Beside;
    OthersSame(h, g, t);
    if TeiIn(p, User) != 0 {
      forall z | z in g.lists.tunnels && z.id != t
        ensures !(TeiOf(z, Bind(p.side, User)) == TeiIn(p, User) && AddrAt(g, Endpoint(z.id, Bind(p.side, User))) == Some(p.gsn[User]))
        ensures forall c: Bind | c != Bind(p.side, User) :: !Shares(g, z, TunnelOf(g, t), c)
      {
        forall c: Bind ensures AddrAt(g, Endpoint(z.id, c)) == AddrAt(h, Endpoint(z.id, c)) { BesideAddr(h, g, t, Endpoint(z.id, c)); }
      }
    }
  }

  /** A create message of which both planes go through. */
  lemma PlanesGo(h: Hub, p: Packet, t: nat, from: nat)
    requires Inv(h) && from in h.net.ports && PeerOf(h, from) in h.peers && t in TunIds(h.lists.tunnels)
    requires Ctrl in p.gsn && User in p.gsn && Fits(p, Ctrl, PLAIN) && Fits(p, User, PLAIN) && BothGo(h, p, t)
    requires p.kind == CreateReq ==> Ctrl in p.teis && User in p.teis
    ensures var r := CreatePlanes(h, p, t, from, PLAIN);
      && r.Handled? && r.ok && r.tun == Some(t) && Inv(r.h) && Beside(h, r.h, t)
      && t in TunIds(r.h.lists.tunnels) && TunnelOf(r.h, t).checked
      && (TeiIn(p, Ctrl) == 0 ==> TunnelOf(r.h, t) == TunnelOf(h, t))
  {
    hide Inv, CreatePlane, TunIds, Steady, Told, Place, PeerOf, Goes, BothGo, Beside, AddrAt, Fits, RefAt;
    BothOrNone(h, p, t);
    FirstGoes(h, p, t);
    CreatePlaneOk(h, p, t, from, Ctrl, PLAIN);
    CreatePlaneGoes(h, p, t, from, Ctrl);
    CreatePlaneSets(h, p, t, from, Ctrl, PLAIN);
    var one := CreatePlane(h, p, t, from, Ctrl, PLAIN).h;
    SteadyPort(h, one, from);
    PlaceIs(h, p, from, Ctrl);
    if TeiIn(p, Ctrl) != 0 { ToldAddr(one, t, Bind(p.side, Ctrl), p.gsn[Ctrl], 2123, TeiIn(p, Ctrl)); }
    forall c: Bind | c != Bind(p.side, Ctrl) ensures TeiOf(TunnelOf(one, t), c) == TeiOf(TunnelOf(h, t), c) {
      assert EndAt(one, t, c) == EndAt(h, t, c);
    }
    SecondGoes(h, one, p, t);
    CreatePlaneOk(one, p, t, from, User, PLAIN);
    CreatePlaneGoes(one, p, t, from, User);
    BesideChain(h, one, CreatePlane(one, p, t, from, User, PLAIN).h, t);
  }

  lemma PlaceIs(h: Hub, p: Packet, from: nat, plane: Plane)
    requires plane in p.gsn && from in h.net.ports && PeerOf(h, from) in h.peers
    ensures Place(h, p, from, plane, PLAIN) == (p.gsn[plane], if plane == Ctrl then 2123 else 2152)
  {
  }

  lemma ToldAddr(h: Hub, t: nat, b: Bind, a: Addr, num: PortNum, tei: nat)
    requires t in TunIds(h.lists.tunnels) && Told(h, EndAt(h, t, b), (a, num), tei)
    ensures AddrAt(h, Endpoint(t, b)) == Some(a) && (tei != 0 ==> TeiOf(TunnelOf(h, t), b) == tei)
  {
    hide TunIds;
  }

  // ---- The messages ----


  /** A request of an SGSN with its two TEIs. */
  function Req(ctrl: nat, user: nat): Packet {
    Packet(Sgsn, Ctrl, SGSN, 2123, false, CreateReq, 0, 0, None, map[Ctrl := SGSN, User := SGSN], map[Ctrl := ctrl, User := user],
           NoApn, None, None, None, 0, 0)
  }

  /** A response through the proxy of the GGSNs, with the TEIs given and the address for user packets. */
  function Rsp(tei: nat, teis: map<Plane, nat>, user: Addr): Packet {
    Packet(Ggsn, Ctrl, GGSN, 2123, false, CreateRsp, 1, tei, None, map[Ctrl := GGSN, User := user], teis,
           NoApn, None, None, None, 0, 0)
  }

  /** A hub at time zero with the proxy of the GGSNs' control plane, and every tunnel checked. */
  ghost predicate Base(h: Hub, pp: nat) {
    && Inv(h) && h.queues.clock == 0 && RefAt(h, Proxy(GGSN_CTRL)) == Some(pp) && Names(h, pp, GGSN, 2123)
    && RefAt(h, Proxy(SGSN_CTRL)).None? && forall x <- h.lists.tunnels :: x.checked
  }

  /** What is known of a tunnel: its TEIs, the addresses at the GGSN, and that the SGSN has one. */
  ghost predicate Known(h: Hub, t: nat, sc: nat, su: nat, gc: nat, gu: nat, user: Option<Addr>) {
    && t in TunIds(h.lists.tunnels) && TunnelOf(h, t).checked
    && TeiOf(TunnelOf(h, t), SGSN_CTRL) == sc && TeiOf(TunnelOf(h, t), SGSN_USER) == su
    && TeiOf(TunnelOf(h, t), GGSN_CTRL) == gc && TeiOf(TunnelOf(h, t), GGSN_USER) == gu
    && RefAt(h, Endpoint(t, SGSN_CTRL)).Some?
    && AddrAt(h, Endpoint(t, GGSN_CTRL)) == Some(GGSN) && AddrAt(h, Endpoint(t, GGSN_USER)) == user
  }

  lemma KnownStays(h: Hub, g: Hub, other: nat, t: nat, sc: nat, su: nat, gc: nat, gu: nat, user: Option<Addr>)
    requires Inv(h) && Inv(g) && Beside(h, g, other) && t != other && Known(h, t, sc, su, gc, gu, user)
    ensures Known(g, t, sc, su, gc, gu, user)
  {
    hide Inv, Steady, AddrAt, TunIds;
    var x := TunnelOf(h, t);
    TunnelUnique(g, x);
    BesideAddr(h, g, other, Endpoint(t, GGSN_CTRL));
    BesideAddr(h, g, other, Endpoint(t, GGSN_USER));
  }

  lemma KnownRests(h: Hub, g: Hub, t: nat, sc: nat, su: nat, gc: nat, gu: nat, user: Option<Addr>)
    requires Inv(h) && Inv(g) && Rests(h, g) && Known(h, t, sc, su, gc, gu, user)
    ensures Known(g, t, sc, su, gc, gu, user)
  {
    hide Inv, Steady, AddrAt, TunIds;
    SameTunnels(h, g, t);
    RestsAddr(h, g, Endpoint(t, GGSN_CTRL));
    RestsAddr(h, g, Endpoint(t, GGSN_USER));
  }

  lemma BaseBeside(h: Hub, g: Hub, t: nat, pp: nat)
    requires Base(h, pp) && Inv(g) && g.queues.clock == 0 && Beside(h, g, t)
    requires t in TunIds(g.lists.tunnels) ==> TunnelOf(g, t).checked
    ensures Base(g, pp)
  {
    hide Inv, Steady, TunIds;
    NamesStay(h, g, pp, GGSN, 2123);
    forall x | x in g.lists.tunnels ensures x.checked {
      if x.id == t { TunnelUnique(g, x); }
    }
  }

  // ---- Before and after the tunnel's part ----

  lemma AdvanceRests(h: Hub, now: nat)
    ensures Rests(h, Advance(h, now))
  {
  }

  lemma SgsnSender(h: Hub, p: Packet)
    requires Inv(h) && p.side == Sgsn && p.plane == Ctrl && p.fromPort != 0 && RefAt(h, Proxy(SGSN_CTRL)).None?
    ensures var (g, from) := Sender(h, p); Rests(h, g) && from.Some?
  {
    hide Inv, Sender, Rests, Steady, Names, SenderMaps, SenderPort, PeerOf;
    SenderMet(h, p);
    SameRests(h, Sender(h, p).0);
  }

  lemma ReqArrives(h: Hub, pp: nat, p: Packet)
    requires Base(h, pp) && p.now == 0 == p.later && p.kind == CreateReq && p.side == Sgsn && p.plane == Ctrl
    requires p.fromAddr == SGSN && p.fromPort != 0 && !p.gtp0 && p.restart.None?
    ensures var r := Arrive(h, p); r.Arrived? && Rests(h, r.h)
  {
    hide Inv, Sender, Rests, Advance, TunIds, RefAt, Names;
    AdvanceOk(h, 0);
    AdvanceRests(h, 0);
    var h0 := Advance(h, 0);
    ProxyRests(h, h0, SGSN_CTRL);
    SgsnSender(h0, p);
    SenderOk(h0, p);
    RestsChain(h, h0, Sender(h0, p).0);
  }

  lemma ProxyRests(h: Hub, g: Hub, b: Bind)
    requires Rests(h, g)
    ensures RefAt(g, Proxy(b)) == RefAt(h, Proxy(b))
  {
    hide Steady, RefAt;
  }

  lemma RspArrives(h: Hub, pp: nat, p: Packet)
    requires Base(h, pp) && p.now == 0 == p.later && p.kind == CreateRsp && p.side == Ggsn && p.plane == Ctrl
    requires p.fromAddr == GGSN && p.fromPort == 2123 && !p.gtp0 && p.restart.None?
    ensures Arrive(h, p) == Arrived(Advance(h, 0), pp)
  {
    hide Inv;
    AdvanceOk(h, 0);
    var h0 := Advance(h, 0);
    assert Sender(h0, p) == (h0, Some(pp));
  }

  // ---- The destinations ----

  /** A request goes to the proxy. */
  lemma ReqLocated(h: Hub, pp: nat, p: Packet, from: nat)
    requires Inv(h) && RefAt(h, Proxy(GGSN_CTRL)) == Some(pp) && from in h.net.ports && h.queues.clock <= p.later
    requires p.side == Sgsn && p.plane == Ctrl && p.tei == 0
    ensures var l := Locate(h, p, from); l.Located? && l.h == h && l.u.Unmapped? && l.u.tun.None? && l.to == pp
  {
    hide Inv, UnmapSeq, Resolve;
    UnmapOk(h, p, from);
    ResolveOk(h, p);
  }

  /** A response with a tunnel's replacement TEI belongs to the tunnel. */
  lemma RspLocated(h: Hub, p: Packet, from: nat, x: Tunnel)
    requires Inv(h) && from in h.net.ports && PeerOf(h, from) in h.peers && h.peers[PeerOf(h, from)].addr == Some(GGSN)
    requires h.queues.clock <= p.later && p.side == Ggsn && p.plane == Ctrl && p.tei == x.teiRepl
    requires x in h.lists.tunnels && (forall y <- h.lists.tunnels :: y.checked)
    requires AddrAt(h, Endpoint(x.id, GGSN_CTRL)) == Some(GGSN) && RefAt(h, Endpoint(x.id, SGSN_CTRL)).Some?
    ensures var l := Locate(h, p, from);
      l.Located? && Rests(h, l.h) && l.u.Unmapped? && l.u.tun == Some(x.id) && l.h.queues.clock == h.queues.clock
  {
    hide Inv, Enqueue, AddrAt, FindTunnel;
    FindsChecked(h, x, GGSN_CTRL, Some(GGSN));
    TunnelRange(h, x);
    assert SenderTunnel(h, p, from) == Some(x);
    UnmapOk(h, p, from);
    hide SenderTunnel;
    EnqueueClock(h.queues, true, TunItem(x.id));
    QuietRests(h, RefreshTunnel(h, x.id));
  }

  // ---- A request ----

  lemma NewBeside(h: Hub, to: nat)
    requires Inv(h) && to in h.net.ports
    ensures var (g, t) := NewTunnel(h, Some(to));
      && Beside(h, g, t) && t !in TunIds(h.lists.tunnels) && t in TunIds(g.lists.tunnels) && TunnelOf(g, t).teiOrig == map[]
      && RefAt(g, Endpoint(t, GGSN_CTRL)) == Some(to) && RefAt(g, Endpoint(t, GGSN_USER)) == None
  {
    hide Inv, NetOk, NewTunnel, TunIds, Steady, Grows;
    FreshTunnel(h);
    InvNet(h);
    NewTunnelOk(h, Some(to));
    NewCalm(h, to);
    NewSteady(h, to);
    NewOthers(h, to);
    var (g, t) := NewTunnel(h, Some(to));
    TunnelUnique(g, Tunnel(t, TeiNext(h.teiLast), map[], false));
  }

  lemma NewOthers(h: Hub, to: nat)
    requires NetOk(h.net) && to in h.net.ports
    ensures var (g, t) := NewTunnel(h, Some(to));
      && t == h.nextId
      && (forall x: Tunnel | x.id != t :: x in g.lists.tunnels <==> x in h.lists.tunnels)
      && (forall s: Slot | s.Proxy? || (s.Endpoint? && s.tun != t) :: RefAt(g, s) == RefAt(h, s))
  {
    hide NetOk, SetRef, Enqueue, SamePorts, TunIds;
    SetRefOk(h.net, Endpoint(h.nextId, GGSN_CTRL), Some(to));
  }

  /** The request's TEIs are those of no other tunnel. */
  ghost predicate Unused(h: Hub, ctrl: nat, user: nat) {
    forall z <- h.lists.tunnels :: TeiOf(z, SGSN_CTRL) != ctrl && TeiOf(z, SGSN_USER) != user
  }

  /** There is one tunnel at most. */
  ghost predicate AtMostOne(h: Hub) { forall x, y | x in h.lists.tunnels && y in h.lists.tunnels :: x == y }

  lemma NewGoes(h: Hub, to: nat, ctrl: nat, user: nat)
    requires Inv(h) && to in h.net.ports && AtMostOne(h) && Unused(h, ctrl, user) && ctrl != 0 && user != 0
    ensures var (g, t) := NewTunnel(h, Some(to)); t in TunIds(g.lists.tunnels) && BothGo(g, Req(ctrl, user), t)
  {
    hide Inv, NewTunnel, TunIds, Steady, RefAt, AddrAt;
    NewBeside(h, to);
    var (g, t) := NewTunnel(h, Some(to));
    OthersSame(h, g, t);
  }

  lemma ToldKnown(h: Hub, t: nat, b: Bind, a: Addr, num: PortNum, tei: nat)
    requires t in TunIds(h.lists.tunnels) && tei != 0 && Told(h, EndAt(h, t, b), (a, num), tei)
    ensures TeiOf(TunnelOf(h, t), b) == tei && RefAt(h, Endpoint(t, b)).Some? && AddrAt(h, Endpoint(t, b)) == Some(a)
  {
    hide TunIds;
  }

  lemma EndKnown(h: Hub, t: nat, b: Bind, e: End, pp: nat)
    requires t in TunIds(h.lists.tunnels) && EndAt(h, t, b) == e && Names(h, pp, GGSN, 2123)
    ensures TeiOf(TunnelOf(h, t), b) == e.tei && RefAt(h, Endpoint(t, b)) == e.to
    ensures (e.to == Some(pp) ==> AddrAt(h, Endpoint(t, b)) == Some(GGSN)) && (e.to.None? ==> AddrAt(h, Endpoint(t, b)) == None)
  {
    hide TunIds;
  }

  /** The planes of a request on its new tunnel. */
  lemma ReqPlanes(g: Hub, t: nat, from: nat, pp: nat, ctrl: nat, user: nat)
    requires Inv(g) && from in g.net.ports && t in TunIds(g.lists.tunnels) && ctrl != 0 && user != 0
    requires BothGo(g, Req(ctrl, user), t) && Names(g, pp, GGSN, 2123)
    requires EndAt(g, t, GGSN_CTRL) == End(0, Some(pp)) && EndAt(g, t, GGSN_USER) == End(0, None)
    ensures var r := CreatePlanes(g, Req(ctrl, user), t, from, PLAIN);
      && r.Handled? && r.ok && r.tun == Some(t) && Inv(r.h) && Beside(g, r.h, t) && Steady(g, r.h)
      && Known(r.h, t, ctrl, user, 0, 0, None)
  {
    var p := Req(ctrl, user);
    hide Inv, CreatePlanes, TunIds, BothGo, Beside, Steady, AddrAt, RefAt, PeerOf, EndAt, Told, Fits, Names, Host;
    PeerLive(g, from);
    FitsPlain(p, Ctrl, 1);
    FitsPlain(p, User, 1);
    PlanesGo(g, p, t, from);
    CreatePlanesSets(g, p, t, from, PLAIN);
    PlaceIs(g, p, from, Ctrl);
    PlaceIs(g, p, from, User);
    var e := CreatePlanes(g, p, t, from, PLAIN).h;
    NamesStay(g, e, pp, GGSN, 2123);
    ToldKnown(e, t, SGSN_CTRL, SGSN, 2123, ctrl);
    ToldKnown(e, t, SGSN_USER, SGSN, 2152, user);
    EndKnown(e, t, GGSN_CTRL, End(0, Some(pp)), pp);
    EndKnown(e, t, GGSN_USER, End(0, None), pp);
  }

  lemma NewEndsAre(h: Hub, pp: nat)
    requires Inv(h) && pp in h.net.ports && Names(h, pp, GGSN, 2123)
    ensures var (g, t) := NewTunnel(h, Some(pp));
      && t in TunIds(g.lists.tunnels) && Names(g, pp, GGSN, 2123)
      && EndAt(g, t, GGSN_CTRL) == End(0, Some(pp)) && EndAt(g, t, GGSN_USER) == End(0, None)
  {
    hide Inv, NewTunnel, TunIds, Steady, RefAt, Names;
    NewBeside(h, pp);
    NamesStay(h, NewTunnel(h, Some(pp)).0, pp, GGSN, 2123);
  }

  lemma BasePort(h: Hub, pp: nat)
    requires Base(h, pp)
    ensures pp in h.net.ports
  {
    hide Inv;
  }

  lemma ReqHandled(h: Hub, pp: nat, from: nat, ctrl: nat, user: nat) returns (t: nat)
    requires Base(h, pp) && from in h.net.ports
    requires AtMostOne(h) && Unused(h, ctrl, user) && ctrl != 0 && user != 0
    ensures pp in h.net.ports
    ensures var r := HandleCreate(h, Req(ctrl, user), None, from, pp, PLAIN);
      && r.Handled? && r.ok && r.tun == Some(t) && Inv(r.h)
      && t !in TunIds(h.lists.tunnels) && Beside(h, r.h, t) && Known(r.h, t, ctrl, user, 0, 0, None)
  {
    var p := Req(ctrl, user);
    hide Inv, NewTunnel, CreatePlanes, TunIds, BothGo, Beside, Steady, EndAt, Known, Names, AtMostOne, Unused, Grows;
    BasePort(h, pp);
    NewTunnelOk(h, Some(pp));
    NewBeside(h, pp);
    NewGoes(h, pp, ctrl, user);
    NewEndsAre(h, pp);
    var (g, made) := NewTunnel(h, Some(pp));
    t := made;
    PortStays(h, g, from);
    ReqPlanes(g, t, from, pp, ctrl, user);
    BesideChain(h, g, CreatePlanes(g, p, t, from, PLAIN).h, t);
  }

  /** The rest of a message that was handled. */
  lemma DeliverHandled(h: Hub, p: Packet, u: Unmapped, from: nat, to: nat, t: nat)
    requires Inv(h) && u.Unmapped? && from in h.net.ports && to in h.net.ports
    requires u.tun.Some? ==> u.tun.value in TunIds(h.lists.tunnels)
    requires p.plane == Ctrl && (p.kind == CreateReq || p.kind == CreateRsp)
    requires var r := HandleCreate(h, p, u.tun, from, to, PLAIN); r.Handled? && r.ok && r.tun == Some(t) && Inv(r.h)
    ensures var r := HandleCreate(h, p, u.tun, from, to, PLAIN); Rests(r.h, Deliver(h, p, u, from, to, PLAIN).0)
  {
    hide Inv, HandleCreate, Forward, TunIds, Rests, Grows;
    HandlePdpOk(h, p, u.tun, from, to, PLAIN);
    var r := HandleCreate(h, p, u.tun, from, to, PLAIN);
    ForwardRests(r.h, p, u, from, to);
  }

  /** The whole packet, from the tables it finds. */
  lemma HandledWhole(h: Hub, p: Packet, g: Hub, from: nat, l: Located)
    requires Inv(h) && h.queues.clock <= p.now <= p.later && Arrive(h, p) == Arrived(g, from)
    requires Inv(g) && from in g.net.ports && g.queues.clock <= p.later && Locate(g, p, from) == l && l.Located?
    ensures Inv(l.h) && from in l.h.net.ports && l.to in l.h.net.ports && l.u.Unmapped?
    ensures l.u.tun.Some? ==> l.u.tun.value in TunIds(l.h.lists.tunnels)
    ensures HandleBuf(h, p, PLAIN).0 == Deliver(l.h, p, l.u, from, l.to, PLAIN).0
  {
    hide Inv, Arrive, Locate, Deliver, TunIds;
    ArriveOk(h, p);
    LocateOk(g, p, from);
  }

  /** A request with unused TEIs makes a new tunnel and leaves all others alone. */
  lemma ReqStep(h: Hub, pp: nat, ctrl: nat, user: nat) returns (t: nat)
    requires Base(h, pp) && AtMostOne(h) && Unused(h, ctrl, user) && ctrl != 0 && user != 0
    ensures Inv(h) && h.queues.clock == 0
    ensures var g := HandleBuf(h, Req(ctrl, user), PLAIN).0;
      Base(g, pp) && t !in TunIds(h.lists.tunnels) && Beside(h, g, t) && Known(g, t, ctrl, user, 0, 0, None)
  {
    var p := Req(ctrl, user);
    hide Inv, Arrive, Locate, Deliver, HandleCreate, HandleBuf, TunIds, Beside, Rests, Steady, RefAt, Known, Grows;
    ReqArrives(h, pp, p);
    ArriveOk(h, p);
    var g, from := Arrive(h, p).h, Arrive(h, p).from;
    BaseRests(h, g, pp);
    ReqLocated(g, pp, p, from);
    var l := Locate(g, p, from);
    HandledWhole(h, p, g, from, l);
    RestsOne(h, g, ctrl, user);
    t := ReqHandled(g, pp, from, ctrl, user);
    DeliverHandled(g, p, l.u, from, pp, t);
    var r, e := HandleCreate(g, p, None, from, pp, PLAIN).h, HandleBuf(h, p, PLAIN).0;
    HandleBufOk(h, p, PLAIN);
    KnownRests(r, e, t, ctrl, user, 0, 0, None);
    RestsBeside(h, g, t);
    RestsBeside(r, e, t);
    BesideChain(h, g, r, t);
    BesideChain(h, r, e, t);
    KnownChecked(e, t, ctrl, user, 0, 0, None);
    BaseBeside(h, e, t, pp);
  }

  lemma BaseRests(h: Hub, g: Hub, pp: nat)
    requires Base(h, pp) && Inv(g) && g.queues.clock == 0 && Rests(h, g)
    ensures Base(g, pp)
  {
    hide Inv, Steady, TunIds;
    NamesStay(h, g, pp, GGSN, 2123);
  }

  lemma RestsOne(h: Hub, g: Hub, ctrl: nat, user: nat)
    requires Rests(h, g)
    ensures g.lists.tunnels == h.lists.tunnels && (AtMostOne(h) ==> AtMostOne(g)) && (Unused(h, ctrl, user) ==> Unused(g, ctrl, user))
  {
    hide Steady, RefAt;
  }

  lemma KnownChecked(h: Hub, t: nat, sc: nat, su: nat, gc: nat, gu: nat, user: Option<Addr>)
    requires Known(h, t, sc, su, gc, gu, user)
    ensures t in TunIds(h.lists.tunnels) && TunnelOf(h, t).checked
  {
    hide TunIds, AddrAt;
  }

  // ---- A response ----

  lemma RestsBothGo(h: Hub, g: Hub, p: Packet, t: nat)
    requires Inv(h) && Inv(g) && Rests(h, g) && t in TunIds(h.lists.tunnels) && Ctrl in p.gsn && User in p.gsn && BothGo(h, p, t)
    ensures BothGo(g, p, t)
  {
    hide Inv, Steady, RefAt, TunIds, AddrAt, TeiOf;
    SameTunnels(h, g, t);
    forall z, c: Bind | z in h.lists.tunnels ensures AddrAt(g, Endpoint(z.id, c)) == AddrAt(h, Endpoint(z.id, c)) {
      RestsAddr(h, g, Endpoint(z.id, c));
    }
  }

  function Or(tei: nat, before: nat): nat { if tei != 0 then tei else before }

  lemma RspPlanes(g: Hub, p: Packet, t: nat, from: nat, sc: nat, su: nat, gc: nat, gu: nat, before: Option<Addr>, n: int)
    requires Inv(g) && from in g.net.ports && Known(g, t, sc, su, gc, gu, before)
    requires p == Rsp(p.tei, p.teis, Host(n)) && BothGo(g, p, t)
    ensures var r := CreatePlanes(g, p, t, from, PLAIN);
      && r.Handled? && r.ok && r.tun == Some(t) && Inv(r.h) && Beside(g, r.h, t)
      && Known(r.h, t, sc, su, Or(TeiIn(p, Ctrl), gc), Or(TeiIn(p, User), gu), Some(Host(n)))
  {
    hide Inv, CreatePlanes, TunIds, BothGo, Beside, Steady, AddrAt, RefAt, PeerOf, Told, Fits, Names, Host, TeiIn;
    PeerLive(g, from);
    FitsPlain(p, Ctrl, 2);
    FitsPlain(p, User, n);
    BothOrNone(g, p, t);
    PlanesGo(g, p, t, from);
    CreatePlanesSets(g, p, t, from, PLAIN);
    PlaceIs(g, p, from, Ctrl);
    PlaceIs(g, p, from, User);
    var e := CreatePlanes(g, p, t, from, PLAIN).h;
    ToldAddr(e, t, GGSN_CTRL, GGSN, 2123, TeiIn(p, Ctrl));
    ToldAddr(e, t, GGSN_USER, Host(n), 2152, TeiIn(p, User));
    assert EndAt(e, t, SGSN_CTRL) == EndAt(g, t, SGSN_CTRL) && EndAt(e, t, SGSN_USER) == EndAt(g, t, SGSN_USER);
  }

  lemma BasePeer(h: Hub, pp: nat)
    requires Base(h, pp)
    ensures pp in h.net.ports && PeerOf(h, pp) in h.peers && h.peers[PeerOf(h, pp)].addr == Some(GGSN)
  {
    hide Inv;
  }

  lemma KnownFacts(h: Hub, t: nat, sc: nat, su: nat, gc: nat, gu: nat, user: Option<Addr>)
    requires Known(h, t, sc, su, gc, gu, user)
    ensures t in TunIds(h.lists.tunnels) && TunnelOf(h, t) in h.lists.tunnels && TunnelOf(h, t).id == t
    ensures AddrAt(h, Endpoint(t, GGSN_CTRL)) == Some(GGSN) && RefAt(h, Endpoint(t, SGSN_CTRL)).Some?
  {
    hide TunIds, AddrAt, RefAt;
  }

  lemma BaseChecked(h: Hub, pp: nat)
    requires Base(h, pp)
    ensures (forall y <- h.lists.tunnels :: y.checked) && h.queues.clock == 0
  {
    hide Inv;
  }

  lemma RspHandled(h: Hub, p: Packet, t: nat, from: nat, to: nat, sc: nat, su: nat, gc: nat, gu: nat, before: Option<Addr>, n: int)
    requires Inv(h) && from in h.net.ports && to in h.net.ports && Known(h, t, sc, su, gc, gu, before)
    requires p == Rsp(p.tei, p.teis, Host(n)) && BothGo(h, p, t)
    ensures t in TunIds(h.lists.tunnels)
    ensures var r := HandleCreate(h, p, Some(t), from, to, PLAIN);
      && r.Handled? && r.ok && r.tun == Some(t) && Inv(r.h) && Beside(h, r.h, t)
      && Known(r.h, t, sc, su, Or(TeiIn(p, Ctrl), gc), Or(TeiIn(p, User), gu), Some(Host(n)))
  {
    hide Inv, CreatePlanes, TunIds, BothGo, Beside, Known, NewTunnel, TeiIn;
    KnownChecked(h, t, sc, su, gc, gu, before);
    RspPlanes(h, p, t, from, sc, su, gc, gu, before, n);
  }

  /** The tables a response finds, and where it goes. */
  lemma RspFound(h: Hub, pp: nat, t: nat, p: Packet, n: int) returns (m: Hub, u: Unmapped, to: nat)
    requires Base(h, pp) && t in TunIds(h.lists.tunnels) && p == Rsp(TunnelOf(h, t).teiRepl, p.teis, Host(n))
    requires AddrAt(h, Endpoint(t, GGSN_CTRL)) == Some(GGSN) && RefAt(h, Endpoint(t, SGSN_CTRL)).Some?
    ensures Inv(h) && h.queues.clock == 0 && Rests(h, m) && Inv(m) && pp in m.net.ports && to in m.net.ports
    ensures u.Unmapped? && u.tun == Some(t) && t in TunIds(m.lists.tunnels)
    ensures HandleBuf(h, p, PLAIN).0 == Deliver(m, p, u, pp, to, PLAIN).0
  {
    hide Inv, Arrive, Locate, Deliver, HandleBuf, TunIds, Rests, RefAt, Grows, AddrAt, PeerOf, Advance, Names, Host;
    RspArrives(h, pp, p);
    ArriveOk(h, p);
    AdvanceRests(h, 0);
    AdvanceClock(h, 0);
    var g := Advance(h, 0);
    BaseRests(h, g, pp);
    SameList(h, g);
    SameTunnels(h, g, t);
    RestsAddr(h, g, Endpoint(t, GGSN_CTRL));
    EndpointRests(h, g, Endpoint(t, SGSN_CTRL));
    BasePeer(g, pp);
    BaseChecked(g, pp);
    RspLocated(g, p, pp, TunnelOf(g, t));
    var l := Locate(g, p, pp);
    HandledWhole(h, p, g, pp, l);
    RestsChain(h, g, l.h);
    m, u, to := l.h, l.u, l.to;
  }

  lemma EndpointRests(h: Hub, g: Hub, s: Slot)
    requires Rests(h, g) && s.Endpoint?
    ensures RefAt(g, s) == RefAt(h, s)
  {
    hide Steady, RefAt;
  }

  lemma RspDelivered(m: Hub, p: Packet, u: Unmapped, pp: nat, to: nat, t: nat, sc: nat, su: nat, gc: nat, gu: nat,
                     before: Option<Addr>, n: int) returns (r: Hub)
    requires Inv(m) && pp in m.net.ports && to in m.net.ports && Known(m, t, sc, su, gc, gu, before) && t in TunIds(m.lists.tunnels)
    requires p == Rsp(p.tei, p.teis, Host(n)) && BothGo(m, p, t) && u.Unmapped? && u.tun == Some(t)
    ensures Inv(r) && Beside(m, r, t) && Rests(r, Deliver(m, p, u, pp, to, PLAIN).0)
    ensures Known(r, t, sc, su, Or(TeiIn(p, Ctrl), gc), Or(TeiIn(p, User), gu), Some(Host(n)))
  {
    hide Inv, Deliver, HandleCreate, TunIds, Beside, Rests, Known, BothGo, Host, TeiIn, Or;
    RspHandled(m, p, t, pp, to, sc, su, gc, gu, before, n);
    DeliverHandled(m, p, u, pp, to, t);
    r := HandleCreate(m, p, Some(t), pp, to, PLAIN).h;
  }

  /** A response with the tunnel's header TEI: the tunnel's ends at the GGSN become those of the message, the TEIs kept where
      it has none, and all other tunnels stay. */
  lemma RspStep(h: Hub, pp: nat, t: nat, p: Packet, sc: nat, su: nat, gc: nat, gu: nat, before: Option<Addr>, n: int)
    requires Base(h, pp) && Known(h, t, sc, su, gc, gu, before) && t in TunIds(h.lists.tunnels)
    requires p == Rsp(TunnelOf(h, t).teiRepl, p.teis, Host(n)) && BothGo(h, p, t)
    ensures Inv(h) && h.queues.clock == 0
    ensures var g := HandleBuf(h, p, PLAIN).0;
      Base(g, pp) && Beside(h, g, t) && Known(g, t, sc, su, Or(TeiIn(p, Ctrl), gc), Or(TeiIn(p, User), gu), Some(Host(n)))
  {
    hide Inv, Base, Deliver, HandleBuf, TunIds, Beside, Rests, RefAt, Known, BothGo, AddrAt, Host, TeiIn, Or;
    KnownFacts(h, t, sc, su, gc, gu, before);
    var m, u, to := RspFound(h, pp, t, p, n);
    KnownRests(h, m, t, sc, su, gc, gu, before);
    RestsBothGo(h, m, p, t);
    var r := RspDelivered(m, p, u, pp, to, t, sc, su, gc, gu, before, n);
    RestsBeside(h, m, t);
    BesideChain(h, m, r, t);
    HandleBufOk(h, p, PLAIN);
    RspEnd(h, r, HandleBuf(h, p, PLAIN).0, pp, t, sc, su, Or(TeiIn(p, Ctrl), gc), Or(TeiIn(p, User), gu), Some(Host(n)));
  }

  lemma RspEnd(h: Hub, r: Hub, e: Hub, pp: nat, t: nat, sc: nat, su: nat, gc: nat, gu: nat, user: Option<Addr>)
    requires Base(h, pp) && Inv(r) && Inv(e) && e.queues.clock == 0 && Beside(h, r, t) && Rests(r, e)
    requires Known(r, t, sc, su, gc, gu, user)
    ensures Base(e, pp) && Beside(h, e, t) && Known(e, t, sc, su, gc, gu, user)
  {
    hide Inv, Beside, Rests, Known, Base, TunIds;
    KnownRests(r, e, t, sc, su, gc, gu, user);
    RestsBeside(r, e, t);
    BesideChain(h, r, e, t);
    KnownChecked(e, t, sc, su, gc, gu, user);
    BaseBeside(h, e, t, pp);
  }

  lemma SameList(h: Hub, g: Hub)
    requires Rests(h, g)
    ensures g.lists.tunnels == h.lists.tunnels
  {
    hide Steady, RefAt;
  }

  // ---- The run ----

  const PROXY := ProxyAddr(GGSN_CTRL, GGSN, 2123)

  lemma StartedBase() returns (pp: nat)
    ensures var h := Started(0, [PROXY]); Base(h, pp) && h.lists.tunnels == []
  {
    hide Inv, PortHave, Steady, Names, SetRef, NetOk, SamePorts;
    InitOk(0);
    var h := Init(0);
    assert [PROXY][..0] == [];
    assert WithProxies(h, []) == h;
    assert WithProxies(h, [PROXY]) == MakeProxy(h, GGSN_CTRL, GGSN, 2123);
    PortNamed(h, GGSN_CTRL, GGSN, 2123);
    PortHaveOk(h, GGSN_CTRL, GGSN, 2123);
    var (g, p) := PortHave(h, GGSN_CTRL, GGSN, 2123);
    pp := p;
    InvNet(g);
    SetRefOk(g.net, Proxy(GGSN_CTRL), Some(p));
    var e := MakeProxy(h, GGSN_CTRL, GGSN, 2123);
    SameSteady(g, e);
    NamesStay(g, e, pp, GGSN, 2123);
    GrowsSame(h, g);
  }

  lemma GrowsSame(h: Hub, g: Hub)
    requires Grows(h, g)
    ensures g.queues.clock == h.queues.clock
  {
  }

  predicate AllNow(es: seq<Event>) { forall e <- es :: e.Packets? && e.p.now == 0 == e.p.later }

  lemma {:induction false} NowTimed(es: seq<Event>)
    requires AllNow(es)
    ensures Timed(es, 0)
  {
    if es != [] {
      assert es[0] in es && forall e <- es[1..] :: e in es;
      NowTimed(es[1..]);
    }
  }

  /** The packets, all at time zero, take the one hub to the other. */
  ghost predicate Leads(h: Hub, es: seq<Event>, g: Hub) {
    Inv(h) && h.queues.clock == 0 && AllNow(es) && Timed(es, h.queues.clock) && Run(h, es, PLAIN) == g
  }

  lemma LeadsSelf(h: Hub)
    requires Inv(h) && h.queues.clock == 0
    ensures Leads(h, [], h)
  {
    hide Inv;
  }

  lemma {:induction false} LeadsNext(h: Hub, es: seq<Event>, g: Hub, p: Packet)
    requires Leads(h, es, g) && p.now == 0 == p.later
    ensures Inv(g) && g.queues.clock == 0 && Leads(h, es + [Packets(p)], HandleBuf(g, p, PLAIN).0)
    decreases |es|
  {
    hide Inv, HandleBuf;
    var more := es + [Packets(p)];
    NowTimed(more);
    if es == [] {
      assert more == [Packets(p)] && more[0] == Packets(p) && more[1..] == [];
      StepOk(h, more[0], PLAIN);
      var k := Step(h, more[0], PLAIN);
      assert k == HandleBuf(h, p, PLAIN).0;
      assert Run(k, [], PLAIN) == k;
      assert Run(h, more, PLAIN) == k;
    } else {
      assert es[0] in es && forall e <- es[1..] :: e in es;
      StepOk(h, es[0], PLAIN);
      var k := Step(h, es[0], PLAIN);
      NowTimed(es[1..]);
      LeadsNext(k, es[1..], g, p);
      assert more[0] == es[0] && more[1..] == es[1..] + [Packets(p)];
    }
  }

  /** The tunnels are these. */
  ghost predicate Among(h: Hub, ids: set<nat>) { forall x <- h.lists.tunnels :: x.id in ids }

  lemma AmongBeside(h: Hub, g: Hub, t: nat, ids: set<nat>)
    requires Among(h, ids) && Beside(h, g, t)
    ensures Among(g, ids + {t})
  {
    hide Steady, RefAt;
  }

  lemma OneOnly(h: Hub, t: nat)
    requires Inv(h) && Among(h, {t})
    ensures AtMostOne(h) && Lonely(h, t)
  {
    hide Inv;
    forall x, y | x in h.lists.tunnels && y in h.lists.tunnels ensures x == y { SameNames(h, x); }
  }

  lemma TwoOnly(h: Hub, t: nat, other: nat)
    requires Inv(h) && Among(h, {other, t})
    ensures Lonely(h, t)
  {
    hide Inv;
    forall x, y | x in h.lists.tunnels && y in h.lists.tunnels && x.id != t && y.id != t ensures x == y { SameNames(h, x); }
  }

  lemma OnlyOf(h: Hub, t: nat, z: Tunnel)
    requires Inv(h) && t in TunIds(h.lists.tunnels) && z in h.lists.tunnels && z.id == t
    ensures z == TunnelOf(h, t)
  {
    hide Inv;
    TunnelUnique(h, z);
  }

  lemma FirstUnused(h: Hub, t: nat, user: Option<Addr>)
    requires Inv(h) && Among(h, {t}) && Known(h, t, 1, 2, 11, 5, user)
    ensures Unused(h, 3, 4)
  {
    hide Inv, TunIds, AddrAt, RefAt;
    forall z | z in h.lists.tunnels ensures TeiOf(z, SGSN_CTRL) != 3 && TeiOf(z, SGSN_USER) != 4 { OnlyOf(h, t, z); }
  }

  lemma FirstResponseGoes(h: Hub, t: nat, p: Packet)
    requires Inv(h) && Among(h, {t}) && t in TunIds(h.lists.tunnels)
    requires p.teis == map[Ctrl := 11, User := 5] && Ctrl in p.gsn && User in p.gsn
    ensures BothGo(h, p, t)
  {
    hide Inv, TunIds, AddrAt;
    OneOnly(h, t);
  }

  lemma SecondResponseGoes(h: Hub, a: nat, t: nat, p: Packet)
    requires Inv(h) && Among(h, {a, t}) && a != t && Known(h, a, 1, 2, 11, 5, Some(Host(3))) && Known(h, t, 3, 4, 0, 0, None)
    requires p.side == Ggsn && p.teis == map[Ctrl := 12, User := 5] && Ctrl in p.gsn && p.gsn[Ctrl] == GGSN
    requires User in p.gsn && p.gsn[User] == Host(4)
    ensures t in TunIds(h.lists.tunnels) && BothGo(h, p, t)
  {
    hide Inv, TunIds, AddrAt, RefAt;
    TwoOnly(h, t, a);
    assert Host(3)[3] != Host(4)[3];
    forall z | z in h.lists.tunnels && z.id != t
      ensures (forall c: Bind :: TeiOf(z, c) == 0 || TeiOf(z, c) != TeiOf(TunnelOf(h, t), c))
      ensures !(TeiOf(z, GGSN_CTRL) == 12) && !(TeiOf(z, GGSN_USER) == 5 && AddrAt(h, Endpoint(z.id, GGSN_USER)) == Some(Host(4)))
    {
      OnlyOf(h, a, z);
      forall c: Bind ensures TeiOf(z, c) == 0 || TeiOf(z, c) != TeiOf(TunnelOf(h, t), c) { FourBinds(c); }
    }
  }

  lemma BareResponseGoes(h: Hub, t: nat, p: Packet, sc: nat, su: nat, gc: nat, gu: nat, user: Option<Addr>)
    requires Known(h, t, sc, su, gc, gu, user) && gc != 0 && gu != 0
    requires p.side == Ggsn && p.teis == map[] && Ctrl in p.gsn && User in p.gsn
    ensures t in TunIds(h.lists.tunnels) && BothGo(h, p, t)
  {
    hide TunIds, AddrAt, RefAt;
  }

  /** After both exchanges the tunnels differ at every endpoint. */
  lemma PairDistinct(h: Hub, a: nat, t: nat)
    requires Inv(h) && Among(h, {a, t}) && a != t
    requires Known(h, a, 1, 2, 11, 5, Some(Host(3))) && Known(h, t, 3, 4, 12, 5, Some(Host(4)))
    ensures EndpointsDistinct(h)
  {
    hide Inv, TunIds, AddrAt, RefAt;
    assert Host(3)[3] != Host(4)[3];
    var x, y := TunnelOf(h, a), TunnelOf(h, t);
    assert !SharesAny(h, x, y) && !SharesAny(h, y, x);
    forall v, w | v in h.lists.tunnels && w in h.lists.tunnels && v.id != w.id ensures !SharesAny(h, v, w) {
      if v.id == a { OnlyOf(h, a, v); OnlyOf(h, t, w); } else { OnlyOf(h, t, v); OnlyOf(h, a, w); }
    }
  }

  /** After the last response they have the same address and TEI for the GGSN's user packets. */
  lemma PairShares(h: Hub, a: nat, t: nat)
    requires a != t && Known(h, a, 1, 2, 11, 5, Some(Host(3))) && Known(h, t, 3, 4, 12, 5, Some(Host(3)))
    ensures !EndpointsDistinct(h)
  {
    hide TunIds, AddrAt, RefAt, EndpointsDistinct;
    SameAddrShares(h, TunnelOf(h, a), TunnelOf(h, t), GGSN_USER);
  }

  /** The first exchange. */
  lemma FirstExchange(h: Hub, pp: nat) returns (p: Packet, g: Hub, t: nat)
    requires Base(h, pp) && h.lists.tunnels == []
    ensures Leads(h, [Packets(Req(1, 2)), Packets(p)], g) && p.kind == CreateRsp && p.teis == map[Ctrl := 11, User := 5]
    ensures Base(g, pp) && Among(g, {t}) && Known(g, t, 1, 2, 11, 5, Some(Host(3)))
  {
    hide Inv, Base, TunIds, Known, Beside, HandleBuf, Leads, BothGo, Host;
    BaseInv(h, pp);
    EmptyList(h);
    LeadsSelf(h);
    t := ReqStep(h, pp, 1, 2);
    LeadsNext(h, [], h, Req(1, 2));
    assert [] + [Packets(Req(1, 2))] == [Packets(Req(1, 2))];
    var m := HandleBuf(h, Req(1, 2), PLAIN).0;
    AmongBeside(h, m, t, {});
    KnownChecked(m, t, 1, 2, 0, 0, None);
    p := Rsp(TunnelOf(m, t).teiRepl, map[Ctrl := 11, User := 5], Host(3));
    BaseInv(m, pp);
    assert {} + {t} == {t};
    FirstResponseGoes(m, t, p);
    RspStep(m, pp, t, p, 1, 2, 0, 0, None, 3);
    LeadsNext(h, [Packets(Req(1, 2))], m, p);
    g := HandleBuf(m, p, PLAIN).0;
    AmongBeside(m, g, t, {t});
    assert {t} + {t} == {t};
    assert [Packets(Req(1, 2))] + [Packets(p)] == [Packets(Req(1, 2)), Packets(p)];
  }

  lemma BaseInv(h: Hub, pp: nat)
    requires Base(h, pp)
    ensures Inv(h) && h.queues.clock == 0
  {
    hide Inv;
  }

  lemma EmptyList(h: Hub)
    requires h.lists.tunnels == []
    ensures AtMostOne(h) && Unused(h, 1, 2) && Among(h, {})
  {
  }

  /** The second exchange, up to its first response. */
  lemma SecondExchange(h: Hub, pp: nat, a: nat) returns (p: Packet, m: Hub, g: Hub, t: nat)
    requires Base(h, pp) && Among(h, {a}) && Known(h, a, 1, 2, 11, 5, Some(Host(3)))
    ensures Inv(h) && h.queues.clock == 0 && m == HandleBuf(h, Req(3, 4), PLAIN).0
    ensures Inv(m) && m.queues.clock == 0 && p.now == 0 == p.later && g == HandleBuf(m, p, PLAIN).0
    ensures p.kind == CreateRsp && p.teis == map[Ctrl := 12, User := 5] && t != a && Base(g, pp) && Among(g, {a, t})
    ensures Known(g, a, 1, 2, 11, 5, Some(Host(3))) && Known(g, t, 3, 4, 12, 5, Some(Host(4)))
  {
    hide Inv, Base, TunIds, Known, Beside, HandleBuf, BothGo, Host;
    BaseInv(h, pp);
    OneOnly(h, a);
    FirstUnused(h, a, Some(Host(3)));
    KnownChecked(h, a, 1, 2, 11, 5, Some(Host(3)));
    t := ReqStep(h, pp, 3, 4);
    m := HandleBuf(h, Req(3, 4), PLAIN).0;
    BaseInv(m, pp);
    AmongBeside(h, m, t, {a});
    assert {a} + {t} == {a, t};
    KnownStays(h, m, t, a, 1, 2, 11, 5, Some(Host(3)));
    KnownChecked(m, t, 3, 4, 0, 0, None);
    p := Rsp(TunnelOf(m, t).teiRepl, map[Ctrl := 12, User := 5], Host(4));
    SecondResponseGoes(m, a, t, p);
    RspStep(m, pp, t, p, 3, 4, 0, 0, None, 4);
    g := HandleBuf(m, p, PLAIN).0;
    BaseInv(g, pp);
    AmongBeside(m, g, t, {a, t});
    assert {a, t} + {t} == {a, t};
    KnownStays(m, g, t, a, 1, 2, 11, 5, Some(Host(3)));
  }

  /** The response without TEIs. */
  lemma Displaced(h: Hub, pp: nat, a: nat, t: nat) returns (p: Packet)
    requires Base(h, pp) && a != t && Known(h, a, 1, 2, 11, 5, Some(Host(3))) && Known(h, t, 3, 4, 12, 5, Some(Host(4)))
    ensures Inv(h) && h.queues.clock == 0 && p.now == 0 == p.later && p.kind == CreateRsp && p.teis == map[]
    ensures !EndpointsDistinct(HandleBuf(h, p, PLAIN).0)
  {
    hide Inv, Base, TunIds, Known, Beside, HandleBuf, BothGo, Host, EndpointsDistinct;
    BaseInv(h, pp);
    KnownChecked(h, t, 3, 4, 12, 5, Some(Host(4)));
    p := Rsp(TunnelOf(h, t).teiRepl, map[], Host(3));
    BareResponseGoes(h, t, p, 3, 4, 12, 5, Some(Host(4)));
    RspStep(h, pp, t, p, 3, 4, 12, 5, Some(Host(4)), 3);
    var g := HandleBuf(h, p, PLAIN).0;
    BaseInv(g, pp);
    KnownStays(h, g, t, a, 1, 2, 11, 5, Some(Host(3)));
    PairShares(g, a, t);
  }

  /** From a hub with a proxy for its GGSNs: two requests and the responses to them, each with its TEIs, leave all endpoints
      distinct. One more response without TEIs, as a GGSN may repeat it with another address for user packets, and two
      checked tunnels have the same address and TEI there. */
  lemma MoveBreaks() returns (es: seq<Event>)
    ensures |es| == 5 && Timed(es, Started(0, [PROXY]).queues.clock) && Timed(es[..4], Started(0, [PROXY]).queues.clock)
    ensures (forall e <- es :: e.Packets?) && es[0].p.kind == CreateReq == es[2].p.kind
    ensures es[1].p.kind == CreateRsp == es[3].p.kind && es[4].p.kind == CreateRsp && es[4].p.teis == map[]
    ensures EndpointsDistinct(Run(Started(0, [PROXY]), es[..4], PLAIN))
    ensures !EndpointsDistinct(Run(Started(0, [PROXY]), es, PLAIN))
  {
    hide Inv, Base, Known, Started, Among, EndpointsDistinct, HandleBuf, Run, Host, Timed;
    var pp := StartedBase();
    var h := Started(0, [PROXY]);
    var p1, h2, a := FirstExchange(h, pp);
    var p2, h3, h4, t := SecondExchange(h2, pp, a);
    var p3 := Displaced(h4, pp, a, t);
    BaseInv(h4, pp);
    PairDistinct(h4, a, t);
    var two := [Packets(Req(1, 2)), Packets(p1)];
    LeadsNext(h, two, h2, Req(3, 4));
    LeadsNext(h, two + [Packets(Req(3, 4))], h3, p2);
    var four := two + [Packets(Req(3, 4))] + [Packets(p2)];
    LeadsNext(h, four, h4, p3);
    es := four + [Packets(p3)];
    assert es[..4] == four;
    assert forall e <- es :: e.Packets?;
  }
}
