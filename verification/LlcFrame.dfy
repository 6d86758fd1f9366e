/** UI frames of the logical link control layer: building (gprs_llc_tx_ui), header parsing
    (gprs_llc_hdr_parse), and the sequence and overflow counters at both ends
    (src/sgsn/gprs_llc.c, src/gprs/gprs_llc_parse.c, section 6 of 3GPP TS 44.064). */
module LlcFrame {
  import opened Crc24

  // ---- Frame layout ----

  const CRC24_LENGTH := 3
  const UI_HDR_LEN := 3
  const N202 := 4

  function FcsOctets(fcs: bv32): Octets {
    [(fcs & 0xff) as bv8, ((fcs >> 8) & 0xff) as bv8, ((fcs >> 16) & 0xff) as bv8]
  }

  function FcsOf(a: bv8, b: bv8, c: bv8): bv32 {
    (a as bv32) | ((b as bv32) << 8) | ((c as bv32) << 16)
  }

  function AddressField(sapi: bv8, command: bool): bv8 {
    (sapi & 0xf) | (if command then 0x40 else 0)
  }

  function ControlHigh(nu: bv16): bv8 { 0xc0 | (((nu >> 6) & 0xff) as bv8) }

  /** The low six bits of N(U), encryption off, protected mode on. */
  function ControlLow(nu: bv16): bv8 { (((nu << 2) & 0xfc) as bv8) | 0x01 }

  /** The octets covered by the frame check sequence. */
  function UiBody(sapi: bv8, command: bool, nu: bv16, msg: Octets): Octets {
    [AddressField(sapi, command), ControlHigh(nu), ControlLow(nu)] + msg
  }

  function UiFrame(sapi: bv8, command: bool, nu: bv16, msg: Octets): Octets {
    var body := UiBody(sapi, command, nu, msg);
    body + FcsOctets(Fcs(body))
  }

  // ---- gprs_llc_hdr_parse ----

  datatype Cmd = RR | ACK | RNR | SACK | DM | DISC | UA | SABM | FRMR | XID | UI | NULL

  /** The parsed header; a field the format does not carry is zero, `dataOff` is then None. */
  datatype Header = Header(cmd: Cmd, sapi: bv8, isCmd: bool, ackReq: bool, isEncrypted: bool,
                           seqTx: bv16, seqRx: bv16, dataOff: DataOff, dataLen: nat,
                           crcLength: nat, fcs: bv32)
  datatype DataOff = NoData | At(off: nat)
  datatype Parsed = Parsed(h: Header) | Eio | Einval

  predicate ReservedSapi(sapi: bv8) {
    sapi == 0 || sapi == 4 || sapi == 6 || sapi == 0xa || sapi == 0xc || sapi == 0xd || sapi == 0xf
  }

  /** data_len is an unsigned 16-bit field. */
  function DataLen(len: nat, off: nat): nat { (len - CRC24_LENGTH - off) % 0x10000 }

  function Supervisory(bits: bv8): Cmd {
    if bits & 3 == 0 then RR else if bits & 3 == 1 then ACK else if bits & 3 == 2 then RNR else SACK
  }

  /** The commands of the unnumbered format; the code knows no others. */
  function Unnumbered(m: bv8): seq<Cmd> {
    if m == 0x0 then [NULL] else if m == 0x1 then [DM] else if m == 0x4 then [DISC] else if m == 0x6 then [UA]
    else if m == 0x7 then [SABM] else if m == 0x8 then [FRMR] else if m == 0xb then [XID] else []
  }

  function SeqHigh3(a: bv8, b: bv8): bv16 { (((a & 0x7) as bv16) << 6) | ((b >> 2) as bv16) }

  function HdrParse(h: Octets): Parsed {
    if |h| <= CRC24_LENGTH then Eio else
    var n := |h|;
    var fcs := FcsOf(h[n - 3], h[n - 2], h[n - 1]);
    var sapi := h[0] & 0xf;
    var blank := Header(NULL, sapi, h[0] & 0x40 == 0, false, false, 0, 0, NoData, 0, n - CRC24_LENGTH, fcs);
    var c0, c1, c2 := h[1], h[2], h[3];
    if h[0] & 0x80 != 0 then Eio
    else if ReservedSapi(sapi) then Einval
    else if c0 & 0x80 == 0 then // I format
      if Supervisory(c2) == SACK then Eio else
      Parsed(blank.(cmd := Supervisory(c2), ackReq := c0 & 0x40 != 0,
                    seqTx := (((c0 & 0x1f) as bv16) << 4) | ((c1 >> 4) as bv16), seqRx := SeqHigh3(c1, c2),
                    dataOff := At(4), dataLen := DataLen(n, 4)))
    else if c0 & 0xc0 == 0x80 then // S format
      if Supervisory(c1) == SACK then Eio else
      Parsed(blank.(cmd := Supervisory(c1), ackReq := c0 & 0x20 != 0, seqRx := SeqHigh3(c0, c1)))
    else if c0 & 0xe0 == 0xc0 then // UI format
      Parsed(blank.(cmd := UI, seqTx := SeqHigh3(c0, c1), isEncrypted := c1 & 0x02 != 0,
                    dataOff := At(3), dataLen := DataLen(n, 3),
                    crcLength := if c1 & 0x01 == 0 && n - CRC24_LENGTH > UI_HDR_LEN + N202
                                 then UI_HDR_LEN + N202 else n - CRC24_LENGTH))
    else // U format
      var cmd := Unnumbered(c0 & 0xf);
      if cmd == [] then Eio
      else if cmd == [XID] then Parsed(blank.(cmd := XID, dataOff := At(2), dataLen := DataLen(n, 2)))
      else Parsed(blank.(cmd := cmd[0]))
  }

  // ---- Parsing what was built ----

  lemma FcsRoundTrip(f: bv32)
    requires f < 0x1000000
    ensures var o := FcsOctets(f); |o| == 3 && FcsOf(o[0], o[1], o[2]) == f
  {
  }

  lemma FcsBound(s: Octets)
    ensures Fcs(s) < 0x1000000
  {
    hide BitwiseCrc;
  }

  lemma AddressRoundTrip(sapi: bv8, command: bool)
    requires sapi < 16
    ensures var a := AddressField(sapi, command);
      a & 0x80 == 0 && a & 0xf == sapi && (a & 0x40 == 0 <==> !command)
  {
  }

  lemma ControlRoundTrip(nu: bv16)
    requires nu < 512
    ensures var c0, c1 := ControlHigh(nu), ControlLow(nu);
      && c0 & 0x80 != 0 && c0 & 0xc0 != 0x80 && c0 & 0xe0 == 0xc0
      && c1 & 0x02 == 0 && c1 & 0x01 != 0 && SeqHigh3(c0, c1) == nu
  {
  }

  /** A frame the transmitter builds parses, unless its SAPI is reserved, to exactly what went in,
      and its frame check sequence matches. The command bit comes back inverted: the parser
      reads it in the MS to SGSN sense. */
  lemma UiFrameParses(sapi: bv8, command: bool, nu: bv16, msg: Octets)
    requires sapi < 16 && nu < 512 && |msg| < 0x10000
    ensures var f := UiFrame(sapi, command, nu, msg);
      if ReservedSapi(sapi) then HdrParse(f) == Einval
      else
        && HdrParse(f).Parsed?
        && var h := HdrParse(f).h;
        && h.cmd == UI && h.sapi == sapi && h.isCmd == !command && !h.isEncrypted && h.seqTx == nu
        && h.dataOff == At(3) && f[3..3 + h.dataLen] == msg
        && h.crcLength <= |f| && h.fcs == Fcs(f[..h.crcLength])
  {
    hide Fcs;
    hide AddressField, ControlHigh, ControlLow, SeqHigh3, FcsOctets, FcsOf;
    AddressRoundTrip(sapi, command);
    ControlRoundTrip(nu);
    var body := UiBody(sapi, command, nu, msg);
    var f := UiFrame(sapi, command, nu, msg);
    FcsBound(body);
    FcsRoundTrip(Fcs(body));
    assert f[..|f| - 3] == body && f[3..3 + |msg|] == msg;
  }

  // ---- Ciphering: the key stream gamma is left uninterpreted ----

  function XorWith(data: Octets, gamma: Octets): (r: Octets)
    requires |data| == |gamma|
    ensures |r| == |data|
  {
    seq(|data|, i requires 0 <= i < |data| => data[i] ^ gamma[i])
  }

  /** The loop of apply_gea, in place from `off` on. */
  method XorInPlace(data: array<bv8>, off: nat, gamma: Octets)
    requires off + |gamma| <= data.Length
    modifies data
    ensures data[..] == old(data[..off] + XorWith(data[off..off + |gamma|], gamma) + data[off + |gamma|..])
  {
    for r := 0 to |gamma|
      invariant forall i | 0 <= i < data.Length ::
        data[i] == if off <= i < off + r then old(data[i]) ^ gamma[i - off] else old(data[i])
    {
      data[off + r] := data[off + r] ^ gamma[r];
    }
  }

  function CipheredBody(sapi: bv8, command: bool, nu: bv16, msg: Octets): Octets {
    [AddressField(sapi, command), ControlHigh(nu), ControlLow(nu) | 0x02] + msg
  }

  /** apply_gea on transmission: mark the frame, check it again, cipher information field and FCS. */
  function CipheredFrame(sapi: bv8, command: bool, nu: bv16, msg: Octets, gamma: Octets): Octets
    requires |gamma| == |msg| + CRC24_LENGTH
  {
    var body := CipheredBody(sapi, command, nu, msg);
    body[..3] + XorWith(msg + FcsOctets(Fcs(body)), gamma)
  }

  lemma CipheredControl(nu: bv16)
    requires nu < 512
    ensures var c0, c1 := ControlHigh(nu), ControlLow(nu) | 0x02;
      && c0 & 0x80 != 0 && c0 & 0xc0 != 0x80 && c0 & 0xe0 == 0xc0
      && c1 & 0x02 != 0 && c1 & 0x01 != 0 && SeqHigh3(c0, c1) == nu
  {
  }

  lemma XorTwice(a: bv8, g: bv8)
    ensures (a ^ g) ^ g == a
  {
  }

  lemma DecipherUndoes(data: Octets, gamma: Octets)
    requires |data| == |gamma|
    ensures XorWith(XorWith(data, gamma), gamma) == data
  {
    forall i | 0 <= i < |data| ensures XorWith(XorWith(data, gamma), gamma)[i] == data[i] {
      XorTwice(data[i], gamma[i]);
    }
  }

  /** With the same key stream the receiver recovers N(U), the payload and a matching FCS. */
  lemma CipheredFrameParses(sapi: bv8, command: bool, nu: bv16, msg: Octets, gamma: Octets)
    requires sapi < 16 && !ReservedSapi(sapi) && nu < 512 && |msg| < 0x10000
    requires |gamma| == |msg| + CRC24_LENGTH
    ensures var f := CipheredFrame(sapi, command, nu, msg, gamma);
      && HdrParse(f).Parsed?
      && var h := HdrParse(f).h;
      && h.cmd == UI && h.sapi == sapi && h.isEncrypted && h.seqTx == nu
      && h.dataOff == At(3) && h.dataLen == |msg| && h.crcLength == 3 + |msg|
      && var d := XorWith(f[3..], gamma);
      && d[..h.dataLen] == msg
      && FcsOf(d[h.dataLen], d[h.dataLen + 1], d[h.dataLen + 2]) == Fcs((f[..3] + d)[..h.crcLength])
  {
    hide Fcs, XorWith;
    hide AddressField, ControlHigh, ControlLow, SeqHigh3, FcsOctets, FcsOf;
    AddressRoundTrip(sapi, command);
    CipheredControl(nu);
    var body := CipheredBody(sapi, command, nu, msg);
    FcsBound(body);
    FcsRoundTrip(Fcs(body));
    var plain := msg + FcsOctets(Fcs(body));
    DecipherUndoes(plain, gamma);
    var f := CipheredFrame(sapi, command, nu, msg, gamma);
    assert f[3..] == XorWith(plain, gamma) && f[..3] == body[..3];
    assert plain[..|msg|] == msg && (f[..3] + plain)[..3 + |msg|] == body;
  }

  // ---- The sending side: N(U) and the overflow counter ----

  const WRAP32 := 0x1_0000_0000

  /** N(U) and OC of the k-th frame (from 0) sent after a reset. */
  function NuAt(k: nat): nat { k % 512 }

  function SendOcAt(k: nat): nat { 512 * ((k + 1) / 512) % WRAP32 }

  /** The receiver's OC when the k-th frame of an undisturbed sequence arrives. */
  function RecvOcAt(k: nat): nat { 512 * (k / 512) % WRAP32 }

  /** A sequence number as the header carries it. */
  function NuBits(n: nat): (nu: bv16)
    requires n < 512
    ensures nu < 512
  {
    n as bv16
  }

  /** OC stays a multiple of 512 below 2^32, so it is the number of wraps modulo 2^23. */
  lemma OcOfWraps(w: nat)
    ensures 512 * w % WRAP32 == 512 * (w % 0x80_0000)
  {
    var q, r := w / 0x80_0000, w % 0x80_0000;
    assert 512 * w == WRAP32 * q + 512 * r;
  }

  lemma CountInWraps(k: nat)
    ensures k % WRAP32 == 512 * (k / 512 % 0x80_0000) + k % 512
    ensures (k + 1) / 512 == if k % 512 == 511 then k / 512 + 1 else k / 512
  {
    var w, r := k / 512, k % 512;
    assert k == 512 * w + r;
    assert w == 0x80_0000 * (w / 0x80_0000) + w % 0x80_0000;
    assert k == WRAP32 * (w / 0x80_0000) + (512 * (w % 0x80_0000) + r);
  }

  lemma SuccessorsModulo(a: nat, b: nat)
    ensures (a + 1) % 0x80_0000 == (b + 1) % 0x80_0000 <==> a % 0x80_0000 == b % 0x80_0000
  {
    assert a + 1 == 0x80_0000 * (a / 0x80_0000) + (a % 0x80_0000 + 1);
    assert b + 1 == 0x80_0000 * (b / 0x80_0000) + (b % 0x80_0000 + 1);
  }

  /** No pair (N(U), OC), hence no cipher input, is used twice until OC itself overflows:
      two frames share it exactly when their numbers agree modulo 2^32. */
  lemma PairRepeats(j: nat, k: nat)
    ensures NuAt(j) == NuAt(k) && SendOcAt(j) == SendOcAt(k) <==> j % WRAP32 == k % WRAP32
  {
    OcOfWraps((j + 1) / 512);
    OcOfWraps((k + 1) / 512);
    CountInWraps(j);
    CountInWraps(k);
    SuccessorsModulo(j / 512, k / 512);
  }

  /** Sender and receiver take the overflow counter one frame apart: they agree on frame k
      of an undisturbed sequence exactly when N(U) is not 511. */
  lemma OcAgreement(k: nat)
    ensures SendOcAt(k) == RecvOcAt(k) <==> NuAt(k) != 511
  {
    OcOfWraps((k + 1) / 512);
    OcOfWraps(k / 512);
  }

  /** One frame moves the counters as the code moves them. */
  lemma NextSend(k: nat)
    ensures NuAt(k + 1) == (NuAt(k) + 1) % 512
    ensures SendOcAt(k + 1) == if (NuAt(k + 1) + 1) / 512 != 0 then (SendOcAt(k) + 512) % WRAP32 else SendOcAt(k)
  {
    var w, r := k / 512, k % 512;
    assert k == 512 * w + r;
    if r == 510 {
      assert NuAt(k + 1) == 511 && (k + 1) / 512 == w && (k + 2) / 512 == w + 1;
      AddWrap(512 * w);
    } else {
      assert (NuAt(k + 1) + 1) / 512 == 0 && (k + 2) / 512 == (k + 1) / 512;
    }
  }

  lemma AddWrap(x: nat)
    ensures (x + 512) % WRAP32 == (x % WRAP32 + 512) % WRAP32
  {
  }

  /** Prepend the header, append the frame check sequence. */
  method BuildUi(sapi: bv8, command: bool, nu: bv16, msg: Octets) returns (frame: Octets)
    requires sapi < 16
    ensures frame == UiFrame(sapi, command, nu, msg)
  {
    hide Fcs, AddressField, ControlHigh, ControlLow, FcsOctets;
    var addr := AddressField(sapi, command);
    var llch := [addr, ControlHigh(nu), ControlLow(nu)] + msg;
    var fcs := LlcFcs(llch);
    frame := llch + FcsOctets(fcs);
  }

  // ---- The entity's counters as the code keeps them ----

  /** gprs_llc_is_retransmit: behind V(UR) by 1 to 31. */
  predicate IsRetransmit(nu: nat, vur: nat) { 0 < (vur - nu) % 512 < 32 }

  datatype Receiver = Receiver(vuRecv: nat, ocUiRecv: nat, last: nat, duplicates: nat)

  /** The UI case of gprs_llc_hdr_rx: the next state, and whether the frame is passed up. */
  function RxUi(r: Receiver, nu: nat): (Receiver, bool) {
    var wrap := if (nu + 1) / 512 != 0 then 512 else 0;
    var taken := r.(vuRecv := (nu + 1) % 512, ocUiRecv := (r.ocUiRecv + wrap) % WRAP32);
    if !IsRetransmit(nu, r.vuRecv) then (taken, true)
    else if nu != r.last then (taken.(last := nu, duplicates := 0), true)
    else
      var d := (r.duplicates + 1) % 0x10000;
      if d < 3 then (r.(duplicates := d), false) else (taken.(duplicates := d), true)
  }

  /** The receiver after frames 0 .. k-1 of an undisturbed sequence. */
  function InOrder(r: Receiver, k: nat): Receiver
    decreases k
  {
    if k == 0 then r else RxUi(InOrder(r, k - 1), NuAt(k - 1)).0
  }

  /** An undisturbed sequence after a reset is passed up completely, whatever was received before. */
  lemma {:induction false} InOrderPasses(r: Receiver, k: nat)
    requires r.vuRecv == 0 && r.ocUiRecv == 0
    ensures var s := InOrder(r, k);
      && s.vuRecv == NuAt(k) && s.ocUiRecv == RecvOcAt(k) && RxUi(s, NuAt(k)).1
      && s.last == r.last && s.duplicates == r.duplicates
    decreases k
  {
    if k > 0 {
      InOrderPasses(r, k - 1);
      NextRecv(k - 1);
    }
  }

  lemma NextRecv(k: nat)
    ensures NuAt(k + 1) == (NuAt(k) + 1) % 512
    ensures RecvOcAt(k + 1) == (RecvOcAt(k) + (if (NuAt(k) + 1) / 512 != 0 then 512 else 0)) % WRAP32
  {
    var w, r := k / 512, k % 512;
    assert k == 512 * w + r;
    if r == 511 {
      assert (k + 1) / 512 == w + 1;
      AddWrap(512 * w);
    } else {
      assert (k + 1) / 512 == w;
    }
  }

  /** The receiver after `i` repetitions of one frame. */
  function Repeated(r: Receiver, nu: nat, i: nat): Receiver {
    if i == 0 then r else RxUi(Repeated(r, nu, i - 1), nu).0
  }

  lemma ModNext(a: nat)
    ensures (a % 0x10000 + 1) % 0x10000 == (a + 1) % 0x10000
  {
  }

  /** The counters of duplicates after `i` repetitions of a frame that was just taken. */
  lemma {:induction false} RepeatedState(s: Receiver, nu: nat, i: nat)
    requires nu < 512 && s.vuRecv == (nu + 1) % 512
    ensures var t := Repeated(s, nu, i);
      && t.vuRecv == s.vuRecv
      && (i > 0 ==> t.last == nu && t.duplicates == (if s.last != nu then i - 1 else s.duplicates + i) % 0x10000)
      && (i == 0 ==> t == s)
  {
    if i > 0 {
      RepeatedState(s, nu, i - 1);
      assert IsRetransmit(nu, s.vuRecv);
      if i > 1 { ModNext(if s.last != nu then i - 2 else s.duplicates + i - 1); }
    }
  }

  /** Which repetitions of a frame just taken are passed up again. A number not seen behind the window before passes the
      first time, although the log message announces a drop; from then on, and for a number seen there last, two
      repetitions are dropped and all others passed until the sixteen-bit count of duplicates wraps, when three more are
      dropped. */
  lemma RepeatedFrame(r: Receiver, nu: nat, i: nat)
    requires nu < 512 && RxUi(r, nu).1 && i >= 1
    ensures var s := RxUi(r, nu).0;
      RxUi(Repeated(s, nu, i - 1), nu).1 <==>
        if s.last != nu then i == 1 || (i - 1) % 0x10000 >= 3 else (s.duplicates + i) % 0x10000 >= 3
  {
    var s := RxUi(r, nu).0;
    RepeatedState(s, nu, i - 1);
    assert IsRetransmit(nu, s.vuRecv);
    if i > 1 { ModNext(if s.last != nu then i - 2 else s.duplicates + i - 1); }
  }

  /** A repetition of the last frame of an undisturbed sequence leaves the counters in step exactly if it is dropped or
      its N(U) is not 511; otherwise the overflow counter runs ahead of the sender's by one round. */
  lemma RepetitionInStep(r: Receiver, k: nat)
    requires r.vuRecv == 0 && r.ocUiRecv == 0 && k > 0
    ensures var (t, pass) := RxUi(InOrder(r, k), NuAt(k - 1));
      && t.vuRecv == NuAt(k) && (t.ocUiRecv == RecvOcAt(k) <==> !pass || NuAt(k - 1) != 511)
      && (pass && NuAt(k - 1) == 511 ==> t.ocUiRecv == RecvOcAt(k + 512))
  {
    InOrderPasses(r, k);
    NextRecv(k - 1);
    assert (k + 512) / 512 == k / 512 + 1;
    AddWrap(512 * (k / 512));
    OcOfWraps(k / 512);
  }

  /** The receiver is where an undisturbed sequence of `k` frames after a reset leaves it. */
  predicate InStep(r: Receiver, k: nat) { r.vuRecv == NuAt(k) && r.ocUiRecv == RecvOcAt(k) }

  lemma NextInStep(r: Receiver, k: nat)
    requires InStep(r, k)
    ensures RxUi(r, NuAt(k)).1 && InStep(RxUi(r, NuAt(k)).0, k + 1)
  {
    hide RecvOcAt;
    NextRecv(k);
  }

  /** A link layer entity: V(U), V(UR) and the overflow counters, advanced frame by frame. */
  class Lle {
    var vuSend: nat
    var ocUiSend: nat
    var vuRecv: nat
    var ocUiRecv: nat
    var vuRecvLast: nat
    var vuRecvDuplicates: nat
    var n201U: nat
    ghost var sent: nat // UI frames sent since the last reset

    ghost predicate Valid()
      reads this
    {
      && vuSend == NuAt(sent) && ocUiSend == SendOcAt(sent)
      && vuRecv < 512 && ocUiRecv < WRAP32 && n201U < 0x10000
    }

    function Rx(): Receiver
      reads this
    {
      Receiver(vuRecv, ocUiRecv, vuRecvLast, vuRecvDuplicates)
    }

    constructor (n201U: nat)
      requires n201U < 0x10000
      ensures Valid() && sent == 0 && this.n201U == n201U
    {
      vuSend, ocUiSend, vuRecv, ocUiRecv, vuRecvLast, vuRecvDuplicates := 0, 0, 0, 0, 0, 0;
      this.n201U := n201U;
      sent := 0;
    }

    /** The counters part of gprs_llgmm_reset; the duplicate tracking is left alone. */
    method Reset()
      requires Valid()
      modifies this
      ensures Valid() && sent == 0 && n201U == old(n201U)
      ensures Rx() == old(Rx()).(vuRecv := 0, ocUiRecv := 0)
    {
      vuRecv, vuSend, ocUiSend, ocUiRecv := 0, 0, 0, 0;
      sent := 0;
    }

    /** gprs_llc_tx_ui without ciphering: the k-th frame since the reset carries N(U) and is to be
        ciphered with OC as NuAt and SendOcAt say; an oversized message changes nothing. */
    method TxUi(msg: Octets, sapi: bv8, command: bool) returns (frame: Octets, oc: nat)
      requires Valid() && sapi < 16
      modifies this
      ensures Valid() && n201U == old(n201U) && Rx() == old(Rx())
      ensures |msg| > n201U ==> frame == [] && sent == old(sent)
      ensures |msg| <= n201U ==>
        && sent == old(sent) + 1 && oc == SendOcAt(old(sent))
        && frame == UiFrame(sapi, command, NuBits(NuAt(old(sent))), msg)
    {
      frame, oc := [], 0;
      if |msg| > n201U {
        return;
      }
      NextSend(sent);
      hide SendOcAt, UiFrame, NuBits;
      var nu := vuSend;
      oc := ocUiSend;
      vuSend := (vuSend + 1) % 512;
      if (vuSend + 1) / 512 != 0 {
        ocUiSend := (ocUiSend + 512) % WRAP32;
      }
      frame := BuildUi(sapi, command, NuBits(nu), msg);
      sent := sent + 1;
    }

    /** The UI case of gprs_llc_hdr_rx. */
    method RxUiFrame(nu: nat) returns (pass: bool)
      requires Valid() && nu < 512
      modifies this
      ensures Valid() && sent == old(sent) && n201U == old(n201U)
      ensures (Rx(), pass) == RxUi(old(Rx()), nu)
      ensures forall k: nat :: InStep(old(Rx()), k) && nu == NuAt(k) ==> pass && InStep(Rx(), k + 1)
      ensures if pass then vuRecv == (nu + 1) % 512
              else vuRecv == old(vuRecv) && ocUiRecv == old(ocUiRecv) && vuRecvLast == old(vuRecvLast)
    {
      forall k: nat | InStep(Rx(), k) && nu == NuAt(k) ensures RxUi(Rx(), nu).1 && InStep(RxUi(Rx(), nu).0, k + 1) {
        NextInStep(Rx(), k);
      }
      hide InStep, NuAt;
      if 0 < (vuRecv - nu) % 512 < 32 {
        if nu != vuRecvLast {
          vuRecvLast := nu;
          vuRecvDuplicates := 0;
        } else {
          vuRecvDuplicates := (vuRecvDuplicates + 1) % 0x10000;
          if vuRecvDuplicates < 3 {
            return false;
          }
        }
      }
      vuRecv := (nu + 1) % 512;
      if (nu + 1) / 512 != 0 {
        ocUiRecv := (ocUiRecv + 512) % WRAP32;
      }
      return true;
    }
  }
}
