/** SNDCP unacknowledged transfer: the fragmenter that cuts an N-PDU into SN-UNITDATA PDUs of at most
    N201-U octets, and the reassembler that collects them in any order
    (src/sgsn/gprs_sndcp.c, section 6.7 of 3GPP TS 44.065). */
module SndcpFrag {
  import opened Octet

  // ---- SN-UNITDATA PDU format ----

  type NpduNumber = x: int | 0 <= x < 0x1000

  /** The compression identifiers travel in first segments only, and are zero in the others. */
  datatype SnPdu = SnPdu(first: bool, more: bool, nsapi: Nibble, pcomp: Nibble, dcomp: Nibble,
                         npdu: NpduNumber, seg: Nibble, data: Octets)

  predicate WellFormed(p: SnPdu) { !p.first ==> p.pcomp == 0 && p.dcomp == 0 }

  function CommonHeader(nsapi: Nibble, more: bool, first: bool): (o: Octet)
    ensures SetBit(o, 16) == more && SetBit(o, 32) && SetBit(o, 64) == first && o % 16 == nsapi
  {
    nsapi + Flag(more, 16) + 32 + Flag(first, 64)
  }

  function NibblesOf(low: Nibble, high: Nibble): (o: Octet)
    ensures o % 16 == low && o / 16 == high
  {
    low + 16 * high
  }

  /** The common header (NSAPI, M, T, F), for a first segment the compression header, and the
      N-PDU and segment numbers. */
  function Wire(p: SnPdu): Octets
    requires WellFormed(p)
  {
    [CommonHeader(p.nsapi, p.more, p.first)]
    + (if p.first then [NibblesOf(p.pcomp, p.dcomp)] else [])
    + [NibblesOf(p.npdu / 256, p.seg), p.npdu % 256] + p.data
  }

  /** The receiver reads a first segment's four header octets after checking for three only. */
  predicate Readable(h: Octets) { |h| >= 1 && (SetBit(h[0], 64) ==> |h| != 3) }

  datatype Parsed = Pdu(p: SnPdu) | NotUnitdata | TooShort

  function ParsePdu(h: Octets): Parsed
    requires Readable(h)
  {
    if !SetBit(h[0], 32) then NotUnitdata
    else if |h| < 3 then TooShort
    else
      var first := SetBit(h[0], 64);
      var at := if first then 2 else 1;
      Pdu(SnPdu(first, SetBit(h[0], 16), h[0] % 16, if first then h[1] % 16 else 0, if first then h[1] / 16 else 0,
                Word(h[at] % 16, h[at + 1]), h[at] / 16, h[at + 2..]))
  }

  lemma ParseWire(p: SnPdu)
    requires WellFormed(p)
    ensures Readable(Wire(p)) && ParsePdu(Wire(p)) == Pdu(p)
  {
    hide CommonHeader, NibblesOf, SetBit;
    var at := if p.first then 2 else 1;
    assert Wire(p)[at + 2..] == p.data;
  }

  // ---- Reassembly (specification) ----

  datatype Frag = Frag(seg: Nibble, data: Octets)

  /** The newest fragment comes first, as the queue is filled at its head. The bit mask of the
      segments received is the set of its bit positions. */
  datatype Defrag = Defrag(npdu: NpduNumber, highest: Nibble, have: set<Nibble>, tot: nat, noMore: bool, frags: seq<Frag>)

  /** What one SN-PDU makes the receiver do. An N-PDU is handed up with the announced length `len`;
      `copied` are the octets written into its buffer. */
  datatype Out = Quiet | NPdu(copied: Octets, len: nat) | SegMissing | ShortNpdu | Refused

  /** The segments 0 up to and including `highest`. */
  function Needed(highest: Nibble): (r: set<Nibble>)
    ensures forall i: Nibble :: i in r <==> i <= highest
  {
    if highest == 0 then {0} else Needed(highest - 1) + {highest}
  }

  function Enqueue(d: Defrag, seg: Nibble, data: Octets): Defrag {
    d.(frags := [Frag(seg, data)] + d.frags,
       highest := if seg > d.highest then seg else d.highest,
       have := d.have + {seg},
       tot := (d.tot + |data|) % 0x1_0000_0000)
  }

  /** The index of the newest fragment with this segment number, or the length. */
  function Find(frags: seq<Frag>, seg: nat): (i: nat)
    ensures i <= |frags|
    ensures forall j :: 0 <= j < i ==> frags[j].seg != seg
    ensures i < |frags| ==> frags[i].seg == seg
  {
    if frags == [] || frags[0].seg == seg then 0 else 1 + Find(frags[1..], seg)
  }

  function Without<T>(s: seq<T>, i: nat): seq<T>
    requires i < |s|
  {
    s[..i] + s[i + 1..]
  }

  datatype Assembly = Assembly(rest: seq<Frag>, complete: bool, copied: Octets)

  /** Takes the segments `k` up to `highest` out of the queue, each time the newest of its number. */
  function Assemble(frags: seq<Frag>, k: nat, highest: nat): Assembly
    decreases highest + 1 - k
  {
    if k > highest then Assembly(frags, true, []) else
    var i := Find(frags, k);
    if i == |frags| then Assembly(frags, false, []) else
    var a := Assemble(Without(frags, i), k + 1, highest);
    Assembly(a.rest, a.complete, frags[i].data + a.copied)
  }

  lemma AssembleStep(frags: seq<Frag>, k: nat, highest: nat)
    ensures k > highest ==> Assemble(frags, k, highest) == Assembly(frags, true, [])
    ensures var i := Find(frags, k); k <= highest ==>
      Assemble(frags, k, highest) ==
        if i == |frags| then Assembly(frags, false, [])
        else var a := Assemble(Without(frags, i), k + 1, highest); Assembly(a.rest, a.complete, frags[i].data + a.copied)
  {
  }

  function DefragInput(d: Defrag, p: SnPdu): (Defrag, Out) {
    var d1 := if p.first then Defrag(p.npdu, 0, {}, 0, false, []) else d;
    var d2 := Enqueue(d1, p.seg, p.data);
    var d3 := if p.more then d2 else d2.(noMore := true);
    if !(d3.noMore && d3.have == Needed(d3.highest)) then (d3, Quiet) else
    var a := Assemble(d3.frags, 0, d3.highest);
    (d3.(frags := a.rest), if a.complete then NPdu(a.copied, d3.tot) else SegMissing)
  }

  /** One SN-PDU from LLC, decompression switched off. */
  function Receive(d: Defrag, h: Octets): (Defrag, Out)
    requires Readable(h)
  {
    match ParsePdu(h)
    case NotUnitdata => (d, Refused)
    case TooShort => (d, Refused)
    case Pdu(p) =>
      if !p.first || p.more then DefragInput(d, p)
      else if p.data == [] then (d, ShortNpdu)
      else (d, NPdu(p.data, |p.data|))
  }

  /** The final state and the outputs of a run of SN-PDUs, one each. */
  function Deliver(d: Defrag, pdus: seq<Octets>): (r: (Defrag, seq<Out>))
    requires forall h <- pdus :: Readable(h)
    ensures |r.1| == |pdus|
  {
    if pdus == [] then (d, []) else
    var last := |pdus| - 1;
    assert pdus[last] in pdus;
    var (d1, outs) := Deliver(d, pdus[..last]);
    var (d2, out) := Receive(d1, pdus[last]);
    (d2, outs + [out])
  }

  // ---- Fragmentation (specification) ----

  /** N201-U is only ever set from the defaults of the SAPIs, of which 270 is the least. */
  type N201U = x: int | 270 <= x < 0x10000 witness 270

  /** An N-PDU to be sent and what its headers carry. */
  datatype Job = Job(m: Octets, n201u: N201U, nsapi: Nibble, pcomp: Nibble, dcomp: Nibble, npdu: NpduNumber)

  /** How many octets the first `k` fragments can carry: four octets of header in the first, three
      in the others. */
  function Cap(n201u: N201U, k: nat): nat { if k == 0 then 0 else Times(k, n201u - 3) - 1 }

  function Times(a: nat, b: nat): (r: nat)
    ensures a > 0 ==> r >= b
  {
    a * b
  }

  /** `len` octets fill `n` fragments, the last of them not empty. */
  predicate FillsFragments(len: nat, n201u: N201U, n: nat) {
    n >= 1 && Cap(n201u, n - 1) < len <= Cap(n201u, n)
  }

  function Off(j: Job, k: nat): nat { Min(|j.m|, Cap(j.n201u, k)) }

  lemma CapStep(n201u: N201U, k: nat)
    ensures Cap(n201u, k + 1) == Cap(n201u, k) + n201u - (if k == 0 then 4 else 3)
  {
    assert (k + 1) * (n201u - 3) == k * (n201u - 3) + (n201u - 3);
  }

  lemma {:induction false} CapGrows(n201u: N201U, i: nat, k: nat)
    requires i <= k
    ensures Cap(n201u, i) + (k - i) <= Cap(n201u, k)
    decreases k - i
  {
    if i < k {
      CapStep(n201u, i);
      CapGrows(n201u, i + 1, k);
    }
  }

  /** The octets carried by the fragments `lo` up to `hi` - 1. */
  function Pieces(j: Job, lo: nat, hi: nat): Octets
    requires lo <= hi
  {
    CapGrows(j.n201u, lo, hi);
    j.m[Off(j, lo)..Off(j, hi)]
  }

  function Piece(j: Job, k: nat): Octets { Pieces(j, k, k + 1) }

  lemma PiecesSplit(j: Job, lo: nat, hi: nat)
    requires lo < hi
    ensures Pieces(j, lo, hi) == Piece(j, lo) + Pieces(j, lo + 1, hi)
  {
    CapGrows(j.n201u, lo, lo + 1);
    CapGrows(j.n201u, lo + 1, hi);
  }

  /** The fragment counter is eight bits wide; the segment number is the counter modulo 15. */
  function Fragment(j: Job, k: nat): SnPdu
    requires k < 256
  {
    SnPdu(k == 0, Cap(j.n201u, k + 1) < |j.m|, j.nsapi, if k == 0 then j.pcomp else 0, if k == 0 then j.dcomp else 0,
          j.npdu, k % 15, Piece(j, k))
  }

  lemma FragmentFits(j: Job, k: nat)
    requires k < 256
    ensures WellFormed(Fragment(j, k)) && |Wire(Fragment(j, k))| <= j.n201u
  {
    CapStep(j.n201u, k);
  }

  // ---- What assembling takes out of the queue ----

  function Total(frags: seq<Frag>): nat {
    if frags == [] then 0 else |frags[0].data| + Total(frags[1..])
  }

  predicate Has(frags: seq<Frag>, seg: int) { exists f <- frags :: f.seg == seg }

  lemma {:induction false} TotalWithout(frags: seq<Frag>, i: nat)
    requires i < |frags|
    ensures Total(frags) == |frags[i].data| + Total(Without(frags, i))
  {
    if i == 0 {
      assert Without(frags, 0) == frags[1..];
    } else {
      TotalWithout(frags[1..], i - 1);
      assert Without(frags, i) == [frags[0]] + Without(frags[1..], i - 1);
    }
  }

  lemma WithoutKeeps(frags: seq<Frag>, i: nat, seg: int)
    requires i < |frags| && frags[i].seg != seg && Has(frags, seg)
    ensures Has(Without(frags, i), seg)
  {
    var m :| 0 <= m < |frags| && frags[m].seg == seg;
    var rest := Without(frags, i);
    assert rest[if m < i then m else m - 1] == frags[m];
  }

  predicate Within(part: seq<Frag>, frags: seq<Frag>) { forall f <- part :: f in frags }

  lemma WithinWithout(part: seq<Frag>, frags: seq<Frag>, i: nat)
    requires i < |frags| && Within(part, Without(frags, i))
    ensures Within(part, frags) && |Without(frags, i)| == |frags| - 1
  {
  }

  lemma FindsIfThere(frags: seq<Frag>, seg: int)
    requires Has(frags, seg) && 0 <= seg
    ensures Find(frags, seg) < |frags|
  {
  }

  /** Nothing is lost or made up: if every segment is there, assembling copies one fragment of each
      number and leaves the others in the queue. */
  lemma {:induction false} AssembleAccounts(frags: seq<Frag>, k: nat, highest: nat)
    requires k <= highest + 1
    requires forall s :: k <= s <= highest ==> Has(frags, s)
    ensures var a := Assemble(frags, k, highest);
      && a.complete && |a.copied| + Total(a.rest) == Total(frags)
      && |a.rest| + (highest + 1 - k) == |frags| && Within(a.rest, frags)
    decreases highest + 1 - k
  {
    AssembleStep(frags, k, highest);
    if k <= highest {
      hide Assemble, Find, Total, Has, Within, Without;
      FindsIfThere(frags, k);
      var i := Find(frags, k);
      var rest := Without(frags, i);
      TotalWithout(frags, i);
      forall s | k + 1 <= s <= highest ensures Has(rest, s) {
        WithoutKeeps(frags, i, s);
      }
      AssembleAccounts(rest, k + 1, highest);
      WithinWithout(Assemble(rest, k + 1, highest).rest, frags, i);
    }
  }

  /** What the receiver knows of its queue: the length is that of all fragments together, the mask
      tells the segment numbers there are, and the highest is the greatest of them. */
  ghost predicate Accounted(d: Defrag) {
    && d.tot == Total(d.frags) % 0x1_0000_0000
    && (forall s: Nibble :: s in d.have <==> Has(d.frags, s))
    && (forall s <- d.have :: s <= d.highest) && (if d.frags == [] then d.highest == 0 else d.highest in d.have)
  }

  lemma EnqueueAccounted(d: Defrag, seg: Nibble, data: Octets)
    requires Accounted(d)
    ensures Accounted(Enqueue(d, seg, data))
  {
    hide Total, Has;
    var e := Enqueue(d, seg, data);
    UnfoldTotal(e.frags);
    assert e.frags[1..] == d.frags;
    forall s: Nibble ensures Has(e.frags, s) <==> s == seg || Has(d.frags, s) {
      HasAlso(d.frags, Frag(seg, data), s);
    }
  }

  lemma HasAlso(frags: seq<Frag>, f: Frag, s: int)
    ensures Has([f] + frags, s) <==> s == f.seg || Has(frags, s)
  {
    assert ([f] + frags)[0] == f;
    if Has(frags, s) {
      var i :| 0 <= i < |frags| && frags[i].seg == s;
      assert ([f] + frags)[i + 1] == frags[i];
    }
  }

  /** With such a queue, the mask complete up to the highest number means that no segment is found
      missing, and all octets are handed up exactly if no number came twice. */
  lemma AccountedComplete(d: Defrag)
    requires Accounted(d) && d.have == Needed(d.highest) && Total(d.frags) < 0x1_0000_0000
    requires forall f <- d.frags :: f.data != []
    ensures var a := Assemble(d.frags, 0, d.highest);
      a.complete && (|a.copied| == d.tot <==> |d.frags| == d.highest + 1)
  {
    hide Assemble, Total, Needed, Has;
    forall s | 0 <= s <= d.highest ensures Has(d.frags, s) {
      var n: Nibble := s;
      assert n in d.have;
    }
    AssembleAccounts(d.frags, 0, d.highest);
    var rest := Assemble(d.frags, 0, d.highest).rest;
    if rest == [] {
      NoTotal();
    } else {
      assert rest[0] in d.frags;
      SomeTotal(rest);
    }
  }

  // ---- The first fragment first, the others in any order ----

  function FragOf(j: Job, k: nat): Frag { Frag(k % 15, Piece(j, k)) }

  /** The fragments numbered `got`, the first of them number 0, have arrived; `n` make up the N-PDU. */
  ghost predicate Collected(d: Defrag, j: Job, n: nat, got: seq<nat>) {
    && got != [] && |d.frags| == |got|
    && (forall i :: 0 <= i < |got| ==> d.frags[i] == FragOf(j, got[|got| - 1 - i]))
    && (forall k: Nibble :: k in d.have <==> k as nat in got)
    && d.highest as nat in got && (forall k <- got :: k <= d.highest)
    && (d.noMore <==> n - 1 in got)
    && d.tot == Total(d.frags) % 0x1_0000_0000
  }

  ghost predicate Distinct<T(!new)>(s: seq<T>) { forall a, b :: 0 <= a < b < |s| ==> s[a] != s[b] }

  /** An order in which the fragments 1 up to n - 1 can arrive. */
  ghost predicate IsOrder(order: seq<nat>, n: nat) {
    |order| == n - 1 && Distinct(order) && forall k: nat :: k in order <==> 1 <= k < n
  }

  /** The queue holds the fragments `k` up to `n` - 1, each once. */
  ghost predicate Holds(frags: seq<Frag>, j: Job, k: nat, n: nat) {
    && |frags| == n - k && (forall s :: k <= s < n ==> Has(frags, s))
    && (forall a :: 0 <= a < |frags| ==> k <= frags[a].seg < n && frags[a].data == Piece(j, frags[a].seg))
    && (forall a, b :: 0 <= a < b < |frags| ==> frags[a].seg != frags[b].seg)
  }

  lemma HoldsWithout(frags: seq<Frag>, j: Job, k: nat, n: nat, i: nat)
    requires i < |frags| && Holds(frags, j, k, n) && frags[i].seg == k
    ensures Holds(Without(frags, i), j, k + 1, n)
  {
    hide Piece;
    var rest := Without(frags, i);
    forall s | k + 1 <= s < n ensures Has(rest, s) { WithoutKeeps(frags, i, s); }
    assert forall a :: 0 <= a < |rest| ==> rest[a] == frags[if a < i then a else a + 1];
  }

  lemma {:induction false} AssembleJoins(frags: seq<Frag>, j: Job, k: nat, n: nat)
    requires k <= n && n >= 1 && Holds(frags, j, k, n)
    ensures Assemble(frags, k, n - 1) == Assembly([], true, Pieces(j, k, n))
    decreases n - k
  {
    hide Pieces;
    if k == n {
      assert Pieces(j, n, n) == [] by { PiecesNone(j, n); }
    } else {
      FindsIfThere(frags, k);
      var i := Find(frags, k);
      HoldsWithout(frags, j, k, n, i);
      AssembleJoins(Without(frags, i), j, k + 1, n);
      PiecesSplit(j, k, n);
    }
  }

  lemma PiecesNone(j: Job, n: nat)
    ensures Pieces(j, n, n) == []
  {
  }

  lemma PiecesAll(j: Job, n: nat)
    requires FillsFragments(|j.m|, j.n201u, n)
    ensures Pieces(j, 0, n) == j.m
  {
  }

  lemma MoreMeans(j: Job, n: nat, k: nat)
    requires FillsFragments(|j.m|, j.n201u, n) && k < n && k < 256
    ensures Fragment(j, k).more <==> k < n - 1
  {
    CapGrows(j.n201u, k + 1, n);
    if k < n - 1 { CapGrows(j.n201u, k + 1, n - 1); }
  }

  lemma FirstArrives(d: Defrag, j: Job, n: nat)
    requires n >= 2 && FillsFragments(|j.m|, j.n201u, n)
    ensures var (e, out) := DefragInput(d, Fragment(j, 0)); out == Quiet && Collected(e, j, n, [0])
  {
    hide Piece, FillsFragments;
    MoreMeans(j, n, 0);
    var e := Enqueue(Defrag(j.npdu, 0, {}, 0, false, []), 0, Piece(j, 0));
    UnfoldTotal(e.frags);
    assert e.frags[1..] == [];
    NoTotal();
    assert Collected(e, j, n, [0]);
  }

  lemma EnqueueCollects(d: Defrag, j: Job, n: nat, got: seq<nat>, k: nat, e: Defrag)
    requires Collected(d, j, n, got) && k < n <= 15 && k !in got
    requires e == Enqueue(d, k, Piece(j, k)).(noMore := d.noMore || k == n - 1)
    ensures Collected(e, j, n, got + [k])
  {
    hide Piece, Total;
    assert Total(e.frags) == |Piece(j, k)| + Total(d.frags) by { UnfoldTotal(e.frags); }
    forall i | 0 <= i < |got| + 1 ensures e.frags[i] == FragOf(j, (got + [k])[|got| - i]) {
    }
    assert (got + [k])[|got|] == k;
    assert forall x :: x in got + [k] <==> x in got || x == k;
  }

  lemma UnfoldTotal(frags: seq<Frag>)
    requires frags != []
    ensures Total(frags) == |frags[0].data| + Total(frags[1..])
  {
  }

  /** When the last missing fragment has arrived the N-PDU is complete. */
  lemma CollectedAll(d: Defrag, j: Job, n: nat, got: seq<nat>)
    requires 1 <= n <= 15 && FillsFragments(|j.m|, j.n201u, n) && |j.m| < 0x1_0000_0000
    requires Collected(d, j, n, got) && |got| == n && Distinct(got) && forall k: nat :: k in got <==> k < n
    ensures d.noMore && d.have == Needed(d.highest) && d.tot == |j.m|
    ensures Assemble(d.frags, 0, d.highest) == Assembly([], true, j.m)
  {
    hide Piece, FillsFragments, Assemble, Total;
    assert n - 1 in got && d.highest as nat in got;
    assert d.highest == n - 1;
    forall s | 0 <= s < n ensures Has(d.frags, s) {
      assert s in got;
      var i :| 0 <= i < |got| && got[i] == s;
      assert d.frags[|got| - 1 - i].seg == s;
    }
    forall a | 0 <= a < |d.frags| ensures d.frags[a].seg == got[|got| - 1 - a] < n {
      assert got[|got| - 1 - a] in got;
    }
    assert Holds(d.frags, j, 0, n);
    AssembleJoins(d.frags, j, 0, n);
    AssembleAccounts(d.frags, 0, n - 1);
    assert Total([]) == 0 by { NoTotal(); }
    PiecesAll(j, n);
  }

  lemma NoTotal()
    ensures Total([]) == 0
  {
  }

  lemma LaterFragment(d: Defrag, j: Job, n: nat, k: nat, e: Defrag)
    requires 2 <= n <= 15 && FillsFragments(|j.m|, j.n201u, n) && 1 <= k < n
    requires e == Enqueue(d, k, Piece(j, k)).(noMore := d.noMore || k == n - 1)
    ensures DefragInput(d, Fragment(j, k)) ==
      if e.noMore && e.have == Needed(e.highest)
      then var a := Assemble(e.frags, 0, e.highest); (e.(frags := a.rest), if a.complete then NPdu(a.copied, e.tot) else SegMissing)
      else (e, Quiet)
  {
    hide Piece, FillsFragments, Assemble, Needed;
    MoreMeans(j, n, k);
  }

  lemma NextArrives(d: Defrag, j: Job, n: nat, got: seq<nat>, k: nat)
    requires 2 <= n <= 15 && FillsFragments(|j.m|, j.n201u, n) && |j.m| < 0x1_0000_0000
    requires Collected(d, j, n, got) && 1 <= k < n && Distinct(got + [k]) && forall x <- got :: x < n
    requires (|got| + 1 == n) == (forall x: nat :: x < n ==> x in got + [k])
    ensures var (e, out) := DefragInput(d, Fragment(j, k));
      if |got| + 1 == n then out == NPdu(j.m, |j.m|)
      else out == Quiet && Collected(e, j, n, got + [k])
  {
    hide Piece, FillsFragments, Assemble, Total, DefragInput, Enqueue, Fragment;
    var e := Enqueue(d, k, Piece(j, k)).(noMore := d.noMore || k == n - 1);
    var all := got + [k];
    assert k !in got by { assert all[|got|] == k; assert forall i :: 0 <= i < |got| ==> all[i] == got[i]; }
    EnqueueCollects(d, j, n, got, k, e);
    LaterFragment(d, j, n, k, e);
    if |got| + 1 == n {
      CollectedAll(e, j, n, all);
    } else {
      var x: nat :| x < n && x !in all;
      assert x !in e.have;
      assert e.noMore ==> x in Needed(e.highest);
    }
  }

  // ---- Whole runs ----

  function FragWire(j: Job, k: nat): (h: Octets)
    requires k < 256
    ensures Readable(h)
  {
    ParseWire(Fragment(j, k));
    Wire(Fragment(j, k))
  }

  /** Fragment 0 and then the others in the given order, as octets on the link. */
  function Run(j: Job, order: seq<nat>): (run: seq<Octets>)
    requires forall k <- order :: k < 256
    ensures |run| == |order| + 1 && forall h <- run :: Readable(h)
  {
    if order == [] then [FragWire(j, 0)]
    else
      var before, k := order[..|order| - 1], order[|order| - 1];
      assert k in order && forall x :: x in before ==> x in order;
      Run(j, before) + [FragWire(j, k)]
  }

  lemma ReceiveFragment(d: Defrag, j: Job, n: nat, k: nat)
    requires 2 <= n && FillsFragments(|j.m|, j.n201u, n) && k < n && k < 256
    ensures Receive(d, FragWire(j, k)) == DefragInput(d, Fragment(j, k))
  {
    ParseWire(Fragment(j, k));
    MoreMeans(j, n, k);
    hide Wire, ParsePdu, FillsFragments, DefragInput;
  }

  lemma DeliverNext(d: Defrag, pdus: seq<Octets>, h: Octets)
    requires Readable(h) && forall h <- pdus :: Readable(h)
    ensures var (e, outs) := Deliver(d, pdus);
      Deliver(d, pdus + [h]) == (Receive(e, h).0, outs + [Receive(e, h).1])
  {
    hide Receive;
    assert (pdus + [h])[..|pdus|] == pdus;
  }

  lemma DistinctParts(order: seq<nat>)
    requires Distinct(order) && order != [] && 0 !in order
    ensures var last := |order| - 1;
      && Distinct(order[..last]) && order[last] in order && order[last] !in order[..last]
      && Distinct([0] + order[..last] + [order[last]]) && [0] + order[..last] + [order[last]] == [0] + order
      && forall k <- order[..last] :: k in order
  {
  }

  /** As long as a fragment is missing, exactly those that arrived are in the queue and nothing has
      been handed up. */
  lemma {:induction false} RunCollects(d: Defrag, j: Job, n: nat, order: seq<nat>, missing: nat)
    requires 2 <= n <= 15 && FillsFragments(|j.m|, j.n201u, n) && |j.m| < 0x1_0000_0000
    requires Distinct(order) && (forall k <- order :: 1 <= k < n) && |order| < n - 1
    requires 1 <= missing < n && missing !in order
    ensures var (e, outs) := Deliver(d, Run(j, order));
      Collected(e, j, n, [0] + order) && forall o <- outs :: o == Quiet
    decreases |order|
  {
    hide Piece, FillsFragments, DefragInput, Collected, Receive, FragWire, Distinct;
    if order == [] {
      ReceiveFragment(d, j, n, 0);
      FirstArrives(d, j, n);
      DeliverNext(d, [], FragWire(j, 0));
      assert [] + [FragWire(j, 0)] == [FragWire(j, 0)];
      assert [0] + order == [0];
    } else {
      DistinctParts(order);
      var before, k := order[..|order| - 1], order[|order| - 1];
      RunCollects(d, j, n, before, missing);
      var e := Deliver(d, Run(j, before)).0;
      ReceiveFragment(e, j, n, k);
      assert missing !in [0] + before + [k];
      NextArrives(e, j, n, [0] + before, k);
      DeliverNext(d, Run(j, before), FragWire(j, k));
    }
  }

  /** From any leftover state: an N-PDU of 2 to 15 fragments, the first of them first and the
      others in any order, is handed up once, complete, on the last arrival. */
  lemma AnyOrder(d: Defrag, j: Job, n: nat, order: seq<nat>)
    requires 2 <= n <= 15 && FillsFragments(|j.m|, j.n201u, n) && |j.m| < 0x1_0000_0000 && IsOrder(order, n)
    ensures forall k <- order :: k < 256
    ensures Deliver(d, Run(j, order)).1 == seq(n - 1, _ => Quiet) + [NPdu(j.m, |j.m|)]
  {
    hide Piece, FillsFragments, DefragInput, Collected, Receive, FragWire, Distinct;
    DistinctParts(order);
    var before, k := order[..n - 2], order[n - 2];
    RunCollects(d, j, n, before, k);
    var (e, outs) := Deliver(d, Run(j, before));
    assert outs == seq(n - 1, _ => Quiet) by { assert forall i :: 0 <= i < n - 1 ==> outs[i] in outs; }
    ReceiveFragment(e, j, n, k);
    forall x: nat | x < n ensures x in [0] + before + [k] { assert x == 0 || x in order; }
    NextArrives(e, j, n, [0] + before, k);
    DeliverNext(d, Run(j, before), FragWire(j, k));
  }

  // ---- More than fifteen fragments ----

  function InOrder(n: nat): (order: seq<nat>)
    requires n >= 1
    ensures |order| == n - 1 && forall i :: 0 <= i < n - 1 ==> order[i] == i + 1
  {
    if n == 1 then [] else InOrder(n - 1) + [n - 1]
  }

  /** The fragments 0 up to k - 1, with the segment numbers wrapping at 15, are in the queue. */
  ghost predicate Queued(d: Defrag, j: Job, k: nat) {
    && k >= 1 && |d.frags| == k
    && (forall i :: 0 <= i < k ==> d.frags[i] == FragOf(j, k - 1 - i))
    && d.highest == (if k < 15 then k - 1 else 14) && d.have == Needed(d.highest) && !d.noMore
    && d.tot == Total(d.frags) % 0x1_0000_0000
  }

  lemma NeededGrows(k: nat)
    requires k >= 1
    ensures Needed(if k < 15 then k - 1 else 14) + {k % 15} == Needed(if k + 1 < 15 then k else 14)
  {
    hide Needed;
  }

  lemma FragmentQueued(d: Defrag, j: Job, n: nat, k: nat, e: Defrag)
    requires 1 <= k < n && Queued(d, j, k) && e == Enqueue(d, k % 15, Piece(j, k))
    ensures Queued(e, j, k + 1)
  {
    hide Piece, Total, Needed;
    UnfoldTotal(e.frags);
    assert e.frags[1..] == d.frags;
    NeededGrows(k);
  }

  lemma FirstQueued(d: Defrag, j: Job, n: nat)
    requires n >= 2 && FillsFragments(|j.m|, j.n201u, n)
    ensures var (e, out) := DefragInput(d, Fragment(j, 0)); Queued(e, j, 1) && out == Quiet
  {
    hide Piece, FillsFragments;
    MoreMeans(j, n, 0);
    var e := Enqueue(Defrag(j.npdu, 0, {}, 0, false, []), 0, Piece(j, 0));
    UnfoldTotal(e.frags);
    assert e.frags[1..] == [];
    NoTotal();
  }

  lemma LaterQueued(d: Defrag, j: Job, n: nat, k: nat)
    requires n <= 256 && FillsFragments(|j.m|, j.n201u, n) && 1 <= k < n - 1 && Queued(d, j, k)
    ensures var (e, out) := DefragInput(d, Fragment(j, k)); Queued(e, j, k + 1) && out == Quiet
  {
    hide Piece, FillsFragments, Total;
    MoreMeans(j, n, k);
    FragmentQueued(d, j, n, k, Enqueue(d, k % 15, Piece(j, k)));
  }

  lemma {:induction false} InOrderQueued(d: Defrag, j: Job, n: nat, k: nat)
    requires 2 <= n <= 256 && FillsFragments(|j.m|, j.n201u, n) && 1 <= k < n
    ensures var (e, outs) := Deliver(d, Run(j, InOrder(k))); Queued(e, j, k) && forall o <- outs :: o == Quiet
    decreases k
  {
    hide FillsFragments, Receive, FragWire, Queued, DefragInput, Enqueue;
    if k == 1 {
      ReceiveFragment(d, j, n, 0);
      FirstQueued(d, j, n);
      DeliverNext(d, [], FragWire(j, 0));
      assert [] + [FragWire(j, 0)] == [FragWire(j, 0)];
    } else {
      InOrderQueued(d, j, n, k - 1);
      assert InOrder(k)[..k - 2] == InOrder(k - 1);
      var e := Deliver(d, Run(j, InOrder(k - 1))).0;
      ReceiveFragment(e, j, n, k - 1);
      LaterQueued(e, j, n, k - 1);
      DeliverNext(d, Run(j, InOrder(k - 1)), FragWire(j, k - 1));
    }
  }

  /** The segment numbers repeat from the sixteenth fragment on: only fifteen fragments are copied. */
  lemma LastOfMany(d: Defrag, j: Job, n: nat)
    requires 16 <= n <= 256 && FillsFragments(|j.m|, j.n201u, n) && |j.m| < 0x1_0000_0000 && Queued(d, j, n - 1)
    ensures var (e, out) := DefragInput(d, Fragment(j, n - 1));
      && out.NPdu? && out.len == |j.m| && |out.copied| < |j.m| && |e.frags| == n - 15
  {
    hide Piece, FillsFragments, Assemble, Total, Queued;
    MoreMeans(j, n, n - 1);
    var e := Enqueue(d, (n - 1) % 15, Piece(j, n - 1));
    ManyQueued(d, j, n, e);
    AssembleAccounts(e.frags, 0, 14);
    var rest := Assemble(e.frags, 0, 14).rest;
    assert rest[0] in e.frags;
    SomeTotal(rest);
  }

  lemma SomeTotal(frags: seq<Frag>)
    requires frags != [] && frags[0].data != []
    ensures Total(frags) > 0
  {
  }

  lemma ManyQueued(d: Defrag, j: Job, n: nat, e: Defrag)
    requires 16 <= n && FillsFragments(|j.m|, j.n201u, n) && |j.m| < 0x1_0000_0000 && Queued(d, j, n - 1)
    requires e == Enqueue(d, (n - 1) % 15, Piece(j, n - 1))
    ensures |e.frags| == n && e.highest == 14 && e.have == Needed(14) && Total(e.frags) == |j.m| == e.tot
    ensures forall s :: 0 <= s <= 14 ==> Has(e.frags, s)
    ensures forall f <- e.frags :: f.data != []
  {
    hide Piece, Total, FillsFragments, Cap;
    UnfoldTotal(e.frags);
    assert e.frags[1..] == d.frags;
    assert forall i :: 0 <= i < n ==> e.frags[i] == FragOf(j, n - 1 - i);
    TotalOfQueue(j, n, e.frags);
    PiecesAll(j, n);
    QueueHasAll(j, n, e.frags);
  }

  lemma QueueHasAll(j: Job, n: nat, frags: seq<Frag>)
    requires 16 <= n && FillsFragments(|j.m|, j.n201u, n)
    requires |frags| == n && forall i :: 0 <= i < n ==> frags[i] == FragOf(j, n - 1 - i)
    ensures forall s :: 0 <= s <= 14 ==> Has(frags, s)
    ensures forall f <- frags :: f.data != []
  {
    hide Piece, FillsFragments;
    forall s | 0 <= s <= 14 ensures Has(frags, s) {
      assert frags[n - 1 - s].seg == s;
    }
    forall i | 0 <= i < n ensures frags[i].data != [] {
      PieceNotEmpty(j, n, n - 1 - i);
    }
  }

  lemma PieceNotEmpty(j: Job, n: nat, k: nat)
    requires FillsFragments(|j.m|, j.n201u, n) && k < n
    ensures Piece(j, k) != []
  {
    CapGrows(j.n201u, k, n - 1);
    CapGrows(j.n201u, k, k + 1);
  }

  lemma {:induction false} TotalOfQueue(j: Job, k: nat, frags: seq<Frag>)
    requires |frags| == k && forall i :: 0 <= i < k ==> frags[i] == FragOf(j, k - 1 - i)
    ensures Total(frags) == |Pieces(j, 0, k)|
  {
    if k == 0 {
      PiecesNone(j, 0);
    } else {
      TotalOfQueue(j, k - 1, frags[1..]);
      CapGrows(j.n201u, 0, k - 1);
      CapGrows(j.n201u, k - 1, k);
    }
  }

  lemma ManyInOrder(d: Defrag, j: Job, n: nat)
    requires 16 <= n <= 256 && FillsFragments(|j.m|, j.n201u, n) && |j.m| < 0x1_0000_0000
    ensures var (e, outs) := Deliver(d, Run(j, InOrder(n)));
      && (forall i :: 0 <= i < n - 1 ==> outs[i] == Quiet)
      && outs[n - 1].NPdu? && outs[n - 1].len == |j.m| && |outs[n - 1].copied| < |j.m| && |e.frags| == n - 15
  {
    hide FillsFragments, Receive, FragWire, Queued, DefragInput, Deliver;
    InOrderQueued(d, j, n, n - 1);
    assert InOrder(n)[..n - 2] == InOrder(n - 1);
    var (e, outs) := Deliver(d, Run(j, InOrder(n - 1)));
    assert forall i :: 0 <= i < n - 1 ==> outs[i] in outs;
    ReceiveFragment(e, j, n, n - 1);
    LastOfMany(e, j, n);
    DeliverNext(d, Run(j, InOrder(n - 1)), FragWire(j, n - 1));
  }

  /** Delivered in the order of sending, the N-PDU is handed up once with its whole length announced;
      all of its octets were copied exactly if there are at most fifteen fragments. Otherwise
      n - 15 fragments stay in the queue. */
  lemma InOrderExact(d: Defrag, j: Job, n: nat)
    requires 2 <= n <= 256 && FillsFragments(|j.m|, j.n201u, n) && |j.m| < 0x1_0000_0000
    ensures var (e, outs) := Deliver(d, Run(j, InOrder(n)));
      && (forall i :: 0 <= i < n - 1 ==> outs[i] == Quiet)
      && outs[n - 1].NPdu? && outs[n - 1].len == |j.m| && (outs[n - 1].copied == j.m <==> n <= 15)
      && (n > 15 ==> |e.frags| == n - 15)
  {
    hide FillsFragments, Run, Deliver;
    if n <= 15 {
      InOrderIsOrder(n);
      AnyOrder(d, j, n, InOrder(n));
    } else {
      ManyInOrder(d, j, n);
    }
  }

  lemma InOrderIsOrder(n: nat)
    requires n >= 2
    ensures IsOrder(InOrder(n), n)
  {
    forall k: nat | 1 <= k < n ensures k in InOrder(n) {
      assert InOrder(n)[k - 1] == k;
    }
  }

  /** The N-PDU comes out once, whole, with the last arrival. */
  ghost predicate HandedUpWhole(d: Defrag, j: Job, n: nat, order: seq<nat>)
    requires forall k <- order :: k < 256
    requires n >= 1
  {
    Deliver(d, Run(j, order)).1 == seq(n - 1, _ => Quiet) + [NPdu(j.m, |j.m|)]
  }

  /** Bounds on a fragment's octets: those of fifteen fragments, one of each segment number, are
      fewer than the N-PDU has. */
  ghost predicate Small(f: Frag, j: Job) {
    |f.data| <= j.n201u - 3 && f.seg <= 14 && (f.seg == 0 ==> 14 * (j.n201u - 3) + |f.data| < |j.m|)
  }

  lemma PieceSmall(j: Job, n: nat, k: nat)
    requires 16 <= n && FillsFragments(|j.m|, j.n201u, n) && k < n
    ensures Small(FragOf(j, k), j)
  {
    var c := j.n201u - 3;
    CapStep(j.n201u, k);
    CapGrows(j.n201u, k, k + 1);
    CapGrows(j.n201u, 15, n - 1);
    assert Cap(j.n201u, 15) == 15 * c - 1;
    if n >= 17 {
      CapGrows(j.n201u, 16, n - 1);
      assert Cap(j.n201u, 16) == 16 * c - 1;
    }
  }

  lemma {:induction false} AssembleShort(frags: seq<Frag>, j: Job, k: nat, highest: nat)
    requires 1 <= k <= highest + 1 && highest <= 14 && forall f <- frags :: Small(f, j)
    ensures |Assemble(frags, k, highest).copied| <= Times(highest + 1 - k, j.n201u - 3)
    decreases highest + 1 - k
  {
    hide Small, Assemble;
    AssembleStep(frags, k, highest);
    var i := Find(frags, k);
    if k <= highest && i < |frags| {
      AssembleShort(Without(frags, i), j, k + 1, highest);
      TimesStep(highest + 1 - k, j.n201u - 3);
      SmallSize(frags[i], j);
    }
  }

  lemma TimesStep(a: nat, b: nat)
    requires a > 0
    ensures Times(a, b) == Times(a - 1, b) + b
  {
  }

  lemma SmallZero(f: Frag, j: Job)
    requires Small(f, j) && f.seg == 0
    ensures Times(14, j.n201u - 3) + |f.data| < |j.m|
  {
  }

  lemma TimesGrows(a: nat, b: nat, c: nat)
    requires a <= b
    ensures Times(a, c) <= Times(b, c)
  {
    assert b * c == a * c + (b - a) * c;
  }

  lemma SmallSize(f: Frag, j: Job)
    requires Small(f, j)
    ensures |f.data| <= j.n201u - 3
  {
  }

  lemma AssembleLess(frags: seq<Frag>, j: Job, highest: nat)
    requires highest <= 14 && j.m != [] && forall f <- frags :: Small(f, j)
    ensures |Assemble(frags, 0, highest).copied| < |j.m|
  {
    hide Assemble, Find, Small;
    AssembleStep(frags, 0, highest);
    var i := Find(frags, 0);
    if i < |frags| {
      AssembleShort(Without(frags, i), j, 1, highest);
      TimesGrows(highest, 14, j.n201u - 3);
      SmallZero(frags[i], j);
    }
  }

  /** What holds while fragments of the N-PDU, and no others, arrive in whatever order. */
  ghost predicate Pooled(d: Defrag, j: Job) { d.highest <= 14 && forall f <- d.frags :: Small(f, j) }

  ghost predicate Less(o: Out, j: Job) { o.NPdu? ==> |o.copied| < |j.m| }

  lemma InputPooled(d: Defrag, p: SnPdu, j: Job)
    requires !p.first ==> Pooled(d, j)
    requires Small(Frag(p.seg, p.data), j) && j.m != []
    ensures var (e, out) := DefragInput(d, p); Pooled(e, j) && Less(out, j)
  {
    hide Assemble, Needed, Small;
    var d1 := if p.first then Defrag(p.npdu, 0, {}, 0, false, []) else d;
    var d2 := Enqueue(d1, p.seg, p.data);
    assert p.seg <= 14 by { SmallSegment(Frag(p.seg, p.data), j); }
    assert Pooled(d2, j);
    AssembleLess(d2.frags, j, d2.highest);
    AssembleRest(d2.frags, 0, d2.highest);
  }

  lemma SmallSegment(f: Frag, j: Job)
    requires Small(f, j)
    ensures f.seg <= 14
  {
  }

  lemma {:induction false} AssembleRest(frags: seq<Frag>, k: nat, highest: nat)
    ensures Within(Assemble(frags, k, highest).rest, frags)
    decreases highest + 1 - k
  {
    hide Assemble, Find, Without;
    AssembleStep(frags, k, highest);
    var i := Find(frags, k);
    if k <= highest && i < |frags| {
      AssembleRest(Without(frags, i), k + 1, highest);
      WithinWithout(Assemble(Without(frags, i), k + 1, highest).rest, frags, i);
    }
  }

  /** With more than fifteen fragments no order of arrival, even with fragments repeated or left
      out, ever copies all octets. */
  lemma {:induction false} NeverWhole(d: Defrag, j: Job, n: nat, order: seq<nat>)
    requires 16 <= n <= 256 && FillsFragments(|j.m|, j.n201u, n) && forall k <- order :: 1 <= k < n
    ensures var (e, outs) := Deliver(d, Run(j, order)); Pooled(e, j) && forall o <- outs :: Less(o, j)
    decreases |order|
  {
    hide FillsFragments, DefragInput, Pooled, Receive, FragWire, Small, Less, Piece;
    assert j.m != [] by { Filled(j, n); }
    var k, before := 0, [];
    if order != [] {
      var earlier := order[..|order| - 1];
      assert forall x <- earlier :: x in order;
      k := order[|order| - 1];
      assert k in order;
      before := Run(j, earlier);
      NeverWhole(d, j, n, earlier);
    }
    var e := Deliver(d, before).0;
    ReceiveFragment(e, j, n, k);
    PieceSmall(j, n, k);
    assert Fragment(j, k).first ==> k == 0;
    InputPooled(e, Fragment(j, k), j);
    DeliverNext(d, before, FragWire(j, k));
    assert Run(j, order) == before + [FragWire(j, k)];
  }

  lemma Filled(j: Job, n: nat)
    requires FillsFragments(|j.m|, j.n201u, n)
    ensures j.m != []
  {
  }

  /** Whatever the receiver's leftovers and the order of the later fragments: the N-PDU comes out
      once and whole exactly if it has at most fifteen fragments. */
  lemma ReassemblyExact(d: Defrag, j: Job, n: nat, order: seq<nat>)
    requires 2 <= n <= 256 && FillsFragments(|j.m|, j.n201u, n) && |j.m| < 0x1_0000_0000 && IsOrder(order, n)
    ensures forall k <- order :: k < 256
    ensures HandedUpWhole(d, j, n, order) <==> n <= 15
  {
    hide FillsFragments, Run, Deliver;
    if n <= 15 {
      AnyOrder(d, j, n, order);
    } else {
      NeverWhole(d, j, n, order);
      var outs := Deliver(d, Run(j, order)).1;
      assert outs[n - 1] in outs;
      assert Less(outs[n - 1], j);
    }
  }

  // ---- The code ----

  function Quotient(a: nat, b: nat): nat
    requires b > 0
  {
    a / b
  }

  /** The number of SN-PDUs an N-PDU is sent in. */
  function Count(len: nat, n201u: N201U): nat { Quotient(len, n201u - 3) + 1 }

  /** Where the last fragment begins and how far it can reach. */
  lemma LastFragment(len: nat, n201u: N201U)
    ensures var q := Quotient(len, n201u - 3);
      && Cap(n201u, q + 1) >= len && (q > 0 ==> Cap(n201u, q) < len) && (q == 0 <==> len < n201u - 3)
      && (len < 0x10000 ==> q < 246)
  {
    var c := n201u - 3;
    Division(len, c);
    CapStep(n201u, len / c);
  }

  lemma Division(len: nat, c: nat)
    requires c >= 267
    ensures len / c * c <= len < len / c * c + c
    ensures len < 0x10000 ==> len / c < 246
    ensures len / c == 0 <==> len < c
  {
    Euclid(len, c);
    if len < 0x10000 { Bounded(len / c, c, len); }
  }

  lemma Euclid(len: nat, c: nat)
    requires c > 0
    ensures len / c * c <= len < len / c * c + c
    ensures len / c == 0 <==> len < c
  {
  }

  lemma Bounded(q: nat, c: nat, len: nat)
    requires c >= 267 && q * c <= len < 0x10000
    ensures q < 246
  {
    var excess := q - 246;
    assert q * c == 246 * c + excess * c;
  }

  lemma CountFills(len: nat, n201u: N201U)
    ensures len > 0 ==> FillsFragments(len, n201u, Count(len, n201u))
    ensures Count(len, n201u) == 1 <==> len <= n201u - 4
    ensures len < 0x10000 ==> Count(len, n201u) <= 246
  {
    LastFragment(len, n201u);
    CapZero(n201u);
    hide Cap, Quotient;
  }

  lemma CapZero(n201u: N201U)
    ensures Cap(n201u, 0) == 0
  {
  }

  lemma PieceOfStep(j: Job, k: nat)
    ensures var rest, room := |j.m| - Off(j, k), j.n201u - (if k == 0 then 4 else 3);
      var len := if rest > room then room else rest;
      Piece(j, k) == j.m[Off(j, k)..][..len] && Off(j, k + 1) == Off(j, k) + len
  {
    CapStep(j.n201u, k);
  }

  lemma FragWireIs(j: Job, k: nat)
    requires k < 256
    ensures FragWire(j, k) == Wire(Fragment(j, k))
  {
  }

  lemma SingleFragment(j: Job)
    requires |j.m| <= j.n201u - 4
    ensures Fragment(j, 0) == SnPdu(true, false, j.nsapi, j.pcomp, j.dcomp, j.npdu, 0, j.m)
  {
    CapStep(j.n201u, 0);
  }

  /** The SN-PDUs sent so far are the first fragments of the N-PDU, each within N201-U. */
  ghost predicate InTurn(sent: seq<Octets>, j: Job) {
    |sent| <= 256 && forall k :: 0 <= k < |sent| ==> sent[k] == FragWire(j, k) && |sent[k]| <= j.n201u
  }

  lemma InTurnNext(sent: seq<Octets>, j: Job)
    requires InTurn(sent, j) && |sent| < 256
    ensures InTurn(sent + [Wire(Fragment(j, |sent|))], j)
  {
    hide Wire, Fragment;
    FragmentFits(j, |sent|);
    FragWireIs(j, |sent|);
  }

  lemma InTurnNone(j: Job)
    ensures InTurn([], j)
  {
  }

  lemma InTurnOne(wire: Octets, j: Job)
    requires wire == FragWire(j, 0) && |wire| <= j.n201u
    ensures InTurn([wire], j)
  {
  }

  /** Fragmenter state, allocated for one N-PDU. */
  class FragState {
    const msg: Octets
    var fragNr: Octet
    var nextByte: nat

    constructor (msg: Octets)
      ensures this.msg == msg && fragNr == 0 && nextByte == 0
    {
      this.msg := msg;
      fragNr, nextByte := 0, 0;
    }
  }

  class SndcpEntity {
    const nsapi: Nibble
    var txNpduNr: NpduNumber
    var npdu: NpduNumber
    var highestSeg: Nibble
    var segHave: set<Nibble>
    var totLen: nat
    var noMore: bool
    var fragList: seq<Frag>

    constructor (nsapi: Nibble)
      ensures this.nsapi == nsapi && txNpduNr == 0 && State() == Defrag(0, 0, {}, 0, false, [])
    {
      this.nsapi := nsapi;
      txNpduNr, npdu, highestSeg, segHave, totLen, noMore, fragList := 0, 0, 0, {}, 0, false, [];
    }

    function State(): Defrag
      reads this
    {
      Defrag(npdu, highestSeg, segHave, totLen, noMore, fragList)
    }

    method DefragEnqueue(segNr: Nibble, data: Octets)
      modifies this
      ensures State() == Enqueue(old(State()), segNr, data) && txNpduNr == old(txNpduNr)
      ensures old(Accounted(State())) ==> Accounted(State())
      ensures forall s: Nibble :: s in segHave <==> s == segNr || s in old(segHave)
      ensures Find(fragList, segNr) == 0 && fragList[0].data == data && fragList[1..] == old(fragList)
    {
      if Accounted(State()) { EnqueueAccounted(State(), segNr, data); }
      hide Accounted;
      fragList := [Frag(segNr, data)] + fragList;
      if segNr > highestSeg { highestSeg := segNr; }
      segHave := segHave + {segNr};
      totLen := (totLen + |data|) % 0x1_0000_0000;
    }

    method DefragHaveAllSegments() returns (all: bool)
      ensures all <==> segHave == Needed(highestSeg)
    {
      var segNeeded: set<Nibble> := {};
      var i := 0;
      while i <= highestSeg
        invariant i <= highestSeg + 1
        invariant forall k: Nibble :: k in segNeeded <==> k < i
      {
        segNeeded := segNeeded + {i};
        i := i + 1;
      }
      assert segNeeded == Needed(highestSeg);
      all := segNeeded == segHave;
    }

    /** Takes the first matching fragment out of the queue. */
    method DefragGetSeg(segNr: nat) returns (found: bool, data: Octets)
      modifies `fragList
      ensures var i := Find(old(fragList), segNr);
        && (found <==> i < |old(fragList)|)
        && fragList == (if found then Without(old(fragList), i) else old(fragList))
        && (found ==> data == old(fragList)[i].data)
    {
      var i := 0;
      while i < |fragList|
        invariant 0 <= i <= |fragList| && fragList == old(fragList)
        invariant forall k :: 0 <= k < i ==> fragList[k].seg != segNr
      {
        if fragList[i].seg == segNr {
          data := fragList[i].data;
          fragList := fragList[..i] + fragList[i + 1..];
          return true, data;
        }
        i := i + 1;
      }
      found, data := false, [];
    }

    method DefragSegments() returns (out: Out)
      modifies `fragList
      ensures var a := Assemble(old(fragList), 0, highestSeg);
        fragList == a.rest && out == if a.complete then NPdu(a.copied, totLen) else SegMissing
    {
      hide Assemble, Find;
      var msg: Octets := [];
      var segNr := 0;
      while segNr <= highestSeg
        invariant segNr <= highestSeg + 1
        invariant var a, b := Assemble(old(fragList), 0, highestSeg), Assemble(fragList, segNr, highestSeg);
          a == Assembly(b.rest, b.complete, msg + b.copied)
      {
        AssembleStep(fragList, segNr, highestSeg);
        var found, data := DefragGetSeg(segNr);
        if !found { return SegMissing; }
        msg := msg + data;
        segNr := segNr + 1;
      }
      AssembleStep(fragList, segNr, highestSeg);
      out := NPdu(msg, totLen);
    }

    method Input(p: SnPdu) returns (out: Out)
      modifies this
      ensures (State(), out) == DefragInput(old(State()), p) && txNpduNr == old(txNpduNr)
    {
      if p.first {
        while fragList != []
          invariant State() == old(State()).(frags := fragList) && txNpduNr == old(txNpduNr)
          decreases |fragList|
        {
          fragList := fragList[1..];
        }
        npdu := p.npdu;
        noMore, highestSeg, segHave := false, 0, {};
        totLen := 0;
      }
      DefragEnqueue(p.seg, p.data);
      if !p.more { noMore := true; }
      if noMore {
        var all := DefragHaveAllSegments();
        if all {
          out := DefragSegments();
          return;
        }
      }
      out := Quiet;
    }

    method UnitdataInd(h: Octets) returns (out: Out)
      requires Readable(h)
      modifies this
      ensures (State(), out) == Receive(old(State()), h) && txNpduNr == old(txNpduNr)
    {
      match ParsePdu(h) {
        case NotUnitdata => out := Refused;
        case TooShort => out := Refused;
        case Pdu(p) =>
          if !p.first || p.more {
            out := Input(p);
          } else if |p.data| == 0 {
            out := ShortNpdu;
          } else {
            out := NPdu(p.data, |p.data|);
          }
      }
    }

    function JobOf(m: Octets, n201u: N201U, pcomp: Nibble, dcomp: Nibble): Job
      reads `txNpduNr
    {
      Job(m, n201u, nsapi, pcomp, dcomp, txNpduNr)
    }

    /** One fragment; `accepted` says whether the LLC layer takes it. */
    method SendUdFrag(fs: FragState, n201u: N201U, pcomp: Nibble, dcomp: Nibble, accepted: bool)
      returns (pdu: SnPdu, rc: int)
      requires |fs.msg| < 0x10000 && fs.nextByte == Min(|fs.msg|, Cap(n201u, fs.fragNr))
      requires fs.fragNr < Count(|fs.msg|, n201u)
      modifies fs, `txNpduNr
      ensures var j := old(JobOf(fs.msg, n201u, pcomp, dcomp)); var k := old(fs.fragNr);
        && pdu == Fragment(j, k)
        && fs.fragNr == k + 1 && fs.nextByte == Off(j, k + 1)
        && rc == (if !accepted then -1 else if Cap(n201u, k + 1) < |fs.msg| then 1 else 0)
        && txNpduNr == if rc == 0 then (j.npdu + 1) % 0xfff else j.npdu
    {
      ghost var j, k := JobOf(fs.msg, n201u, pcomp, dcomp), fs.fragNr;
      CountFills(|fs.msg|, n201u);
      CapStep(n201u, k);
      PieceOfStep(j, k);
      hide Cap, Count, Piece;
      var first := fs.fragNr == 0;
      var segNr := fs.fragNr % 15;
      var len := |fs.msg| - fs.nextByte;
      var maxPayloadLen := n201u - 3;
      if first { maxPayloadLen := maxPayloadLen - 1; }
      if len > maxPayloadLen { len := maxPayloadLen; }
      var data := fs.msg[fs.nextByte..][..len];
      fs.fragNr := (fs.fragNr + 1) % 256;
      fs.nextByte := fs.nextByte + len;
      var more := fs.nextByte < |fs.msg|;
      pdu := SnPdu(first, more, nsapi, if first then pcomp else 0, if first then dcomp else 0, txNpduNr, segNr, data);
      if !accepted { return pdu, -1; }
      if !more {
        txNpduNr := (txNpduNr + 1) % 0xfff;
        return pdu, 0;
      }
      rc := 1;
    }

    /** The one PDU of an N-PDU that fits. */
    method Unfragment(m: Octets, n201u: N201U, pcomp: Nibble, dcomp: Nibble) returns (wire: Octets)
      requires |m| <= n201u - 4
      modifies `txNpduNr
      ensures var j := old(JobOf(m, n201u, pcomp, dcomp));
        wire == FragWire(j, 0) && |wire| <= n201u && txNpduNr == (j.npdu + 1) % 0xfff
    {
      ghost var j := JobOf(m, n201u, pcomp, dcomp);
      hide Cap, Quotient, Wire, Fragment, FragWire, FillsFragments;
      FragmentFits(j, 0);
      SingleFragment(j);
      FragWireIs(j, 0);
      wire := Wire(SnPdu(true, false, nsapi, pcomp, dcomp, txNpduNr, 0, m));
      txNpduNr := (txNpduNr + 1) % 0xfff;
    }

    /** Sends an N-PDU; the LLC layer takes `accepts` SN-PDUs and then fails. */
    method UnitdataReq(m: Octets, n201u: N201U, pcomp: Nibble, dcomp: Nibble, accepts: nat)
      returns (sent: seq<Octets>, ok: bool)
      requires |m| < 0x10000
      modifies this
      ensures State() == old(State())
      ensures var j, n := old(JobOf(m, n201u, pcomp, dcomp)), Count(|m|, n201u);
        && n <= 256 && (ok <==> accepts >= n) && |sent| == Min(n, accepts)
        && InTurn(sent, j)
        && txNpduNr == if n == 1 || ok then (j.npdu + 1) % 0xfff else j.npdu
    {
      ghost var j, n := JobOf(m, n201u, pcomp, dcomp), Count(|m|, n201u);
      CapZero(n201u);
      hide Cap, Quotient, Wire, Fragment, FragWire, FillsFragments, Count, Readable, WellFormed, Piece, CommonHeader, NibblesOf;
      CountFills(|m|, n201u);
      sent := [];
      assert InTurn(sent, j) by { InTurnNone(j); }
      hide InTurn;
      if |m| > n201u - 4 {
        var fs := new FragState(m);
        while true
          invariant fresh(fs) && fs.msg == m && State() == old(State()) && txNpduNr == j.npdu
          invariant fs.fragNr == |sent| < n && |sent| <= accepts && fs.nextByte == Off(j, |sent|)
          invariant InTurn(sent, j)
          decreases n - |sent|
        {
          var k := |sent|;
          MoreMeans(j, n, k);
          InTurnNext(sent, j);
          var pdu, rc := SendUdFrag(fs, n201u, pcomp, dcomp, k < accepts);
          if rc < 0 { return sent, false; }
          sent := sent + [Wire(pdu)];
          if rc == 0 { return sent, true; }
        }
      } else {
        var wire := Unfragment(m, n201u, pcomp, dcomp);
        ok := accepts >= 1;
        InTurnOne(wire, j);
        if ok { sent := [wire]; }
      }
    }
  }

  /** An N-PDU small enough for one SN-PDU comes out whole, unless it is empty: the receiver then
      reports a short N-PDU. Whatever is being reassembled stays untouched. */
  lemma Unfragmented(d: Defrag, j: Job)
    requires |j.m| <= j.n201u - 4
    ensures Receive(d, FragWire(j, 0)) == (d, if j.m == [] then ShortNpdu else NPdu(j.m, |j.m|))
  {
    ParseWire(Fragment(j, 0));
    assert Piece(j, 0) == j.m;
    hide Wire, ParsePdu;
  }
}
