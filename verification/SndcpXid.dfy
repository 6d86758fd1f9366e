/** SNDCP-XID messages: version and compression fields as nibbles, bit masks and TLV blocks
    (src/sgsn/gprs_sndcp_xid.c, sections 6.5.1.1, 6.6.1.1 and 6.8 of 3GPP TS 44.065). */
module SndcpXid {
  import opened Octet

  // ---- Compression fields ----

  datatype Class = Protocol | Data

  datatype Kind = Rfc1144 | Rfc2507 | Rohc | V42bis | V44

  datatype Option<T> = None | Some(value: T)

  function ClassOf(k: Kind): Class { if k.V42bis? || k.V44? then Data else Protocol }

  /** The algorithm identifiers of the two classes are numbered separately. */
  function AlgoOf(k: Kind): Octet {
    match k case Rfc1144 => 0 case Rfc2507 => 1 case Rohc => 2 case V42bis => 0 case V44 => 1
  }

  function KindOf(c: Class, algo: int): Option<Kind> {
    match c
    case Protocol => if algo == 0 then Some(Rfc1144) else if algo == 1 then Some(Rfc2507) else if algo == 2 then Some(Rohc) else None
    case Data => if algo == 0 then Some(V42bis) else if algo == 1 then Some(V44) else None
  }

  /** How many PCOMP or DCOMP values a proposal of this kind carries. */
  function CompNum(k: Kind): nat {
    match k case Rfc1144 => 2 case Rfc2507 => 5 case Rohc => 2 case V42bis => 1 case V44 => 2
  }

  /** A numeric parameter: its width in octets, the least value the encoder takes, and the range the
      decoder takes. */
  datatype Scalar = Scalar(width: nat, encMin: nat, min: nat, max: nat)

  /** The parameters of each kind, in the order of encoding: S0-1; F_MAX_PERIOD, F_MAX_TIME,
      MAX_HEADER, TCP_SPACE, NON_TCP_SPACE; MAX_CID, MAX_HEADER; P0, P1, P2; and
      C0, P0, P1T, P1R, P3T, P3R. */
  function Layout(k: Kind): (l: seq<Scalar>)
    ensures forall i :: 0 <= i < |l| ==> 1 <= l[i].width <= 2 && l[i].max < (if l[i].width == 1 then 256 else 65536)
  {
    match k
    case Rfc1144 => [Scalar(1, 0, 0, 255)]
    case Rfc2507 => [Scalar(2, 1, 1, 65535), Scalar(1, 1, 1, 255), Scalar(1, 60, 60, 255), Scalar(1, 3, 3, 255), Scalar(2, 3, 3, 65535)]
    case Rohc => [Scalar(2, 0, 0, 16383), Scalar(2, 60, 60, 255)]
    case V42bis => [Scalar(1, 0, 0, 3), Scalar(2, 512, 512, 65535), Scalar(1, 6, 6, 250)]
    case V44 => [Scalar(1, 0, 0, 255), Scalar(1, 0, 0, 3), Scalar(2, 256, 265, 65535), Scalar(2, 256, 265, 65535),
                 Scalar(2, 0, 265, 65535), Scalar(2, 0, 265, 65535)]
  }

  /** A value V.44 refuses where it stands: C0 has two legal values, P3 is at least twice P1. */
  predicate Refused(k: Kind, before: seq<int>, v: int) {
    k.V44? &&
    if |before| == 0 then v != 0x80 && v != 0xC0
    else if |before| == 4 then v < 2 * before[2]
    else if |before| == 5 then v < 2 * before[3]
    else false
  }

  const ABSENT := -1
  const MAX_ROHC := 16

  type Word16 = x: int | 0 <= x < 0x10000

  /** Numeric parameters a message left out are absent; NSAPIs and profiles have a count. */
  datatype Params = Params(kind: Kind, nsapi: seq<Octet>, values: seq<int>, profiles: seq<Word16>)

  /** PCOMP and DCOMP values have four bits; the encoder refuses larger ones. */
  datatype CompField = CompField(p: bool, entity: nat, algo: int, comp: seq<Nibble>, params: Option<Params>)

  // ---- Encoding ----

  /** What the encoder asserts about one parameter set. */
  predicate EncodableParams(q: Params) {
    && |q.nsapi| <= 11 && (forall n <- q.nsapi :: 5 <= n <= 15)
    && |q.values| == |Layout(q.kind)|
    && (forall i :: 0 <= i < |q.values| ==>
          Layout(q.kind)[i].encMin <= q.values[i] <= Layout(q.kind)[i].max && !Refused(q.kind, q.values[..i], q.values[i]))
    && (if q.kind.Rohc? then |q.profiles| <= MAX_ROHC else q.profiles == [])
  }

  /** What the encoder asserts about a field. */
  predicate Encodable(f: CompField) {
    && f.params.Some? && EncodableParams(f.params.value) && f.entity < 32 && 0 <= f.algo < 32
    && |f.comp| <= 16
  }

  function BitOctet(bits: seq<Octet>, low: nat): Octet {
    Flag(low in bits, 1) + Flag(low + 1 in bits, 2) + Flag(low + 2 in bits, 4) + Flag(low + 3 in bits, 8)
    + Flag(low + 4 in bits, 16) + Flag(low + 5 in bits, 32) + Flag(low + 6 in bits, 64) + Flag(low + 7 in bits, 128)
  }

  /** The mask of the applicable NSAPIs. */
  function NsapiMask(nsapi: seq<Octet>): Octets { [BitOctet(nsapi, 8), BitOctet(nsapi, 0)] }

  function Number(width: nat, v: int): Octets
    requires 1 <= width <= 2 && 0 <= v < (if width == 1 then 256 else 65536)
  {
    if width == 1 then [v] else [v / 256, v % 256]
  }

  /** The octets of the values from position `i` on; there may be fewer values than parameters. */
  function Values(k: Kind, values: seq<int>, i: nat): Octets
    requires i <= |values| <= |Layout(k)|
    requires forall j :: i <= j < |values| ==> 0 <= values[j] <= Layout(k)[j].max
    decreases |values| - i
  {
    if i == |values| then [] else Number(Layout(k)[i].width, values[i]) + Values(k, values, i + 1)
  }

  function Profiles(profiles: seq<Word16>): Octets {
    if profiles == [] then [] else Number(2, profiles[0]) + Profiles(profiles[1..])
  }

  function Payload(q: Params): Octets
    requires EncodableParams(q)
  {
    NsapiMask(q.nsapi) + Values(q.kind, q.values, 0) + Profiles(q.profiles)
  }

  function NibblePair(high: Nibble, low: Nibble): Octet { high * 16 + low }

  function Nibbles(comp: seq<Nibble>): Octets {
    if comp == [] then []
    else if |comp| == 1 then [NibblePair(comp[0], 0)]
    else [NibblePair(comp[0], comp[1])] + Nibbles(comp[2..])
  }

  /** A non-proposing field. */
  function PlainOctets(entity: nat, payload: Octets): Octets { [entity % 32, |payload| % 256] + payload }

  function EncodeField(f: CompField): Octets
    requires Encodable(f)
  {
    var payload := Payload(f.params.value);
    if f.p then [128 + f.entity, f.algo, (|payload| + |Nibbles(f.comp)|) % 256] + Nibbles(f.comp) + payload
    else PlainOctets(f.entity, payload)
  }

  // ---- Decoding ----

  /** Overrun: the decoder needs an octet after the end of the message; the code does not check for
      this, and what it then does is not modelled. */
  datatype Result<T> = Ok(value: T) | Einval | Overrun

  function Weight(j: nat): nat
    requires j < 8
    ensures Weight(j) > 0
  {
    if j == 0 then 1 else if j == 1 then 2 else if j == 2 then 4 else if j == 3 then 8
    else if j == 4 then 16 else if j == 5 then 32 else if j == 6 then 64 else 128
  }

  predicate MaskBit(high: Octet, low: Octet, i: nat)
    requires i < 16
  {
    if i < 8 then SetBit(low, Weight(i)) else SetBit(high, Weight(i - 8))
  }

  /** The NSAPIs from `i` to 15 whose bit is set, ascending. */
  function NsapisFrom(high: Octet, low: Octet, i: nat): seq<Octet>
    decreases 16 - i
  {
    if i > 15 then []
    else if MaskBit(high, low, i) then [i] + NsapisFrom(high, low, i + 1)
    else NsapisFrom(high, low, i + 1)
  }

  function Absent(n: nat): seq<int> { seq(n, _ => ABSENT) }

  datatype Read<T> = Read(got: T, consumed: nat)

  function ValueOf(src: Octets, width: nat): nat
    requires 1 <= width <= 2 && width <= |src|
  {
    if width == 1 then src[0] else Word(src[0], src[1])
  }

  datatype Next = Got(v: nat) | Stop | Bad | Short

  /** The parameter after those in `done`: a value, or nothing more when the octets run out or the value
      is out of range. */
  function NextValue(k: Kind, done: seq<int>, src: Octets, n: nat): (r: Next)
    requires |done| < |Layout(k)|
    ensures r.Got? ==> Layout(k)[|done|].width <= Min(n, |src|)
  {
    var s := Layout(k)[|done|];
    if n < s.width then Stop
    else if |src| < s.width then Short
    else
      var v := ValueOf(src, s.width);
      if v < s.min || v > s.max then Stop else if Refused(k, done, v) then Bad else Got(v)
  }

  /** Reads parameters until there is nothing more; the rest is absent. */
  function DecodeValues(k: Kind, done: seq<int>, src: Octets, n: nat): (r: Result<Read<seq<int>>>)
    requires |done| <= |Layout(k)|
    ensures r.Ok? ==> |r.value.got| == |Layout(k)| && r.value.consumed <= Min(n, |src|)
    decreases |Layout(k)| - |done|
  {
    var stop := Ok(Read(done + Absent(|Layout(k)| - |done|), 0));
    if |done| == |Layout(k)| then stop else
    match NextValue(k, done, src, n)
    case Stop => stop
    case Short => Overrun
    case Bad => Einval
    case Got(v) =>
      var width := Layout(k)[|done|].width;
      var r := DecodeValues(k, done + [v], src[width..], n - width);
      if r.Ok? then Ok(Read(r.value.got, r.value.consumed + width)) else r
  }

  function DecodeProfiles(src: Octets, n: nat, most: nat): (r: Result<seq<Word16>>)
    ensures r.Ok? ==> |r.value| <= most
    decreases most
  {
    if most == 0 || n < 2 then Ok([])
    else if |src| < 2 then Overrun
    else
      var r := DecodeProfiles(src[2..], n - 2, most - 1);
      if r.Ok? then Ok([ValueOf(src, 2)] + r.value) else r
  }

  /** ROHC profiles are read after complete parameters; their count is only kept when all sixteen
      are there. */
  function DecodeParams(k: Kind, src: Octets, n: nat): Result<Read<Params>> {
    if n < 2 then Ok(Read(Params(k, [], Absent(|Layout(k)|), []), 0))
    else if |src| < 2 then Overrun
    else
      var nsapi := NsapisFrom(src[0], src[1], 5);
      match DecodeValues(k, [], src[2..], n - 2)
      case Einval => Einval
      case Overrun => Overrun
      case Ok(Read(values, used)) =>
        if !k.Rohc? || ABSENT in values then Ok(Read(Params(k, nsapi, values, []), 2 + used))
        else
          match DecodeProfiles(src[2..][used..], n - 2 - used, MAX_ROHC)
          case Einval => Einval
          case Overrun => Overrun
          case Ok(profiles) =>
            Ok(Read(Params(k, nsapi, values, if |profiles| == MAX_ROHC then profiles else []), 2 + used + 2 * |profiles|))
  }

  function NibblesOf(src: Octets, n: nat): (comp: seq<Nibble>)
    requires (n + 1) / 2 <= |src|
    ensures |comp| == n
  {
    if n == 0 then [] else if n == 1 then [src[0] / 16]
    else [src[0] / 16, src[0] % 16] + NibblesOf(src[1..], n - 2)
  }

  datatype Entry = Entry(entity: nat, algo: int, class_: Class)

  /** Without a table the code assigns -1; if the entity is not in the table, the number 3. */
  function Lookup(table: Option<seq<Entry>>, entity: nat, c: Class): int
    decreases if table.Some? then |table.value| else 0
  {
    if table.None? then -1
    else if table.value == [] then 3
    else if table.value[0].entity == entity && table.value[0].class_ == c then table.value[0].algo
    else Lookup(Some(table.value[1..]), entity, c)
  }

  /** Differences of unsigned lengths wrap at 32 bits. */
  function Unsigned(x: int): nat
    requires -256 <= x
  {
    if x < 0 then 0x1_0000_0000 + x else x
  }

  function DecodeField(src: Octets, table: Option<seq<Entry>>, c: Class): (r: Result<Read<CompField>>)
    ensures r.Ok? ==> r.value.consumed >= 2
  {
    if |src| < 3 && (|src| < 2 || src[0] >= 128) then Overrun else
    var p, entity := src[0] >= 128, src[0] % 32;
    var algo := if p then src[1] % 32 else Lookup(table, entity, c);
    var at := if p then 3 else 2;
    var len := src[at - 1];
    var kind := KindOf(c, algo);
    if kind.None? then
      if p then Einval else Ok(Read(CompField(false, entity, algo, [], None), at + len))
    else
      var num := if p then CompNum(kind.value) else 0;
      if |src| < at + (num + 1) / 2 then Overrun else
      var comp := NibblesOf(src[at..], num);
      var start := at + (num + 1) / 2;
      match DecodeParams(kind.value, src[start..], Unsigned(len - (num + 1) / 2))
      case Einval => Einval
      case Overrun => Overrun
      case Ok(Read(params, used)) => Ok(Read(CompField(p, entity, algo, comp, Some(params)), start + used))
  }

  // ---- One field there and back ----

  /** What a proposed field must meet to come back unchanged; the last three are limits of this
      decoder. */
  predicate Survives(f: CompField)
    requires Encodable(f)
  {
    var q := f.params.value;
    && f.algo == AlgoOf(q.kind) && |f.comp| == CompNum(q.kind)
    && (forall i :: 0 < i < |q.nsapi| ==> q.nsapi[i - 1] < q.nsapi[i])
    && (q.kind.V44? ==> q.values[2] >= 265 && q.values[3] >= 265)
    && (q.kind.Rohc? ==> |q.profiles| == 0 || |q.profiles| == MAX_ROHC)
  }

  lemma NsapiBit(nsapi: seq<Octet>, i: nat)
    requires i < 16
    ensures MaskBit(BitOctet(nsapi, 8), BitOctet(nsapi, 0), i) <==> i in nsapi
  {
    hide BitOctet, SetBit, Weight;
    if i < 8 { FlagBit(nsapi, 0, i); } else { FlagBit(nsapi, 8, i - 8); }
  }

  lemma FlagBit(bits: seq<Octet>, low: nat, j: nat)
    requires j < 8
    ensures SetBit(BitOctet(bits, low), Weight(j)) == (low + j in bits)
  {
    FlagBits(bits, low);
    hide BitOctet, SetBit;
  }

  lemma FlagBits(bits: seq<Octet>, low: nat)
    ensures var o := BitOctet(bits, low);
      && SetBit(o, 1) == (low in bits) && SetBit(o, 2) == (low + 1 in bits) && SetBit(o, 4) == (low + 2 in bits)
      && SetBit(o, 8) == (low + 3 in bits) && SetBit(o, 16) == (low + 4 in bits) && SetBit(o, 32) == (low + 5 in bits)
      && SetBit(o, 64) == (low + 6 in bits) && SetBit(o, 128) == (low + 7 in bits)
  {
    var l := FourFlags(low in bits, low + 1 in bits, low + 2 in bits, low + 3 in bits);
    var h := FourFlags(low + 4 in bits, low + 5 in bits, low + 6 in bits, low + 7 in bits);
    assert BitOctet(bits, low) == NibblePair(h, l);
    FourBits(low in bits, low + 1 in bits, low + 2 in bits, low + 3 in bits);
    FourBits(low + 4 in bits, low + 5 in bits, low + 6 in bits, low + 7 in bits);
    hide BitOctet, FourFlags, SetBit;
    TwoNibbles(NibblePair(h, l), l, h);
  }

  function FourFlags(b0: bool, b1: bool, b2: bool, b3: bool): Nibble {
    Flag(b0, 1) + Flag(b1, 2) + Flag(b2, 4) + Flag(b3, 8)
  }

  lemma FourBits(b0: bool, b1: bool, b2: bool, b3: bool)
    ensures var o := FourFlags(b0, b1, b2, b3);
      (o % 2 == 1) == b0 && (o / 2 % 2 == 1) == b1 && (o / 4 % 2 == 1) == b2 && (o / 8 % 2 == 1) == b3
  {
  }

  lemma TwoNibbles(o: Octet, l: Nibble, h: Nibble)
    requires o == l + 16 * h
    ensures SetBit(o, 1) == (l % 2 == 1) && SetBit(o, 2) == (l / 2 % 2 == 1)
    ensures SetBit(o, 4) == (l / 4 % 2 == 1) && SetBit(o, 8) == (l / 8 % 2 == 1)
    ensures SetBit(o, 16) == (h % 2 == 1) && SetBit(o, 32) == (h / 2 % 2 == 1)
    ensures SetBit(o, 64) == (h / 4 % 2 == 1) && SetBit(o, 128) == (h / 8 % 2 == 1)
  {
    LowNibble(o, l, h);
    HighNibble(o, l, h);
  }

  lemma LowNibble(o: Octet, l: Nibble, h: Nibble)
    requires o == l + 16 * h
    ensures o % 2 == l % 2 && o / 2 % 2 == l / 2 % 2 && o / 4 % 2 == l / 4 % 2 && o / 8 % 2 == l / 8 % 2
  {
    assert o / 2 == l / 2 + 8 * h && o / 4 == l / 4 + 4 * h && o / 8 == l / 8 + 2 * h;
  }

  lemma HighNibble(o: Octet, l: Nibble, h: Nibble)
    requires o == l + 16 * h
    ensures o / 16 == h && o / 32 == h / 2 && o / 64 == h / 4 && o / 128 == h / 8
  {
  }

  ghost predicate Ascending(s: seq<Octet>) { forall i, j :: 0 <= i < j < |s| ==> s[i] < s[j] }

  lemma {:induction false} NsapisAscending(high: Octet, low: Octet, i: nat)
    ensures var s := NsapisFrom(high, low, i); Ascending(s) && |s| <= (if i <= 15 then 16 - i else 0) && forall x <- s :: i <= x <= 15
    decreases 16 - i
  {
    if i <= 15 {
      NsapisAscending(high, low, i + 1);
      var rest := NsapisFrom(high, low, i + 1);
      if MaskBit(high, low, i) {
        var s := [i] + rest;
        forall a, b | 0 <= a < b < |s| ensures s[a] < s[b] { assert rest[b - 1] in rest; }
      }
    }
  }

  /** An ascending list of NSAPIs is read back from its mask. */
  lemma {:induction false} NsapisBack(nsapi: seq<Octet>, k: nat, i: nat)
    requires Ascending(nsapi) && k <= |nsapi| && i <= 16
    requires (forall j :: 0 <= j < k ==> nsapi[j] < i) && (k < |nsapi| ==> i <= nsapi[k])
    requires nsapi != [] ==> nsapi[|nsapi| - 1] <= 15
    ensures NsapisFrom(BitOctet(nsapi, 8), BitOctet(nsapi, 0), i) == nsapi[k..]
    decreases 16 - i
  {
    if i == 16 {
    } else {
      NsapiBit(nsapi, i);
      hide BitOctet, MaskBit;
      if k < |nsapi| && nsapi[k] == i {
        NsapisBack(nsapi, k + 1, i + 1);
        assert nsapi[k..] == [nsapi[k]] + nsapi[k + 1..];
      } else {
        assert i !in nsapi;
        NsapisBack(nsapi, k, i + 1);
      }
    }
  }

  /** The decoder's lower bounds are those of the encoder, but for P1T and P1R of V.44. */
  predicate Decodable(q: Params)
    requires EncodableParams(q)
  {
    q.kind.V44? ==> q.values[2] >= 265 && q.values[3] >= 265
  }

  /** Values for the first parameters that the decoder takes. */
  predicate Acceptable(k: Kind, values: seq<int>) {
    && |values| <= |Layout(k)|
    && forall i :: 0 <= i < |values| ==>
         Layout(k)[i].min <= values[i] <= Layout(k)[i].max && !Refused(k, values[..i], values[i])
  }

  lemma DecodableAcceptable(q: Params)
    requires EncodableParams(q) && Decodable(q)
    ensures Acceptable(q.kind, q.values) && |q.values| == |Layout(q.kind)|
  {
    forall i | 0 <= i < |q.values| ensures Layout(q.kind)[i].min <= q.values[i] <= Layout(q.kind)[i].max {
      assert !Refused(q.kind, q.values[..i], q.values[i]);
    }
  }

  lemma AcceptableBounds(k: Kind, values: seq<int>)
    requires Acceptable(k, values)
    ensures |values| <= |Layout(k)| && forall i :: 0 <= i < |values| ==> 0 <= values[i] <= Layout(k)[i].max
  {
  }

  lemma NumberBack(width: nat, v: int, tail: Octets)
    requires 1 <= width <= 2 && 0 <= v < (if width == 1 then 256 else 65536)
    ensures |Number(width, v)| == width && ValueOf(Number(width, v) + tail, width) == v
    ensures (Number(width, v) + tail)[width..] == tail
  {
  }

  lemma DecodeDone(k: Kind, done: seq<int>, src: Octets, n: nat)
    requires |done| <= |Layout(k)| && (n == 0 || |done| == |Layout(k)|)
    ensures DecodeValues(k, done, src, n) == Ok(Read(done + Absent(|Layout(k)| - |done|), 0))
  {
  }

  lemma DecodeFull(k: Kind, done: seq<int>, src: Octets, n: nat)
    requires |done| == |Layout(k)|
    ensures DecodeValues(k, done, src, n) == Ok(Read(done, 0))
  {
    assert done + Absent(0) == done;
  }

  lemma DecodeUnfold(k: Kind, done: seq<int>, src: Octets, n: nat)
    requires |done| < |Layout(k)|
    ensures DecodeValues(k, done, src, n) ==
      match NextValue(k, done, src, n)
      case Stop => Ok(Read(done + Absent(|Layout(k)| - |done|), 0))
      case Short => Overrun
      case Bad => Einval
      case Got(v) =>
        var width := Layout(k)[|done|].width;
        var r := DecodeValues(k, done + [v], src[width..], n - width);
        if r.Ok? then Ok(Read(r.value.got, r.value.consumed + width)) else r
  {
    hide Layout, NextValue, Absent;
  }

  lemma DecodeStep(k: Kind, done: seq<int>, src: Octets, n: nat)
    requires |done| < |Layout(k)| && NextValue(k, done, src, n).Got?
    ensures var v, width := NextValue(k, done, src, n).v, Layout(k)[|done|].width;
      DecodeValues(k, done, src, n) ==
        var r := DecodeValues(k, done + [v], src[width..], n - width);
        if r.Ok? then Ok(Read(r.value.got, r.value.consumed + width)) else r
  {
    hide Layout, NextValue, Absent;
  }

  /** All parameters are read back, or, if the octets end there, the first of them. */
  lemma {:induction false} ValuesBack(k: Kind, values: seq<int>, i: nat, tail: Octets, n: nat)
    requires Acceptable(k, values) && i <= |values|
    ensures |values| <= |Layout(k)| && forall j :: 0 <= j < |values| ==> 0 <= values[j] <= Layout(k)[j].max
    ensures var octets := Values(k, values, i);
      (if |values| == |Layout(k)| then n >= |octets| else n == |octets|) ==>
      DecodeValues(k, values[..i], octets + tail, n) == Ok(Read(values + Absent(|Layout(k)| - |values|), |octets|))
    decreases |values| - i
  {
    hide Refused, Layout, ValueOf, Number, DecodeValues, Acceptable, Absent;
    AcceptableBounds(k, values);
    var octets := Values(k, values, i);
    if i == |values| {
      assert values[..i] == values;
      if n == 0 || |values| == |Layout(k)| { DecodeDone(k, values, octets + tail, n); }
    } else if n >= |octets| {
      var s := Layout(k)[i];
      var rest := Values(k, values, i + 1);
      NumberBack(s.width, values[i], rest + tail);
      AcceptableNext(k, values, i, rest + tail, n);
      assert octets + tail == Number(s.width, values[i]) + (rest + tail);
      assert values[..i] + [values[i]] == values[..i + 1];
      DecodeStep(k, values[..i], octets + tail, n);
      ValuesBack(k, values, i + 1, tail, n - s.width);
    }
  }

  lemma AcceptableNext(k: Kind, values: seq<int>, i: nat, tail: Octets, n: nat)
    requires Acceptable(k, values) && i < |values| && n >= Layout(k)[i].width
    ensures var s := Layout(k)[i]; var src := Number(s.width, values[i]) + tail;
      NextValue(k, values[..i], src, n) == Got(values[i]) && src[s.width..] == tail && |Number(s.width, values[i])| == s.width
  {
    NumberBack(Layout(k)[i].width, values[i], tail);
    hide Layout, ValueOf, Number, Refused;
    assert |values[..i]| == i;
  }

  lemma EncodableAll(q: Params)
    requires EncodableParams(q)
    ensures |q.values| == |Layout(q.kind)|
    ensures forall i :: 0 <= i < |q.values| ==>
              0 <= q.values[i] <= Layout(q.kind)[i].max && !Refused(q.kind, q.values[..i], q.values[i])
  {
  }

  lemma {:induction false} ProfilesBack(profiles: seq<Word16>, tail: Octets, most: nat)
    requires |profiles| <= most
    ensures |Profiles(profiles)| == 2 * |profiles|
    ensures DecodeProfiles(Profiles(profiles) + tail, 2 * |profiles|, most) == Ok(profiles)
  {
    hide Number, ValueOf;
    if profiles != [] {
      var rest := profiles[1..];
      ProfilesBack(rest, tail, most - 1);
      NumberBack(2, profiles[0], Profiles(rest) + tail);
      assert Profiles(profiles) + tail == Number(2, profiles[0]) + (Profiles(rest) + tail);
      assert profiles == [profiles[0]] + rest;
    }
  }

  /** The profiles come back if there are none or sixteen; otherwise they are dropped. */
  lemma ParamsBack(q: Params, tail: Octets)
    requires EncodableParams(q) && Decodable(q) && Ascending(q.nsapi)
    ensures var kept := if |q.profiles| == MAX_ROHC then q.profiles else [];
      DecodeParams(q.kind, Payload(q) + tail, |Payload(q)|) == Ok(Read(q.(profiles := kept), |Payload(q)|))
  {
    hide BitOctet, Refused, DecodeValues, DecodeProfiles, Layout, NsapisFrom, Values, Profiles;
    var values, profiles := Values(q.kind, q.values, 0), Profiles(q.profiles);
    var src, n := Payload(q) + tail, |Payload(q)|;
    assert forall x <- q.nsapi :: 5 <= x <= 15;
    assert forall j :: 0 <= j < |q.nsapi| ==> q.nsapi[j] in q.nsapi;
    NsapisBack(q.nsapi, 0, 5);
    assert src[2..] == values + (profiles + tail);
    assert q.values[..0] == [];
    DecodableAcceptable(q);
    ValuesBack(q.kind, q.values, 0, profiles + tail, n - 2);
    NoneAbsent(q);
    assert q.values + Absent(0) == q.values;
    assert src[2..][|values|..] == profiles + tail;
    ProfilesBack(q.profiles, tail, MAX_ROHC);
  }

  lemma NoneAbsent(q: Params)
    requires EncodableParams(q)
    ensures ABSENT !in q.values
  {
  }

  lemma {:induction false} NibblesBack(comp: seq<Nibble>, tail: Octets)
    ensures |Nibbles(comp)| == (|comp| + 1) / 2 && NibblesOf(Nibbles(comp) + tail, |comp|) == comp
  {
    if |comp| >= 2 {
      NibblesBack(comp[2..], tail);
      assert (Nibbles(comp) + tail)[1..] == Nibbles(comp[2..]) + tail;
      assert comp == comp[..2] + comp[2..];
    }
  }

  function ClassOfField(f: CompField): Class
    requires f.params.Some?
  {
    ClassOf(f.params.value.kind)
  }

  lemma PayloadShort(q: Params)
    requires EncodableParams(q)
    ensures 2 <= |Payload(q)| <= 38
  {
    ProfilesBack(q.profiles, [], MAX_ROHC);
    ValuesShort(q, 0);
  }

  lemma ValuesShort(q: Params, i: nat)
    requires EncodableParams(q) && i <= |q.values|
    ensures |Values(q.kind, q.values, i)| <= 2 * (|q.values| - i) && (q.kind.Rohc? && i == 0 ==> |Values(q.kind, q.values, i)| <= 4)
    decreases |q.values| - i
  {
    if i < |q.values| { ValuesShort(q, i + 1); }
  }

  lemma DecodedField(f: CompField, table: Option<seq<Entry>>, tail: Octets)
    requires Encodable(f) && f.p && Survives(f)
    ensures DecodeField(EncodeField(f) + tail, table, ClassOfField(f)) == Ok(Read(f, |EncodeField(f)|))
  {
    hide BitOctet, Payload, Nibbles, NibblesOf, DecodeParams, EncodableParams, NsapiMask, Layout;
    var q := f.params.value;
    var payload, comp := Payload(q), Nibbles(f.comp);
    var src := EncodeField(f) + tail;
    PayloadShort(q);
    NibblesBack(f.comp, payload + tail);
    KeptProfiles(f);
    assert src == [128 + f.entity, f.algo, |payload| + |comp|] + (comp + (payload + tail));
    assert src[3..] == comp + (payload + tail);
    assert src[3 + |comp|..] == payload + tail;
    ParamsBack(q, tail) by { AscendingSteps(q.nsapi); }
    assert KindOf(ClassOf(q.kind), f.algo) == Some(q.kind);
  }

  lemma KeptProfiles(f: CompField)
    requires Encodable(f) && Survives(f)
    ensures var q := f.params.value; q.(profiles := if |q.profiles| == MAX_ROHC then q.profiles else []) == q
  {
  }

  lemma {:induction false} AscendingSteps(s: seq<Octet>)
    requires forall i :: 0 < i < |s| ==> s[i - 1] < s[i]
    ensures Ascending(s)
  {
    if |s| > 1 {
      var before := s[..|s| - 1];
      AscendingSteps(before);
      forall i, j | 0 <= i < j < |s| ensures s[i] < s[j] {
        assert s[|s| - 2] < s[|s| - 1];
        assert i < |s| - 2 ==> before[i] < before[|s| - 2];
        assert j < |s| - 1 ==> before[i] < before[j];
      }
    }
  }

  lemma {:induction false} DecodedValues(k: Kind, done: seq<int>, src: Octets, n: nat)
    requires |done| <= |Layout(k)| && DecodeValues(k, done, src, n).Ok?
    ensures var got := DecodeValues(k, done, src, n).value.got;
      && (forall i :: 0 <= i < |done| ==> got[i] == done[i])
      && (forall i :: |done| <= i < |got| ==> got[i] == ABSENT || Layout(k)[i].min <= got[i] <= Layout(k)[i].max)
    decreases |Layout(k)| - |done|
  {
    hide Layout, Refused;
    if |done| < |Layout(k)| && NextValue(k, done, src, n).Got? {
      var v, width := NextValue(k, done, src, n).v, Layout(k)[|done|].width;
      DecodedValues(k, done + [v], src[width..], n - width);
    }
  }

  /** Whatever the octets, decoded parameters are within the decoder's limits. */
  lemma DecodedParams(k: Kind, src: Octets, n: nat)
    requires DecodeParams(k, src, n).Ok?
    ensures var q := DecodeParams(k, src, n).value.got;
      && q.kind == k && |q.values| == |Layout(k)| && Ascending(q.nsapi)
      && (|q.profiles| == 0 || |q.profiles| == MAX_ROHC)
      && forall i :: 0 <= i < |q.values| ==> q.values[i] == ABSENT || Layout(k)[i].min <= q.values[i] <= Layout(k)[i].max
  {
    hide Layout, NsapisFrom, DecodeProfiles, DecodeValues;
    if n >= 2 && |src| >= 2 {
      NsapisAscending(src[0], src[1], 5);
      DecodedValues(k, [], src[2..], n - 2);
    }
  }

  /** A proposed field comes back unchanged exactly if its algorithm number fits its parameters, it has
      the full number of PCOMP or DCOMP values, its NSAPIs ascend, P1T and P1R are at least 265, and
      there are no ROHC profiles or sixteen. */
  lemma FieldExact(f: CompField, table: Option<seq<Entry>>, tail: Octets)
    requires Encodable(f) && f.p
    ensures DecodeField(EncodeField(f) + tail, table, ClassOfField(f)) == Ok(Read(f, |EncodeField(f)|)) <==> Survives(f)
  {
    if Survives(f) {
      DecodedField(f, table, tail);
    } else if DecodeField(EncodeField(f) + tail, table, ClassOfField(f)) == Ok(Read(f, |EncodeField(f)|)) {
      hide Survives, Encodable, DecodeField, EncodeField;
      FieldSurvives(f, EncodeField(f) + tail, table, ClassOfField(f));
    }
  }

  lemma FieldSurvives(f: CompField, src: Octets, table: Option<seq<Entry>>, c: Class)
    requires Encodable(f) && f.p && DecodeField(src, table, c).Ok? && DecodeField(src, table, c).value.got == f
    requires c == ClassOfField(f)
    ensures Survives(f)
  {
    FieldLimits(f, src, table, c);
    EncodableAll(f.params.value);
    NoneAbsent(f.params.value);
    hide DecodeField, EncodableParams;
  }

  lemma FieldLimits(f: CompField, src: Octets, table: Option<seq<Entry>>, c: Class)
    requires DecodeField(src, table, c).Ok? && DecodeField(src, table, c).value.got == f && f.p
    ensures f.params.Some? && var q := f.params.value;
      && KindOf(c, f.algo) == Some(q.kind) && |f.comp| == CompNum(q.kind) && Ascending(q.nsapi)
      && (|q.profiles| == 0 || |q.profiles| == MAX_ROHC) && |q.values| == |Layout(q.kind)|
      && forall i :: 0 <= i < |q.values| ==>
           q.values[i] == ABSENT || Layout(q.kind)[i].min <= q.values[i] <= Layout(q.kind)[i].max
  {
    hide Layout, DecodeParams, NibblesOf;
    var algo, len := src[1] % 32, src[2];
    var kind := KindOf(c, algo).value;
    var nb := (CompNum(kind) + 1) / 2;
    DecodedParams(kind, src[3 + nb..], Unsigned(len - nb));
  }

  // ---- Messages ----

  const DATA_TAG: Octet := 1
  const PROTOCOL_TAG: Octet := 2

  /** The fields of one class, packed from the end of the list. */
  function Pack(fields: seq<CompField>, c: Class): Octets
    requires forall f <- fields :: Encodable(f)
    decreases |fields|
  {
    if fields == [] then []
    else
      var f, before := fields[|fields| - 1], fields[..|fields| - 1];
      assert f in fields && Encodable(f) && forall g :: g in before ==> g in fields;
      (if ClassOfField(f) == c then EncodeField(f) else []) + Pack(before, c)
  }

  /** tlv_put stores the length in one octet. */
  function Tlv(tag: Octet, value: Octets): Octets { [tag, |value| % 256] + value }

  function Block(tag: Octet, value: Octets): Octets { if value == [] then [] else Tlv(tag, value) }

  /** The version comes first, then the data block and the protocol block; a negative version is left
      out. */
  function CompileXid(version: int, fields: seq<CompField>): Octets
    requires forall f <- fields :: Encodable(f)
  {
    (if version >= 0 then Tlv(0, [version % 256]) else [])
    + Block(DATA_TAG, Pack(fields, Data)) + Block(PROTOCOL_TAG, Pack(fields, Protocol))
  }

  const MAX_ENTITIES := 32

  /** `rem` octets of the block are left, `count` fields of it have been read. Every field is added at
      the head of the list. */
  function DecodeBlock(src: Octets, rem: int, count: nat, table: Option<seq<Entry>>, c: Class): Result<seq<CompField>>
    decreases rem
  {
    if count > 2 * MAX_ENTITIES || rem < 1 then Einval else
    match DecodeField(src, table, c)
    case Einval => Einval
    case Overrun => Overrun
    case Ok(Read(f, used)) =>
      if rem <= used then Ok([f])
      else if used > |src| then Overrun
      else
        var r := DecodeBlock(src[used..], rem - used, count + 1, table, c);
        if r.Ok? then Ok(r.value + [f]) else r
  }

  datatype Message = Message(version: int, fields: seq<CompField>)

  /** One element, added to what the elements before it gave. */
  function DecodeTlv(src: Octets, m: Message, table: Option<seq<Entry>>): (r: Result<Read<Message>>)
    ensures r.Ok? ==> 2 <= r.value.consumed <= |src|
  {
    if |src| < 2 || src[0] > 2 || |src| - 2 < src[1] then Einval
    else
      var tag, value := src[0], src[2..];
      var len: nat := src[1];
      if tag == 0 then
        if value == [] then Overrun else Ok(Read(Message(value[0], m.fields), 2 + len))
      else
        var block := DecodeBlock(value, len, 0, table, if tag == DATA_TAG then Data else Protocol);
        match block
        case Einval => Einval
        case Overrun => Overrun
        case Ok(fields) => Ok(Read(Message(m.version, fields + m.fields), 2 + len))
  }

  /** At most three elements; two octets or fewer after an element are ignored. */
  function DecodeXid(src: Octets, count: nat, m: Message, table: Option<seq<Entry>>): Result<Message>
    decreases |src|
  {
    if count >= 3 then Einval else
    match DecodeTlv(src, m, table)
    case Einval => Einval
    case Overrun => Overrun
    case Ok(Read(next, used)) =>
      if |src| - used <= 2 then Ok(next) else DecodeXid(src[used..], count + 1, next, table)
  }

  // ---- Messages there and back ----

  function Select(fields: seq<CompField>, c: Class): seq<CompField>
    requires forall f <- fields :: f.params.Some?
    decreases |fields|
  {
    if fields == [] then []
    else
      var f, before := fields[|fields| - 1], fields[..|fields| - 1];
      assert f in fields && f.params.Some? && forall g :: g in before ==> g in fields;
      Select(before, c) + if ClassOfField(f) == c then [f] else []
  }

  /** Proposed fields within the limits of the decoder. */
  ghost predicate Proposals(fields: seq<CompField>) {
    forall f <- fields :: Encodable(f) && f.p && Survives(f)
  }

  lemma ProposalsBefore(fields: seq<CompField>)
    requires Proposals(fields) && fields != []
    ensures Proposals(fields[..|fields| - 1])
    ensures var f := fields[|fields| - 1]; Encodable(f) && f.p && Survives(f)
    ensures forall f <- fields :: Encodable(f)
  {
    var f := fields[|fields| - 1];
    assert f in fields;
  }

  lemma PackStep(fields: seq<CompField>, c: Class)
    requires Proposals(fields) && fields != []
    ensures var f, before := fields[|fields| - 1], fields[..|fields| - 1];
      && Encodable(f) && (forall g <- fields :: Encodable(g) && g.params.Some?) && (forall g <- before :: Encodable(g) && g.params.Some?)
      && (ClassOfField(f) != c ==> Pack(fields, c) == Pack(before, c) && Select(fields, c) == Select(before, c))
      && (ClassOfField(f) == c ==>
            Pack(fields, c) == EncodeField(f) + Pack(before, c) && Select(fields, c) == Select(before, c) + [f])
  {
    ProposalsBefore(fields);
    hide Encodable, EncodeField, Survives;
    var before := fields[..|fields| - 1];
    assert forall g :: g in before ==> g in fields;
    AllEncodable(fields);
    AllEncodable(before);
    var rest, chosen := Pack(before, c), Select(before, c);
    assert [] + rest == rest && chosen + [] == chosen;
  }

  lemma FieldLength(f: CompField)
    requires Encodable(f) && f.p && Survives(f)
    ensures 6 <= |EncodeField(f)|
  {
    PayloadShort(f.params.value);
    NibblesBack(f.comp, []);
  }

  lemma {:induction false} BlockBack(fields: seq<CompField>, c: Class, tail: Octets, count: nat, table: Option<seq<Entry>>)
    requires Proposals(fields) && Pack(fields, c) != [] && 6 * count + |Pack(fields, c)| <= 255
    ensures DecodeBlock(Pack(fields, c) + tail, |Pack(fields, c)|, count, table, c) == Ok(Select(fields, c))
    decreases |fields|
  {
    hide Survives, Encodable, EncodeField, DecodeField, Pack, Select, Proposals;
    if fields == [] {
      assert false by { PackNothing(c); }
    }
    ProposalsBefore(fields);
    PackStep(fields, c);
    var f, before := fields[|fields| - 1], fields[..|fields| - 1];
    if ClassOfField(f) != c {
      BlockBack(before, c, tail, count, table);
    } else {
      var rest := Pack(before, c);
      DecodedField(f, table, rest + tail);
      FieldLength(f);
      assert Pack(fields, c) + tail == EncodeField(f) + (rest + tail);
      assert (EncodeField(f) + (rest + tail))[|EncodeField(f)|..] == rest + tail;
      if rest == [] {
        PackEmpty(before, c);
        assert [] + [f] == [f];
      } else {
        BlockBack(before, c, tail, count + 1, table);
      }
    }
  }

  lemma PackNothing(c: Class)
    ensures Pack([], c) == [] && Select([], c) == []
  {
  }

  lemma {:induction false} PackEmpty(fields: seq<CompField>, c: Class)
    requires Proposals(fields)
    ensures (forall f <- fields :: Encodable(f) && f.params.Some?) && (Pack(fields, c) == [] <==> Select(fields, c) == [])
    ensures Pack(fields, c) == [] || |Pack(fields, c)| >= 6
    decreases |fields|
  {
    hide Survives, Encodable, EncodeField, Pack, Select, Proposals;
    PackNothing(c);
    if fields != [] {
      ProposalsBefore(fields);
      FieldLength(fields[|fields| - 1]);
      PackStep(fields, c);
      PackEmpty(fields[..|fields| - 1], c);
    }
  }

  lemma AllEncodable(fields: seq<CompField>)
    requires Proposals(fields)
    ensures forall f <- fields :: Encodable(f) && f.params.Some?
  {
  }

  lemma BlockTlv(c: Class, value: Octets, fields: seq<CompField>, tail: Octets, m: Message, table: Option<seq<Entry>>)
    requires |value| <= 255 && DecodeBlock(value + tail, |value|, 0, table, c) == Ok(fields)
    ensures var e := Tlv(if c == Data then DATA_TAG else PROTOCOL_TAG, value);
      DecodeTlv(e + tail, m, table) == Ok(Read(Message(m.version, fields + m.fields), |e|))
  {
    hide DecodeBlock;
    var src := Tlv(if c == Data then DATA_TAG else PROTOCOL_TAG, value) + tail;
    assert src[2..] == value + tail;
  }

  lemma VersionTlv(version: nat, tail: Octets, m: Message, table: Option<seq<Entry>>)
    ensures DecodeTlv(Tlv(0, [version % 256]) + tail, m, table) == Ok(Read(Message(version % 256, m.fields), 3))
  {
    hide DecodeBlock;
  }

  /** After an element the decoder stops or goes on with what follows it. */
  lemma XidStep(e: Octets, tail: Octets, count: nat, m: Message, next: Message, table: Option<seq<Entry>>)
    requires count < 3 && DecodeTlv(e + tail, m, table) == Ok(Read(next, |e|))
    ensures DecodeXid(e + tail, count, m, table) == if |tail| <= 2 then Ok(next) else DecodeXid(tail, count + 1, next, table)
  {
    hide DecodeTlv;
    assert (e + tail)[|e|..] == tail;
  }

  lemma BlockStep(c: Class, value: Octets, fields: seq<CompField>, tail: Octets, count: nat, m: Message, table: Option<seq<Entry>>)
    requires 0 < |value| <= 255 && count < 3 && DecodeBlock(value + tail, |value|, 0, table, c) == Ok(fields)
    ensures var next := Message(m.version, fields + m.fields);
      DecodeXid(Block(if c == Data then DATA_TAG else PROTOCOL_TAG, value) + tail, count, m, table) ==
        if |tail| <= 2 then Ok(next) else DecodeXid(tail, count + 1, next, table)
  {
    hide DecodeTlv, DecodeXid, DecodeBlock, Tlv;
    BlockTlv(c, value, fields, tail, m, table);
    XidStep(Tlv(if c == Data then DATA_TAG else PROTOCOL_TAG, value), tail, count, m, Message(m.version, fields + m.fields), table);
  }

  lemma BlockLength(tag: Octet, value: Octets)
    ensures |Block(tag, value)| == if value == [] then 0 else 2 + |value|
  {
  }

  /** A data block and a protocol block, one of which may be missing. */
  lemma TwoBlocks(data: Octets, protocol: Octets, d: seq<CompField>, p: seq<CompField>, count: nat, version: int, table: Option<seq<Entry>>)
    requires |data| <= 255 && |protocol| <= 255 && count <= 1 && (data != [] || |protocol| >= 1)
    requires if data == [] then d == [] else DecodeBlock(data + Block(PROTOCOL_TAG, protocol), |data|, 0, table, Data) == Ok(d)
    requires if protocol == [] then p == [] else DecodeBlock(protocol + [], |protocol|, 0, table, Protocol) == Ok(p)
    ensures DecodeXid(Block(DATA_TAG, data) + Block(PROTOCOL_TAG, protocol), count, Message(version, []), table) == Ok(Message(version, p + d))
  {
    BlockLength(DATA_TAG, data);
    BlockLength(PROTOCOL_TAG, protocol);
    hide DecodeXid, DecodeBlock, Block;
    var dw, pw := Block(DATA_TAG, data), Block(PROTOCOL_TAG, protocol);
    assert d + [] == d && p + [] == p && [] + d == d && [] + pw == pw && pw + [] == pw;
    if data == [] {
      assert dw == [];
      BlockStep(Protocol, protocol, p, [], count, Message(version, []), table);
    } else {
      BlockStep(Data, data, d, pw, count, Message(version, []), table);
      if protocol != [] {
        BlockStep(Protocol, protocol, p, [], count + 1, Message(version, d), table);
      }
    }
  }

  lemma VersionStep(version: nat, tail: Octets, m: Message, table: Option<seq<Entry>>)
    ensures var next := Message(version % 256, m.fields);
      DecodeXid(Tlv(0, [version % 256]) + tail, 0, m, table) ==
        if |tail| <= 2 then Ok(next) else DecodeXid(tail, 1, next, table)
  {
    hide DecodeTlv, DecodeXid;
    VersionTlv(version, tail, m, table);
    XidStep(Tlv(0, [version % 256]), tail, 0, m, Message(version % 256, m.fields), table);
  }

  lemma BlocksBack(fields: seq<CompField>, count: nat, version: int, table: Option<seq<Entry>>)
    requires Proposals(fields) && |Pack(fields, Data)| <= 255 && |Pack(fields, Protocol)| <= 255 && count <= 1
    requires Pack(fields, Data) != [] || Pack(fields, Protocol) != []
    ensures var blocks := Block(DATA_TAG, Pack(fields, Data)) + Block(PROTOCOL_TAG, Pack(fields, Protocol));
      |blocks| > 2 && DecodeXid(blocks, count, Message(version, []), table) ==
        Ok(Message(version, Select(fields, Protocol) + Select(fields, Data)))
  {
    hide *;
    AllEncodable(fields);
    var data, protocol := Pack(fields, Data), Pack(fields, Protocol);
    PackEmpty(fields, Data);
    PackEmpty(fields, Protocol);
    BlockLength(DATA_TAG, data);
    BlockLength(PROTOCOL_TAG, protocol);
    if data != [] { BlockBack(fields, Data, Block(PROTOCOL_TAG, protocol), 0, table); }
    if protocol != [] { BlockBack(fields, Protocol, [], 0, table); }
    TwoBlocks(data, protocol, Select(fields, Data), Select(fields, Protocol), count, version, table);
  }

  lemma CompiledIs(version: int, fields: seq<CompField>)
    requires Proposals(fields)
    ensures forall f <- fields :: Encodable(f)
    ensures var blocks := Block(DATA_TAG, Pack(fields, Data)) + Block(PROTOCOL_TAG, Pack(fields, Protocol));
      CompileXid(version, fields) == if version < 0 then blocks else Tlv(0, [version % 256]) + blocks
  {
    AllEncodable(fields);
    hide Pack, Encodable, Block, Tlv;
    var data, protocol := Block(DATA_TAG, Pack(fields, Data)), Block(PROTOCOL_TAG, Pack(fields, Protocol));
    assert [] + data == data;
    if version >= 0 { Regroup(Tlv(0, [version % 256]), data, protocol); }
  }

  /** Decoding a compiled message gives the version and the same fields, the protocol compression
      fields first and the order kept within each class. */
  lemma MessageBack(version: int, fields: seq<CompField>, table: Option<seq<Entry>>)
    requires Proposals(fields) && |Pack(fields, Data)| <= 255 && |Pack(fields, Protocol)| <= 255
    requires CompileXid(version, fields) != []
    ensures DecodeXid(CompileXid(version, fields), 0, Message(-1, []), table) ==
      Ok(Message(if version < 0 then -1 else version % 256, Select(fields, Protocol) + Select(fields, Data)))
  {
    CompiledIs(version, fields);
    hide *;
    AllEncodable(fields);
    PackEmpty(fields, Data);
    PackEmpty(fields, Protocol);
    BlockLength(DATA_TAG, Pack(fields, Data));
    BlockLength(PROTOCOL_TAG, Pack(fields, Protocol));
    var blocks := Block(DATA_TAG, Pack(fields, Data)) + Block(PROTOCOL_TAG, Pack(fields, Protocol));
    if blocks != [] {
      BlocksBack(fields, if version < 0 then 0 else 1, if version < 0 then -1 else version % 256, table);
    }
    if version >= 0 {
      VersionStep(version, blocks, Message(-1, []), table);
    }
  }

  // ---- Confirmations ----

  function EntryOf(f: CompField): Entry
    requires f.params.Some?
  {
    Entry(f.entity, f.algo, ClassOfField(f))
  }

  /** The lookup table: fields without parameters have no class and are left out. */
  function FillTable(fields: seq<CompField>): seq<Entry> {
    if fields == [] then []
    else (if fields[0].params.Some? then [EntryOf(fields[0])] else []) + FillTable(fields[1..])
  }

  /** Every parameter the answer left out is taken from the request. */
  function FillValues(dst: seq<int>, src: seq<int>): seq<int>
    requires |dst| == |src|
  {
    seq(|dst|, i requires 0 <= i < |dst| => if dst[i] < 0 then src[i] else dst[i])
  }

  predicate SameKind(dst: Option<Params>, src: Option<Params>) {
    dst.Some? && src.Some? && dst.value.kind == src.value.kind && |dst.value.values| == |src.value.values|
  }

  /** The profiles of an answer that has some are replaced by those of the request. */
  function CompleteParams(dst: Params, src: Params): Params
    requires |dst.values| == |src.values|
  {
    dst.(values := FillValues(dst.values, src.values),
         profiles := if dst.kind.Rohc? && dst.profiles != [] then src.profiles else dst.profiles)
  }

  datatype Completion = Completion(f: CompField, ok: bool)

  /** A request field with the entity number completes the answer, whatever its class. */
  function CompleteStep(c: Completion, r: CompField): Completion {
    var f := c.f;
    if r.entity != f.entity then c
    else
      var g := if r.comp != [] then f.(comp := r.comp) else f;
      if SameKind(g.params, r.params)
      then Completion(g.(params := Some(CompleteParams(g.params.value, r.params.value))), true)
      else Completion(g, false)
  }

  /** The outcome of the last one counts. */
  function CompleteField(c: Completion, req: seq<CompField>): Completion
    decreases |req|
  {
    if req == [] then c else CompleteField(CompleteStep(c, req[0]), req[1..])
  }

  function CompleteFields(fields: seq<CompField>, req: seq<CompField>): Option<seq<CompField>> {
    if fields == [] then Some([])
    else
      var c := CompleteField(Completion(fields[0], true), req);
      var rest := CompleteFields(fields[1..], req);
      if c.ok && rest.Some? then Some([c.f] + rest.value) else None
  }

  /** Parsing a message, against a request or without one. */
  function ParseXid(src: Octets, req: Option<seq<CompField>>): Result<Message> {
    if src == [] then Einval
    else if req.None? then DecodeXid(src, 0, Message(-1, []), None)
    else
      var m := DecodeXid(src, 0, Message(-1, []), Some(FillTable(req.value)));
      if !m.Ok? then m
      else
        match CompleteFields(m.value.fields, req.value)
        case Some(fields) => Ok(Message(m.value.version, fields))
        case None => Einval
  }

  /** The parser returns the compiled version and fields: protocol compression first, the order
      kept within each class. */
  lemma ProposalRoundTrip(version: int, fields: seq<CompField>)
    requires Proposals(fields) && |Pack(fields, Data)| <= 255 && |Pack(fields, Protocol)| <= 255
    requires version >= 0 || Pack(fields, Data) != [] || Pack(fields, Protocol) != []
    ensures ParseXid(CompileXid(version, fields), None) ==
      Ok(Message(if version < 0 then -1 else version % 256, Select(fields, Protocol) + Select(fields, Data)))
  {
    hide Pack, Select, Survives, Encodable, Proposals, DecodeXid;
    MessageBack(version, fields, None);
  }

  /** A field of a non-proposing answer to the request field `req`: the NSAPIs and the first
      parameters may be given, or nothing. */
  datatype Answer = Answer(req: CompField, nsapi: Option<seq<Octet>>, given: seq<int>)

  ghost predicate Answers(a: Answer, req: seq<CompField>) {
    && a.req in req && Encodable(a.req) && Survives(a.req) && !a.req.params.value.kind.Rohc?
    && Acceptable(a.req.params.value.kind, a.given)
    && (a.nsapi.None? ==> a.given == [])
    && (a.nsapi.Some? ==> Ascending(a.nsapi.value) && |a.nsapi.value| <= 11 && forall n <- a.nsapi.value :: 5 <= n <= 15)
  }

  predicate WireReady(a: Answer) {
    && a.req.params.Some? && Acceptable(a.req.params.value.kind, a.given)
    && |a.given| <= |Layout(a.req.params.value.kind)| && |a.given| <= |a.req.params.value.values|
  }

  function PartialPayload(k: Kind, nsapi: Option<seq<Octet>>, given: seq<int>): Octets
    requires Acceptable(k, given)
  {
    AcceptableBounds(k, given);
    if nsapi.None? then [] else NsapiMask(nsapi.value) + Values(k, given, 0)
  }

  function AnswerPayload(a: Answer): Octets
    requires WireReady(a)
  {
    PartialPayload(a.req.params.value.kind, a.nsapi, a.given)
  }

  function AnswerField(a: Answer): Octets
    requires WireReady(a)
  {
    PlainOctets(a.req.entity, AnswerPayload(a))
  }

  /** What the answer means: algorithm and PCOMP or DCOMP values of the request, the parameters
      given, and the request's for the others. */
  function Completed(a: Answer): CompField
    requires WireReady(a)
  {
    var q := a.req.params.value;
    CompField(false, a.req.entity, a.req.algo, a.req.comp,
              Some(Params(q.kind, if a.nsapi.Some? then a.nsapi.value else [], a.given + q.values[|a.given|..], [])))
  }

  function Uncompleted(a: Answer): CompField
    requires WireReady(a)
  {
    var k := a.req.params.value.kind;
    CompField(false, a.req.entity, a.req.algo, [],
              Some(Params(k, if a.nsapi.Some? then a.nsapi.value else [], a.given + Absent(|Layout(k)| - |a.given|), [])))
  }

  lemma AnswerParams(k: Kind, nsapi: Option<seq<Octet>>, given: seq<int>, tail: Octets)
    requires Acceptable(k, given) && !k.Rohc?
    requires if nsapi.Some? then Ascending(nsapi.value) && (forall n <- nsapi.value :: 5 <= n <= 15) else given == []
    ensures |given| <= |Layout(k)| && forall j :: 0 <= j < |given| ==> 0 <= given[j] <= Layout(k)[j].max
    ensures var payload := PartialPayload(k, nsapi, given);
      DecodeParams(k, payload + tail, |payload|) ==
        Ok(Read(Params(k, if nsapi.Some? then nsapi.value else [], given + Absent(|Layout(k)| - |given|), []), |payload|))
  {
    hide BitOctet, DecodeValues, Layout, NsapisFrom, Values, Acceptable, Absent;
    AcceptableBounds(k, given);
    if nsapi.Some? {
      var list := nsapi.value;
      var values := Values(k, given, 0);
      var payload := NsapiMask(list) + values;
      assert forall j :: 0 <= j < |list| ==> list[j] in list;
      NsapisBack(list, 0, 5);
      assert (payload + tail)[2..] == values + tail;
      assert given[..0] == [];
      ValuesBack(k, given, 0, tail, |values|);
    } else {
      NoParams(k, tail);
      assert [] + tail == tail && [] + Absent(|Layout(k)|) == Absent(|Layout(k)|);
    }
  }

  /** A non-proposing field takes its algorithm from the table. */
  lemma PlainField(entity: nat, payload: Octets, tail: Octets, k: Kind, q: Params, table: Option<seq<Entry>>, c: Class)
    requires entity < 32 && |payload| < 256 && KindOf(c, Lookup(table, entity, c)) == Some(k)
    requires DecodeParams(k, payload + tail, |payload|) == Ok(Read(q, |payload|))
    ensures |PlainOctets(entity, payload)| == 2 + |payload|
    ensures DecodeField(PlainOctets(entity, payload) + tail, table, c) ==
      Ok(Read(CompField(false, entity, Lookup(table, entity, c), [], Some(q)), 2 + |payload|))
  {
    hide DecodeParams, Lookup, KindOf, Layout;
    var src := PlainOctets(entity, payload) + tail;
    assert src[2..] == payload + tail;
    assert src[2..][0..] == payload + tail;
  }

  lemma AnswerFacts(a: Answer, req: seq<CompField>)
    requires Answers(a, req)
    ensures WireReady(a) && a.req.entity < 32
    ensures var k := a.req.params.value.kind;
      && !k.Rohc? && Acceptable(k, a.given) && |a.given| <= |Layout(k)|
      && KindOf(ClassOfField(a.req), a.req.algo) == Some(k) && |AnswerPayload(a)| <= 14
    ensures if a.nsapi.Some? then Ascending(a.nsapi.value) && (forall n <- a.nsapi.value :: 5 <= n <= 15) else a.given == []
  {
    EncodableAll(a.req.params.value);
    AcceptableBounds(a.req.params.value.kind, a.given);
    AnswerShort(a);
    hide Layout;
  }

  /** The parameters of an answer, as far as they are given. */
  lemma AnswerPayloadDecoded(a: Answer, req: seq<CompField>, tail: Octets)
    requires Answers(a, req)
    ensures WireReady(a)
    ensures DecodeParams(a.req.params.value.kind, AnswerPayload(a) + tail, |AnswerPayload(a)|) ==
      Ok(Read(Uncompleted(a).params.value, |AnswerPayload(a)|))
  {
    AnswerFacts(a, req);
    hide Layout, DecodeParams, Acceptable, Answers, PartialPayload, Absent;
    AnswerParams(a.req.params.value.kind, a.nsapi, a.given, tail);
  }

  lemma AnswerDecoded(a: Answer, req: seq<CompField>, table: Option<seq<Entry>>, tail: Octets)
    requires Answers(a, req)
    requires a.req.params.Some? && Lookup(table, a.req.entity, ClassOfField(a.req)) == a.req.algo
    ensures WireReady(a)
    ensures DecodeField(AnswerField(a) + tail, table, ClassOfField(a.req)) == Ok(Read(Uncompleted(a), |AnswerField(a)|))
    ensures 2 <= |AnswerField(a)| <= 16
  {
    AnswerFacts(a, req);
    hide Layout, DecodeParams, Acceptable, DecodeField, Lookup, KindOf, Answers, AnswerPayload, ClassOfField, PlainOctets;
    AnswerPayloadDecoded(a, req, tail);
    PlainField(a.req.entity, AnswerPayload(a), tail, a.req.params.value.kind, Uncompleted(a).params.value, table, ClassOfField(a.req));
  }

  lemma NoParams(k: Kind, src: Octets)
    ensures DecodeParams(k, src, 0) == Ok(Read(Params(k, [], Absent(|Layout(k)|), []), 0))
  {
  }

  lemma AnswerShort(a: Answer)
    requires WireReady(a) && !a.req.params.value.kind.Rohc?
    ensures |AnswerPayload(a)| <= 14
  {
    GivenShort(a.req.params.value.kind, a.given, 0);
  }

  lemma {:induction false} GivenShort(k: Kind, given: seq<int>, i: nat)
    requires Acceptable(k, given) && i <= |given|
    ensures |given| <= |Layout(k)| && forall j :: 0 <= j < |given| ==> 0 <= given[j] <= Layout(k)[j].max
    ensures |Values(k, given, i)| <= 2 * (|given| - i)
    decreases |given| - i
  {
    AcceptableBounds(k, given);
    hide Layout, Acceptable;
    if i < |given| { GivenShort(k, given, i + 1); }
  }

  ghost predicate DistinctEntities(req: seq<CompField>) {
    forall i, j :: 0 <= i < j < |req| ==> req[i].entity != req[j].entity
  }

  lemma {:induction false} LookupFinds(req: seq<CompField>, f: CompField)
    requires DistinctEntities(req) && f in req && f.params.Some?
    ensures Lookup(Some(FillTable(req)), f.entity, ClassOfField(f)) == f.algo
  {
    if req[0] == f {
      assert FillTable(req)[0] == EntryOf(f);
    } else {
      assert req[0].entity != f.entity by { var i :| 0 < i < |req| && req[i] == f; }
      assert f in req[1..];
      LookupFinds(req[1..], f);
      if req[0].params.Some? {
        assert FillTable(req)[1..] == FillTable(req[1..]);
      } else {
        assert FillTable(req) == FillTable(req[1..]);
      }
    }
  }

  lemma CompleteUnfold(c: Completion, req: seq<CompField>, j: nat)
    requires j < |req|
    ensures CompleteField(c, req[j..]) == CompleteField(CompleteStep(c, req[j]), req[j + 1..])
  {
    assert req[j..][1..] == req[j + 1..];
  }

  lemma {:induction false} CompletesOnce(c: Completion, req: seq<CompField>)
    requires forall r <- req :: r.entity != c.f.entity
    ensures CompleteField(c, req) == c
  {
    if req != [] {
      assert req[0] in req;
      CompletesOnce(c, req[1..]);
    }
  }

  lemma {:induction false} CompletionFinds(c: Completion, req: seq<CompField>, r: CompField)
    requires DistinctEntities(req) && r in req && r.entity == c.f.entity && r.comp != [] && SameKind(c.f.params, r.params)
    ensures CompleteField(c, req) ==
      Completion(c.f.(comp := r.comp, params := Some(CompleteParams(c.f.params.value, r.params.value))), true)
  {
    hide CompleteParams;
    if req[0] == r {
      var done := Completion(c.f.(comp := r.comp, params := Some(CompleteParams(c.f.params.value, r.params.value))), true);
      forall x | x in req[1..] ensures x.entity != r.entity {
        var i :| 0 <= i < |req| - 1 && req[1..][i] == x;
        assert req[i + 1] == x;
      }
      CompletesOnce(done, req[1..]);
    } else {
      assert req[0].entity != r.entity by { var i :| 0 < i < |req| && req[i] == r; }
      CompletionFinds(c, req[1..], r);
    }
  }

  lemma AnswerCompleted(a: Answer, req: seq<CompField>)
    requires Answers(a, req) && DistinctEntities(req)
    ensures WireReady(a)
    ensures CompleteField(Completion(Uncompleted(a), true), req) == Completion(Completed(a), true)
  {
    var q, k := a.req.params.value, a.req.params.value.kind;
    AcceptableBounds(k, a.given);
    EncodableAll(q);
    assert CompNum(k) >= 1 && q.profiles == [];
    hide Layout, Acceptable, Encodable, EncodableParams, Survives;
    CompletionFinds(Completion(Uncompleted(a), true), req, a.req);
    var dst := Uncompleted(a).params.value;
    assert FillValues(dst.values, q.values) == a.given + q.values[|a.given|..];
  }

  /** Answers to request fields of one class. */
  ghost predicate AllAnswer(answers: seq<Answer>, req: seq<CompField>, c: Class) {
    forall a <- answers :: Answers(a, req) && ClassOfField(a.req) == c
  }

  lemma AnswersParts(answers: seq<Answer>, req: seq<CompField>, c: Class)
    requires AllAnswer(answers, req, c)
    ensures forall a <- answers :: WireReady(a)
    ensures answers != [] ==> Answers(answers[0], req) && ClassOfField(answers[0].req) == c && AllAnswer(answers[1..], req, c)
  {
    forall a | a in answers ensures WireReady(a) {
      AnswerFacts(a, req);
    }
    assert answers != [] ==> answers[0] in answers;
  }

  function AnswersWire(answers: seq<Answer>): Octets
    requires forall a <- answers :: WireReady(a)
  {
    if answers == [] then []
    else
      assert answers[0] in answers;
      AnswerField(answers[0]) + AnswersWire(answers[1..])
  }

  /** The fields as decoded, the last one first. */
  function UncompletedList(answers: seq<Answer>): seq<CompField>
    requires forall a <- answers :: WireReady(a)
  {
    if answers == [] then []
    else
      assert answers[0] in answers;
      UncompletedList(answers[1..]) + [Uncompleted(answers[0])]
  }

  function CompletedList(answers: seq<Answer>): (r: seq<CompField>)
    requires forall a <- answers :: WireReady(a)
    ensures |r| == |answers|
    ensures forall i :: 0 <= i < |r| ==> WireReady(answers[|answers| - 1 - i]) && r[i] == Completed(answers[|answers| - 1 - i])
  {
    if answers == [] then []
    else
      assert answers[0] in answers;
      CompletedList(answers[1..]) + [Completed(answers[0])]
  }

  lemma {:induction false} AnswersBlock(answers: seq<Answer>, req: seq<CompField>, c: Class, tail: Octets, count: nat)
    requires AllAnswer(answers, req, c) && DistinctEntities(req) && answers != [] && count + |answers| <= 2 * MAX_ENTITIES + 1
    ensures forall a <- answers :: WireReady(a)
    ensures |AnswersWire(answers)| >= 2
    ensures DecodeBlock(AnswersWire(answers) + tail, |AnswersWire(answers)|, count, Some(FillTable(req)), c) == Ok(UncompletedList(answers))
    decreases |answers|
  {
    hide Answers, AllAnswer, WireReady, DecodeField, AnswerField, Lookup, DistinctEntities, Uncompleted, FillTable;
    AnswersParts(answers, req, c);
    var a, rest := answers[0], answers[1..];
    AnswersParts(rest, req, c);
    AnswerFirst(a, req, c, AnswersWire(rest) + tail);
    var e := AnswerField(a);
    assert AnswersWire(answers) + tail == e + (AnswersWire(rest) + tail);
    assert (e + (AnswersWire(rest) + tail))[|e|..] == AnswersWire(rest) + tail;
    NoAnswers();
    assert [] + [Uncompleted(a)] == [Uncompleted(a)];
    if rest != [] {
      AnswersBlock(rest, req, c, tail, count + 1);
    }
  }

  lemma AnswerFirst(a: Answer, req: seq<CompField>, c: Class, tail: Octets)
    requires Answers(a, req) && ClassOfField(a.req) == c && DistinctEntities(req)
    ensures WireReady(a) && |AnswerField(a)| >= 2
    ensures DecodeField(AnswerField(a) + tail, Some(FillTable(req)), c) == Ok(Read(Uncompleted(a), |AnswerField(a)|))
  {
    AnswerFacts(a, req);
    assert a.req in req;
    hide Answers, DecodeField, AnswerField, Lookup, FillTable, DistinctEntities, Layout, Acceptable, Encodable, EncodableParams;
    LookupFinds(req, a.req);
    AnswerDecoded(a, req, Some(FillTable(req)), tail);
  }

  lemma {:induction false} CompleteAppend(x: seq<CompField>, y: seq<CompField>, req: seq<CompField>)
    requires CompleteFields(x, req).Some? && CompleteFields(y, req).Some?
    ensures CompleteFields(x + y, req) == Some(CompleteFields(x, req).value + CompleteFields(y, req).value)
  {
    hide CompleteField;
    if x == [] {
      assert x + y == y;
      assert [] + CompleteFields(y, req).value == CompleteFields(y, req).value;
    } else {
      assert (x + y)[1..] == x[1..] + y;
      CompleteAppend(x[1..], y, req);
      var c := CompleteField(Completion(x[0], true), req).f;
      assert [c] + (CompleteFields(x[1..], req).value + CompleteFields(y, req).value)
          == [c] + CompleteFields(x[1..], req).value + CompleteFields(y, req).value;
    }
  }

  lemma {:induction false} AnswersCompleted(answers: seq<Answer>, req: seq<CompField>, c: Class)
    requires AllAnswer(answers, req, c) && DistinctEntities(req)
    ensures forall a <- answers :: WireReady(a)
    ensures CompleteFields(UncompletedList(answers), req) == Some(CompletedList(answers))
  {
    hide Answers, AllAnswer, WireReady, DistinctEntities, Uncompleted, Completed, CompleteField;
    AnswersParts(answers, req, c);
    if answers != [] {
      var a, rest := answers[0], answers[1..];
      AnswersCompleted(rest, req, c);
      AnswerCompleted(a, req);
      CompleteOne(Uncompleted(a), Completed(a), req);
      CompleteAppend(UncompletedList(rest), [Uncompleted(a)], req);
    }
  }

  lemma CompleteOne(f: CompField, g: CompField, req: seq<CompField>)
    requires CompleteField(Completion(f, true), req) == Completion(g, true)
    ensures CompleteFields([f], req) == Some([g])
  {
    hide CompleteField;
    assert [f][1..] == [];
    assert CompleteFields([], req) == Some([]);
    assert [g] + [] == [g];
  }

  function Confirmation(data: seq<Answer>, protocol: seq<Answer>): Octets
    requires (forall a <- data :: WireReady(a)) && forall a <- protocol :: WireReady(a)
  {
    Block(DATA_TAG, AnswersWire(data)) + Block(PROTOCOL_TAG, AnswersWire(protocol))
  }

  lemma NoAnswers()
    ensures AnswersWire([]) == [] && UncompletedList([]) == [] && CompletedList([]) == []
    ensures Block(DATA_TAG, []) == [] && Block(PROTOCOL_TAG, []) == []
  {
  }

  lemma ConfirmationIs(data: seq<Answer>, protocol: seq<Answer>, req: seq<CompField>)
    requires AllAnswer(data, req, Data) && AllAnswer(protocol, req, Protocol)
    ensures (forall a <- data :: WireReady(a)) && forall a <- protocol :: WireReady(a)
    ensures Confirmation(data, protocol) == Block(DATA_TAG, AnswersWire(data)) + Block(PROTOCOL_TAG, AnswersWire(protocol))
  {
    AnswersParts(data, req, Data);
    AnswersParts(protocol, req, Protocol);
    hide WireReady, AllAnswer, Block, AnswersWire;
  }

  lemma ConfirmationDecoded(data: seq<Answer>, protocol: seq<Answer>, req: seq<CompField>)
    requires AllAnswer(data, req, Data) && AllAnswer(protocol, req, Protocol) && DistinctEntities(req)
    requires |data| <= 2 * MAX_ENTITIES + 1 && |protocol| <= 2 * MAX_ENTITIES + 1 && (data != [] || protocol != [])
    requires (forall a <- data :: WireReady(a)) && forall a <- protocol :: WireReady(a)
    requires |AnswersWire(data)| <= 255 && |AnswersWire(protocol)| <= 255
    ensures Confirmation(data, protocol) != []
    ensures DecodeXid(Confirmation(data, protocol), 0, Message(-1, []), Some(FillTable(req))) ==
        Ok(Message(-1, UncompletedList(protocol) + UncompletedList(data)))
  {
    ConfirmationIs(data, protocol, req);
    NoAnswers();
    hide AllAnswer, WireReady, DistinctEntities, AnswersWire, UncompletedList, DecodeXid, DecodeBlock, FillTable, Block, Confirmation;
    var dw, pw := AnswersWire(data), AnswersWire(protocol);
    BlockLength(DATA_TAG, dw);
    BlockLength(PROTOCOL_TAG, pw);
    if data != [] { AnswersBlock(data, req, Data, Block(PROTOCOL_TAG, pw), 0); }
    if protocol != [] { AnswersBlock(protocol, req, Protocol, [], 0); }
    TwoBlocks(dw, pw, UncompletedList(data), UncompletedList(protocol), 0, -1, Some(FillTable(req)));
  }

  /** Parsing a non-proposing confirmation against its request, entity numbers distinct and ROHC
      aside: every answered entity gets the algorithm and the PCOMP or DCOMP values of its request
      field, keeps each parameter given and has every omitted one filled from the request. The NSAPIs
      are not filled. */
  lemma ConfirmationMeaning(data: seq<Answer>, protocol: seq<Answer>, req: seq<CompField>)
    requires AllAnswer(data, req, Data) && AllAnswer(protocol, req, Protocol) && DistinctEntities(req)
    requires |data| <= 2 * MAX_ENTITIES + 1 && |protocol| <= 2 * MAX_ENTITIES + 1 && (data != [] || protocol != [])
    ensures (forall a <- data :: WireReady(a)) && forall a <- protocol :: WireReady(a)
    ensures |AnswersWire(data)| <= 255 && |AnswersWire(protocol)| <= 255 ==>
      ParseXid(Confirmation(data, protocol), Some(req)) ==
        Ok(Message(-1, CompletedList(protocol) + CompletedList(data)))
  {
    hide AllAnswer, WireReady, DistinctEntities, AnswersWire, UncompletedList, CompletedList, DecodeXid, FillTable, Confirmation, CompleteFields;
    AnswersParts(data, req, Data);
    AnswersParts(protocol, req, Protocol);
    if |AnswersWire(data)| <= 255 && |AnswersWire(protocol)| <= 255 {
      ConfirmationDecoded(data, protocol, req);
      AnswersCompleted(data, req, Data);
      AnswersCompleted(protocol, req, Protocol);
      CompleteAppend(UncompletedList(protocol), UncompletedList(data), req);
    }
  }

  // ---- The code ----

  method DecodeApplicableSapis(src: Octets) returns (nsapis: seq<Octet>)
    requires |src| >= 2
    ensures nsapis == NsapisFrom(src[0], src[1], 5)
  {
    hide MaskBit;
    nsapis := [];
    var i := 0;
    while i < 11
      invariant 0 <= i <= 11 && NsapisFrom(src[0], src[1], 5) == nsapis + NsapisFrom(src[0], src[1], i + 5)
    {
      ghost var rest := NsapisFrom(src[0], src[1], i + 6);
      assert nsapis + ([i + 5] + rest) == nsapis + [i + 5] + rest;
      if MaskBit(src[0], src[1], i + 5) { nsapis := nsapis + [i + 5]; }
      i := i + 1;
    }
  }

  lemma ValuesUnfold(k: Kind, values: seq<int>, i: nat)
    requires i <= |values| <= |Layout(k)|
    requires forall j :: i <= j < |values| ==> 0 <= values[j] <= Layout(k)[j].max
    ensures Values(k, values, i) ==
      if i == |values| then [] else Number(Layout(k)[i].width, values[i]) + Values(k, values, i + 1)
  {
    hide Layout, Number;
  }

  lemma ProfilesUnfold(profiles: seq<Word16>, i: nat)
    requires i <= |profiles|
    ensures Profiles(profiles[i..]) == if i == |profiles| then [] else Number(2, profiles[i]) + Profiles(profiles[i + 1..])
  {
    hide Number;
    if i < |profiles| { assert profiles[i..][1..] == profiles[i + 1..]; }
  }

  method EncodeValues(k: Kind, values: seq<int>) returns (dst: Octets)
    requires |values| <= |Layout(k)| && forall j :: 0 <= j < |values| ==> 0 <= values[j] <= Layout(k)[j].max
    ensures dst == Values(k, values, 0)
  {
    hide Layout, Number, Values;
    dst := [];
    for i := 0 to |values|
      invariant Values(k, values, 0) == dst + Values(k, values, i)
    {
      ValuesUnfold(k, values, i);
      var octets := Number(Layout(k)[i].width, values[i]);
      Regroup(dst, octets, Values(k, values, i + 1));
      dst := dst + octets;
    }
    ValuesUnfold(k, values, |values|);
    assert dst + [] == dst;
  }

  method EncodeProfiles(profiles: seq<Word16>) returns (dst: Octets)
    ensures dst == Profiles(profiles)
  {
    hide Number, Profiles;
    dst := [];
    assert profiles[0..] == profiles;
    for i := 0 to |profiles|
      invariant Profiles(profiles) == dst + Profiles(profiles[i..])
    {
      ProfilesUnfold(profiles, i);
      var octets := Number(2, profiles[i]);
      Regroup(dst, octets, Profiles(profiles[i + 1..]));
      dst := dst + octets;
    }
    ProfilesUnfold(profiles, |profiles|);
    assert dst + [] == dst;
  }

  method EncodeParams(q: Params) returns (dst: Octets)
    requires EncodableParams(q)
    ensures dst == Payload(q)
  {
    EncodableAll(q);
    hide EncodableParams, Layout, NsapiMask, Values, Profiles;
    var values := EncodeValues(q.kind, q.values);
    var profiles := EncodeProfiles(q.profiles);
    dst := NsapiMask(q.nsapi) + values + profiles;
  }

  lemma NibblesUnfold(comp: seq<Nibble>, i: nat)
    requires i < |comp|
    ensures if i + 1 < |comp| then Nibbles(comp[i..]) == [NibblePair(comp[i], comp[i + 1])] + Nibbles(comp[i + 2..])
            else Nibbles(comp[i..]) == [NibblePair(comp[i], 0)]
  {
    if i + 1 < |comp| { assert comp[i..][2..] == comp[i + 2..]; }
  }

  method EncodeCompValues(comp: seq<Nibble>) returns (dst: Octets)
    ensures dst == Nibbles(comp)
  {
    hide Nibbles, NibblePair;
    dst := [];
    var octet: Octet := 0;
    var odd := false;
    var i, from := 0, 0;
    assert comp[0..] == comp;
    while i < |comp|
      invariant 0 <= from <= i <= |comp| && i == from + (if odd then 1 else 0)
      invariant odd ==> octet == NibblePair(comp[from], 0)
      invariant Nibbles(comp) == dst + Nibbles(comp[from..])
    {
      if odd {
        NibblesUnfold(comp, from);
        PairAdds(comp[from], comp[i]);
        octet := octet + comp[i];
        Regroup(dst, [octet], Nibbles(comp[i + 1..]));
        dst := dst + [octet];
        from := i + 1;
      } else {
        octet := NibblePair(comp[i], 0);
      }
      odd := !odd;
      i := i + 1;
    }
    if odd {
      NibblesUnfold(comp, from);
      dst := dst + [octet];
    } else {
      NoNibbles();
      assert comp[|comp|..] == [] && dst + [] == dst;
    }
  }

  lemma PairAdds(high: Nibble, low: Nibble)
    ensures NibblePair(high, 0) + low == NibblePair(high, low)
  {
  }

  lemma NoNibbles()
    ensures Nibbles([]) == []
  {
  }

  method EncodeCompField(f: CompField) returns (dst: Octets)
    requires Encodable(f)
    ensures dst == EncodeField(f)
  {
    var payload := EncodeParams(f.params.value);
    hide Payload, EncodableParams;
    if !f.p { return [f.entity, |payload| % 256] + payload; }
    var len := |payload| + (|f.comp| + 1) / 2;
    var nibbles := EncodeCompValues(f.comp);
    NibblesBack(f.comp, []);
    dst := [128 + f.entity, f.algo, len % 256] + nibbles + payload;
  }

  lemma PackUnfold(fields: seq<CompField>, i: nat, c: Class)
    requires i < |fields| && forall f <- fields :: Encodable(f)
    ensures (forall f <- fields[..i] :: Encodable(f)) && (forall f <- fields[..i + 1] :: Encodable(f)) && Encodable(fields[i])
    ensures Pack(fields[..i + 1], c) ==
      (if ClassOfField(fields[i]) == c then EncodeField(fields[i]) else []) + Pack(fields[..i], c)
  {
    hide Encodable, EncodeField, ClassOfField;
    assert fields[..i + 1][..i] == fields[..i];
    assert forall f <- fields[..i + 1] :: f in fields;
    assert forall f <- fields[..i] :: f in fields;
    assert fields[i] in fields;
  }

  method PackFields(fields: seq<CompField>, c: Class) returns (dst: Octets)
    requires forall f <- fields :: Encodable(f)
    ensures dst == Pack(fields, c)
  {
    hide EncodeField, Pack, ClassOfField;
    dst := [];
    var i := |fields|;
    assert fields[..i] == fields;
    while i > 0
      invariant 0 <= i <= |fields| && (forall f <- fields[..i] :: Encodable(f))
      invariant Pack(fields, c) == dst + Pack(fields[..i], c)
    {
      i := i - 1;
      PackUnfold(fields, i, c);
      var octets: Octets := [];
      if ClassOfField(fields[i]) == c { octets := EncodeCompField(fields[i]); }
      Regroup(dst, octets, Pack(fields[..i], c));
      dst := dst + octets;
    }
    PackNothing(c);
    assert fields[..0] == [] && dst + [] == dst;
  }

  method GprsSndcpCompileXid(version: int, fields: seq<CompField>) returns (dst: Octets)
    requires forall f <- fields :: Encodable(f)
    ensures dst == CompileXid(version, fields)
  {
    hide Encodable, EncodeField, Tlv;
    dst := [];
    if version >= 0 { dst := Tlv(0, [version % 256]); }
    ghost var head := dst;
    if |fields| == 0 { return; }
    hide Pack;
    var data := PackFields(fields, Data);
    if |data| > 0 { dst := dst + Tlv(DATA_TAG, data); }
    var protocol := PackFields(fields, Protocol);
    if |protocol| > 0 { dst := dst + Tlv(PROTOCOL_TAG, protocol); }
    assert dst == head + Block(DATA_TAG, data) + Block(PROTOCOL_TAG, protocol);
  }

  method DecodeParamValues(k: Kind, src: Octets, n: nat) returns (r: Result<Read<seq<int>>>)
    ensures r == DecodeValues(k, [], src, n)
  {
    hide Layout, NextValue, Absent, DecodeValues;
    var done: seq<int> := [];
    var at := 0;
    while |done| < |Layout(k)|
      invariant |done| <= |Layout(k)| && at <= n && at <= |src|
      invariant var all, rest := DecodeValues(k, [], src, n), DecodeValues(k, done, src[at..], n - at);
        all == if rest.Ok? then Ok(Read(rest.value.got, rest.value.consumed + at)) else rest
    {
      DecodeUnfold(k, done, src[at..], n - at);
      match NextValue(k, done, src[at..], n - at) {
        case Stop => return Ok(Read(done + Absent(|Layout(k)| - |done|), at));
        case Short => return Overrun;
        case Bad => return Einval;
        case Got(v) =>
          var width := Layout(k)[|done|].width;
          assert src[at..][width..] == src[at + width..];
          done, at := done + [v], at + width;
      }
    }
    DecodeFull(k, done, src[at..], n - at);
    r := Ok(Read(done, at));
  }

  /** Decodes the fields of one block into the list, each at its head. */
  method DecodeXidBlock(src: Octets, len: nat, table: Option<seq<Entry>>, c: Class) returns (r: Result<seq<CompField>>)
    ensures r == DecodeBlock(src, len, 0, table, c)
  {
    hide DecodeField;
    var fields: seq<CompField> := [];
    var at, count := 0, 0;
    while true
      invariant at <= |src| && (count > 0 ==> at < len)
      invariant var all, rest := DecodeBlock(src, len, 0, table, c), DecodeBlock(src[at..], len - at, count, table, c);
        (all.Ok? <==> rest.Ok?) && (all.Ok? ==> all.value == rest.value + fields) && (!all.Ok? ==> all == rest)
      decreases len - at
    {
      if count > 2 * MAX_ENTITIES { return Einval; }
      if len - at < 1 { return Einval; }
      match DecodeField(src[at..], table, c) {
        case Einval => return Einval;
        case Overrun => return Overrun;
        case Ok(Read(f, used)) =>
          if len - at <= used { return Ok([f] + fields); }
          if used > |src| - at { return Overrun; }
          assert src[at..][used..] == src[at + used..];
          ghost var rest := DecodeBlock(src[at + used..], len - at - used, count + 1, table, c);
          assert rest.Ok? ==> rest.value + [f] + fields == rest.value + ([f] + fields);
          fields, at, count := [f] + fields, at + used, count + 1;
      }
    }
  }

  method GprsSndcpDecodeXid(src: Octets, table: Option<seq<Entry>>) returns (r: Result<Message>)
    ensures r == DecodeXid(src, 0, Message(-1, []), table)
  {
    hide DecodeTlv;
    var m := Message(-1, []);
    var pos, count := 0, 0;
    while true
      invariant pos <= |src| && DecodeXid(src, 0, Message(-1, []), table) == DecodeXid(src[pos..], count, m, table)
      decreases |src| - pos
    {
      if count >= 3 { return Einval; }
      match DecodeTlv(src[pos..], m, table) {
        case Einval => return Einval;
        case Overrun => return Overrun;
        case Ok(Read(next, used)) =>
          assert src[pos..][used..] == src[pos + used..];
          m, pos := next, pos + used;
          if |src| - pos <= 2 { return Ok(m); }
          count := count + 1;
      }
    }
  }

  method GprsSndcpFillTable(fields: seq<CompField>) returns (table: seq<Entry>)
    ensures table == FillTable(fields)
  {
    table := [];
    for i := 0 to |fields|
      invariant FillTable(fields) == table + FillTable(fields[i..])
    {
      assert fields[i..][1..] == fields[i + 1..];
      if fields[i].params.Some? { table := table + [EntryOf(fields[i])]; }
    }
  }

  method LookupAlgorithm(table: seq<Entry>, entity: nat, c: Class) returns (algo: int)
    ensures algo == Lookup(Some(table), entity, c)
  {
    for i := 0 to |table|
      invariant Lookup(Some(table), entity, c) == Lookup(Some(table[i..]), entity, c)
    {
      if table[i].entity == entity && table[i].class_ == c { return table[i].algo; }
      assert table[i..][1..] == table[i + 1..];
    }
    algo := 3;
  }

  /** Completes the parsed fields where they stand, until one cannot be completed. */
  method CompleteInPlace(fields: array<CompField>, req: seq<CompField>) returns (ok: bool)
    modifies fields
    ensures var done := CompleteFields(old(fields[..]), req);
      (ok <==> done.Some?) && (ok ==> fields[..] == done.value)
  {
    hide CompleteField;
    ghost var was := fields[..];
    for i := 0 to fields.Length
      invariant forall k :: i <= k < fields.Length ==> fields[k] == was[k]
      invariant var all, rest := CompleteFields(was, req), CompleteFields(was[i..], req);
        (all.Some? <==> rest.Some?) && (all.Some? ==> all.value == fields[..i] + rest.value)
    {
      ghost var before := fields[..i];
      var c := Completion(fields[i], true);
      var j := 0;
      CompleteNone(c, req);
      while j < |req|
        invariant 0 <= j <= |req| && forall k :: 0 <= k < fields.Length ==> fields[k] == old(fields[..])[k] || k < i
        invariant fields[..i] == before
        invariant CompleteField(Completion(was[i], true), req) == CompleteField(c, req[j..])
      {
        CompleteUnfold(c, req, j);
        c := CompleteStep(c, req[j]);
        j := j + 1;
      }
      CompleteNone(c, req);
      fields[i] := c.f;
      assert was[i..][1..] == was[i + 1..];
      if !c.ok { return false; }
      assert fields[..i + 1] == before + [c.f];
    }
    ok := true;
  }

  lemma CompleteNone(c: Completion, req: seq<CompField>)
    ensures CompleteField(c, req[|req|..]) == c && CompleteField(c, req[0..]) == CompleteField(c, req)
  {
    assert req[0..] == req;
  }
}
