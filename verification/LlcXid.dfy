/** XID parameter lists of the logical link control layer: compiling them into an octet string and
    parsing them back (src/sgsn/gprs_llc_xid.c, section 6.4.1.6 of 3GPP TS 44.064). */
module LlcXid {
  import opened Octet

  datatype Field = Field(typ: Octet, data: Octets)
  datatype Result<T> = Ok(value: T) | Einval

  // ---- One field ----

  /** Lengths above three take the extended header. */
  predicate Extended(len: nat) { len > 3 }

  function HeaderLen(len: nat): nat { if Extended(len) then 2 else 1 }

  /** The type, five bits wide, and the length; the extended length field keeps eight bits. */
  function FieldHeader(typ: Octet, len: nat): Octets
    requires typ < 32
  {
    if Extended(len) then [128 + typ * 4 + len / 64 % 4, len % 64 * 4] else [typ * 4 + len]
  }

  function EncodeField(f: Field, maxLen: int): Result<Octets> {
    if maxLen < |f.data| + HeaderLen(|f.data|) || f.typ > 31 then Einval
    else Ok(FieldHeader(f.typ, |f.data|) + f.data)
  }

  datatype Decoded = Decoded(field: Field, consumed: nat)

  /** The remaining length reaches the decoder through an eight-bit parameter. */
  function DecodeField(src: Octets): (r: Result<Decoded>)
    ensures r.Ok? ==> 1 <= r.value.consumed <= |src| % 256
  {
    var srcLen := |src| % 256;
    if srcLen < 1 then Einval else
    var typ, low := src[0] / 4 % 32, src[0] % 4;
    if src[0] >= 128 && srcLen < 2 then Einval else
    var at: nat := if src[0] >= 128 then 2 else 1;
    var len: nat := if src[0] >= 128 then low * 64 + src[1] / 4 else low;
    if len > 0 && srcLen < at + len then Einval
    else Ok(Decoded(Field(typ, src[at..at + len]), at + len))
  }

  lemma DecodeEncoded(f: Field, maxLen: int, tail: Octets)
    requires EncodeField(f, maxLen).Ok? && |EncodeField(f, maxLen).value + tail| < 256
    ensures var e := EncodeField(f, maxLen).value; DecodeField(e + tail) == Ok(Decoded(f, |e|))
  {
    var e := EncodeField(f, maxLen).value;
    var h, len := HeaderLen(|f.data|), |f.data|;
    HeaderFields(f.typ, len);
    assert (e + tail)[h..h + len] == f.data;
    assert forall i :: 0 <= i < h ==> (e + tail)[i] == FieldHeader(f.typ, len)[i];
  }

  lemma HeaderFields(typ: Octet, len: nat)
    requires typ < 32 && len < 256
    ensures var h := FieldHeader(typ, len);
      && (h[0] >= 128 <==> Extended(len)) && h[0] / 4 % 32 == typ
      && len == if Extended(len) then h[0] % 4 * 64 + h[1] / 4 else h[0] % 4
  {
  }

  // ---- Lists of fields ----

  /** The list is compiled from its end, as parsing adds each field at the head of its list. */
  function Compile(fields: seq<Field>, maxLen: int): Result<Octets>
    decreases |fields|
  {
    if fields == [] then Ok([]) else
    var e := EncodeField(fields[|fields| - 1], maxLen);
    if e.Einval? then Einval else
    var rest := Compile(fields[..|fields| - 1], maxLen - |e.value|);
    if rest.Einval? then Einval else Ok(e.value + rest.value)
  }

  lemma CompileNone()
    ensures forall m: int :: Compile([], m) == Ok([])
  {
  }

  lemma CompileStep(fields: seq<Field>, n: nat, maxLen: int)
    requires 0 < n <= |fields|
    ensures Compile(fields[..n], maxLen) ==
      var e := EncodeField(fields[n - 1], maxLen);
      if e.Einval? then Einval else
      var rest := Compile(fields[..n - 1], maxLen - |e.value|);
      if rest.Einval? then Einval else Ok(e.value + rest.value)
  {
    assert fields[..n][..n - 1] == fields[..n - 1];
  }

  function Parse(src: Octets): Result<seq<Field>>
    decreases |src|
  {
    var d := DecodeField(src);
    if d.Einval? then Einval
    else if d.value.consumed == |src| then Ok([d.value.field])
    else
      var rest := Parse(src[d.value.consumed..]);
      if rest.Einval? then Einval else Ok(rest.value + [d.value.field])
  }

  lemma ParseStep(src: Octets)
    ensures var d := DecodeField(src);
      if d.Einval? then Parse(src) == Einval
      else if d.value.consumed == |src| then Parse(src) == Ok([d.value.field])
      else
        var rest := Parse(src[d.value.consumed..]);
        Parse(src) == if rest.Einval? then Einval else Ok(rest.value + [d.value.field])
  {
  }

  /** Only strings of 1 to 255 octets parse. */
  lemma {:induction false} ParseLength(src: Octets)
    requires Parse(src).Ok?
    ensures 1 <= |src| <= 255
    decreases |src|
  {
    var d := DecodeField(src).value;
    if d.consumed < |src| {
      ParseLength(src[d.consumed..]);
    }
  }

  lemma {:induction false} ParseCompiled(fields: seq<Field>, maxLen: int)
    requires fields != [] && Compile(fields, maxLen).Ok? && |Compile(fields, maxLen).value| < 256
    ensures Parse(Compile(fields, maxLen).value) == Ok(fields)
    decreases |fields|
  {
    hide EncodeField, DecodeField;
    var f, before := fields[|fields| - 1], fields[..|fields| - 1];
    var e := EncodeField(f, maxLen).value;
    var rest := Compile(before, maxLen - |e|).value;
    DecodeEncoded(f, maxLen, rest);
    assert (e + rest)[|e|..] == rest;
    assert before + [f] == fields;
    if before != [] {
      CompileNonEmpty(before, maxLen - |e|);
      ParseCompiled(before, maxLen - |e|);
    }
  }

  lemma CompileNonEmpty(fields: seq<Field>, maxLen: int)
    requires fields != [] && Compile(fields, maxLen).Ok?
    ensures Compile(fields, maxLen).value != []
  {
  }

  /** Parsing undoes compiling, order included, exactly when the message has 1 to 255 octets. */
  lemma RoundTrip(fields: seq<Field>, maxLen: int)
    requires Compile(fields, maxLen).Ok?
    ensures var b := Compile(fields, maxLen).value; Parse(b) == Ok(fields) <==> 1 <= |b| <= 255
  {
    var b := Compile(fields, maxLen).value;
    if 1 <= |b| <= 255 {
      ParseCompiled(fields, maxLen);
    } else if Parse(b).Ok? {
      ParseLength(b);
    }
  }

  /** What was parsed compiles again, into no more octets and with the same meaning: only the choice of
      the header form and of its spare bits can be lost. */
  lemma {:induction false} Recompile(src: Octets, maxLen: int)
    requires Parse(src).Ok? && |src| <= maxLen
    ensures var c := Compile(Parse(src).value, maxLen); c.Ok? && 1 <= |c.value| <= |src| && Parse(c.value) == Parse(src)
  {
    ParseLength(src);
    RecompileFits(src, maxLen);
    var fields := Parse(src).value;
    CompileNonEmpty(fields, maxLen);
    RoundTrip(fields, maxLen);
  }

  lemma EncodeDecoded(src: Octets, maxLen: int)
    requires DecodeField(src).Ok? && |src| <= maxLen
    ensures var d := DecodeField(src).value; var e := EncodeField(d.field, maxLen); e.Ok? && 1 <= |e.value| <= d.consumed
  {
  }

  lemma {:induction false} RecompileFits(src: Octets, maxLen: int)
    requires Parse(src).Ok? && |src| <= maxLen
    ensures var fields := Parse(src).value;
      fields != [] && Compile(fields, maxLen).Ok? && |Compile(fields, maxLen).value| <= |src|
    decreases |src|
  {
    hide EncodeField, DecodeField;
    var d := DecodeField(src).value;
    EncodeDecoded(src, maxLen);
    var e := EncodeField(d.field, maxLen);
    var fields := Parse(src).value;
    if d.consumed < |src| {
      var tail := src[d.consumed..];
      RecompileFits(tail, maxLen - |e.value|);
      assert fields[..|fields| - 1] == Parse(tail).value;
    } else {
      assert fields[..0] == [];
    }
  }

  // ---- The code ----

  method EncodeXidField(dst: array<Octet>, at: nat, dstMaxLen: int, f: Field) returns (rc: int)
    requires at + (if dstMaxLen > 0 then dstMaxLen else 0) <= dst.Length
    modifies dst
    ensures dst[..at] == old(dst[..at])
    ensures match EncodeField(f, dstMaxLen)
      case Einval => rc == -1
      case Ok(e) => rc == |e| <= dstMaxLen && dst[at..at + rc] == e
  {
    var xl := 0;
    if |f.data| > 3 { xl := 1; }
    if dstMaxLen < |f.data| + 1 + xl { return -1; }
    if f.typ > 31 { return -1; }
    forall i | at <= i < at + dstMaxLen { dst[i] := 0; }
    if xl == 1 {
      dst[at] := 128 + f.typ * 4 + |f.data| / 64 % 4;
      dst[at + 1] := |f.data| % 64 * 4;
    } else {
      dst[at] := f.typ * 4 + |f.data|;
    }
    var body := at + 1 + xl;
    forall i | 0 <= i < |f.data| { dst[body + i] := f.data[i]; }
    rc := |f.data| + 1 + xl;
    assert dst[at..body] == FieldHeader(f.typ, |f.data|);
    assert dst[body..at + rc] == f.data;
    JoinSlices(dst[..], at, body, at + rc);
    assert dst[..][at..body] == dst[at..body] && dst[..][body..at + rc] == dst[body..at + rc];
  }

  method CompileXid(dst: array<Octet>, fields: seq<Field>) returns (rc: int)
    modifies dst
    ensures match Compile(fields, dst.Length)
      case Einval => rc == -1
      case Ok(b) => rc == |b| <= dst.Length && dst[..rc] == b
  {
    hide EncodeField, Compile;
    rc := 0;
    var i := |fields|;
    assert fields[..i] == fields && fields[..0] == [];
    CompileNone();
    while i > 0
      invariant 0 <= i <= |fields| && 0 <= rc <= dst.Length
      invariant var c, rest := Compile(fields, dst.Length), Compile(fields[..i], dst.Length - rc);
        (c.Ok? <==> rest.Ok?) && (c.Ok? ==> c.value == dst[..rc] + rest.value)
    {
      CompileStep(fields, i, dst.Length - rc);
      ghost var done := dst[..rc];
      var n := EncodeXidField(dst, rc, dst.Length - rc, fields[i - 1]);
      if n < 0 { return -1; }
      assert dst[..rc + n] == done + dst[rc..rc + n];
      ghost var e, rest := EncodeField(fields[i - 1], dst.Length - rc).value, Compile(fields[..i - 1], dst.Length - rc - n);
      assert rest.Ok? ==> done + (e + rest.value) == done + e + rest.value;
      rc := rc + n;
      i := i - 1;
    }
  }

  /** Whatever follows an encoded field, the field is read from exactly its own octets; and encoding what was read again
      needs no more octets than were taken. */
  ghost predicate ReadsBack(src: Octets, d: Result<Decoded>) {
    && (forall f, maxLen, tail | EncodeField(f, maxLen).Ok? && src == EncodeField(f, maxLen).value + tail && |src| < 256 ::
         d == Ok(Decoded(f, |src| - |tail|)))
    && (d.Ok? ==>
         var e := EncodeField(d.value.field, |src|); e.Ok? && 1 <= |e.value| <= d.value.consumed <= |src| % 256)
  }

  lemma DecodeReadsBack(src: Octets)
    ensures ReadsBack(src, DecodeField(src))
  {
    hide EncodeField, DecodeField;
    forall f, maxLen, tail | EncodeField(f, maxLen).Ok? && src == EncodeField(f, maxLen).value + tail && |src| < 256
      ensures DecodeField(src) == Ok(Decoded(f, |src| - |tail|))
    {
      DecodeEncoded(f, maxLen, tail);
    }
    if DecodeField(src).Ok? { EncodeDecoded(src, |src|); }
  }

  method DecodeXidField(src: Octets) returns (d: Result<Decoded>)
    ensures d == DecodeField(src) && ReadsBack(src, d)
  {
    hide ReadsBack;
    DecodeReadsBack(src);
    var srcLen := |src| % 256;
    var srcCounter := 0;
    if srcLen < 1 { return Einval; }
    var xl := src[0] / 128 == 1;
    var typ := src[0] / 4 % 32;
    var len: nat := src[0] % 4;
    srcCounter := 1;
    if xl {
      if srcLen < 2 { return Einval; }
      len := len * 64;
      len := len + src[1] / 4;
      srcCounter := 2;
    }
    var data: Octets := [];
    if len > 0 {
      if srcLen < srcCounter + len { return Einval; }
      data := src[srcCounter..srcCounter + len];
    }
    assert data == src[srcCounter..srcCounter + len];
    d := Ok(Decoded(Field(typ, data), srcCounter + len));
  }

  /** The loop guard bails out when its counter reaches zero. It never ends the parsing of a
      non-empty message, as every round consumes at least one octet: the result is that of the
      unguarded Parse. */
  method ParseXid(message: Octets) returns (fields: Result<seq<Field>>)
    ensures fields == Parse(message)
  {
    hide DecodeField, Parse, ReadsBack;
    if Parse(message).Ok? { ParseLength(message); }
    var src: Octets, list: seq<Field> := message, [];
    var maxLoops := |message|;
    while true
      invariant maxLoops >= |src| && (src == [] ==> message == [])
      invariant (Parse(message).Ok? <==> Parse(src).Ok?) && (Parse(src).Ok? ==> Parse(message).value == Parse(src).value + list)
      decreases |src|
    {
      if maxLoops <= 0 { return Einval; }
      ParseStep(src);
      var d := DecodeXidField(src);
      if d.Einval? { return Einval; }
      ghost var rest := Parse(src[d.value.consumed..]);
      assert rest.Ok? ==> rest.value + [d.value.field] + list == rest.value + ([d.value.field] + list);
      list := [d.value.field] + list;
      src := src[d.value.consumed..];
      if |src| == 0 { return Ok(list); }
      maxLoops := maxLoops - 1;
    }
  }

  function Reversed(fields: seq<Field>): (r: seq<Field>)
    ensures |r| == |fields| && forall i :: 0 <= i < |r| ==> r[i] == fields[|fields| - 1 - i]
  {
    if fields == [] then [] else Reversed(fields[1..]) + [fields[0]]
  }

  /** Copying a list adds every duplicate at the head: the copy is in reverse order. */
  method CopyXid(fields: seq<Field>) returns (copy: seq<Field>)
    ensures copy == Reversed(fields)
  {
    copy := [];
    for i := 0 to |fields|
      invariant Reversed(fields) == Reversed(fields[i..]) + copy
    {
      copy := [fields[i]] + copy;
    }
  }

  /** So a compiled copy carries the fields in the opposite order, and parses to the reversed list. */
  lemma CopyReverses(fields: seq<Field>, maxLen: int)
    requires fields != [] && Compile(Reversed(fields), maxLen).Ok? && |Compile(Reversed(fields), maxLen).value| <= 255
    ensures Parse(Compile(Reversed(fields), maxLen).value) == Ok(Reversed(fields))
    ensures Reversed(Reversed(fields)) == fields
  {
    CompileNonEmpty(Reversed(fields), maxLen);
    RoundTrip(Reversed(fields), maxLen);
  }
}
