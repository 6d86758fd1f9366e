/** The registry of mobility management contexts: a list, five hash tables over it, lookups by key, and
    the allocation of P-TMSIs (src/sgsn/mmctx.c, with the writers in src/sgsn/gprs_gmm.c). */
module MmRegistry {
  // ---- Contexts and tables ----

  type Tmsi = x: int | 0 <= x < 0x1_0000_0000

  /** Reserved and unassigned values that are not keys; zero is not a key either. */
  const RESERVED: Tmsi := 0xffffffff

  predicate ValidKey(k: Tmsi) { k != 0 && k != RESERVED }

  /** The keys of a context; `ra` names its routing area. */
  datatype Ctx = Ctx(imsi: string, ptmsi: Tmsi, ptmsiOld: Tmsi, tlli: Tmsi, tlliNew: Tmsi, ra: int)

  /** A hash table: the contexts chained at each bucket. */
  type Index = map<nat, seq<nat>>

  /** The hash functions; nothing is known of how they spread the keys. */
  datatype Hashes = Hashes(num: Tmsi -> nat, str: string -> nat)

  /** `list` are the contexts in use, the newest first. */
  datatype Reg = Reg(ctxs: map<nat, Ctx>, list: seq<nat>, byImsi: Index, byPtmsi: Index, byPtmsiOld: Index,
                     byTlli: Index, byTlliNew: Index, next: nat)

  function Chain(idx: Index, b: nat): seq<nat> { if b in idx then idx[b] else [] }

  function Without(s: seq<nat>, id: nat): (r: seq<nat>)
    ensures forall x :: x in r <==> x in s && x != id
  {
    if s == [] then []
    else
      var rest := Without(s[1..], id);
      assert s == [s[0]] + s[1..];
      if s[0] == id then rest else [s[0]] + rest
  }

  /** hash_del finds the chain through the node itself. */
  function HashDel(idx: Index, id: nat): Index { map b | b in idx :: Without(idx[b], id) }

  function HashAdd(idx: Index, id: nat, b: nat): Index { idx[b := [id] + Chain(idx, b)] }

  /** Where a key is to be found, if it is one. */
  datatype Place = Nowhere | Bucket(b: nat)

  function Rehash(idx: Index, id: nat, p: Place): Index {
    if p.Nowhere? then HashDel(idx, id) else HashAdd(HashDel(idx, id), id, p.b)
  }

  /** A table holds the contexts of `want` in their buckets, and no others. */
  ghost predicate Indexes(idx: Index, want: map<nat, nat>) {
    forall b, id :: id in Chain(idx, b) <==> id in want && want[id] == b
  }

  lemma RehashOk(idx: Index, want: map<nat, nat>, id: nat, p: Place)
    requires Indexes(idx, want)
    ensures Indexes(Rehash(idx, id, p), if p.Bucket? then want[id := p.b] else want - {id})
  {
    var d := HashDel(idx, id);
    forall b, x ensures x in Chain(d, b) <==> x in want && want[x] == b && x != id {
      assert x in Chain(idx, b) <==> x in want && want[x] == b;
    }
    if p.Bucket? {
      var e, more := HashAdd(d, id, p.b), want[id := p.b];
      forall b, x ensures x in Chain(e, b) <==> x in more && more[x] == b {
        assert x in Chain(d, b) <==> x in want && want[x] == b && x != id;
        assert Chain(e, b) == if b == p.b then [id] + Chain(d, b) else Chain(d, b);
      }
    }
  }

  // ---- Keys ----

  function PlaceImsi(hs: Hashes, c: Ctx): Place { if c.imsi == "" then Nowhere else Bucket(hs.str(c.imsi)) }
  function PlaceNum(hs: Hashes, k: Tmsi): Place { if ValidKey(k) then Bucket(hs.num(k)) else Nowhere }

  /** An old P-TMSI is entered whenever it is not zero. */
  function PlaceOld(hs: Hashes, k: Tmsi): Place { if k == 0 then Nowhere else Bucket(hs.num(k)) }

  function Wanted(ctxs: map<nat, Ctx>, place: Ctx -> Place): map<nat, nat> {
    map id | id in ctxs && place(ctxs[id]).Bucket? :: place(ctxs[id]).b
  }

  lemma WantedPut(ctxs: map<nat, Ctx>, place: Ctx -> Place, id: nat, c: Ctx)
    ensures Wanted(ctxs[id := c], place) == if place(c).Bucket? then Wanted(ctxs, place)[id := place(c).b] else Wanted(ctxs, place) - {id}
  {
  }

  lemma WantedDrop(ctxs: map<nat, Ctx>, place: Ctx -> Place, id: nat)
    ensures Wanted(ctxs - {id}, place) == Wanted(ctxs, place) - {id}
  {
  }

  /** Every table agrees with the keys of the listed contexts, and every context is listed. */
  ghost predicate RegOk(r: Reg, hs: Hashes) {
    && (forall id :: id in r.list <==> id in r.ctxs) && (forall id <- r.ctxs :: id < r.next)
    && Indexes(r.byImsi, Wanted(r.ctxs, c => PlaceImsi(hs, c)))
    && Indexes(r.byPtmsi, Wanted(r.ctxs, (c: Ctx) => PlaceNum(hs, c.ptmsi)))
    && Indexes(r.byPtmsiOld, Wanted(r.ctxs, (c: Ctx) => PlaceOld(hs, c.ptmsiOld)))
    && Indexes(r.byTlli, Wanted(r.ctxs, (c: Ctx) => PlaceNum(hs, c.tlli)))
    && Indexes(r.byTlliNew, Wanted(r.ctxs, (c: Ctx) => PlaceNum(hs, c.tlliNew)))
  }

  lemma WantedSame(ctxs: map<nat, Ctx>, place: Ctx -> Place, id: nat, c: Ctx)
    requires id in ctxs && place(c) == place(ctxs[id])
    ensures Wanted(ctxs[id := c], place) == Wanted(ctxs, place)
  {
  }

  // ---- Changes ----

  /** sgsn_mm_ctx_rehash_imsi after the IMSI was written. */
  function PutImsi(r: Reg, hs: Hashes, id: nat, imsi: string): Reg
    requires id in r.ctxs
  {
    var c := r.ctxs[id].(imsi := imsi);
    r.(ctxs := r.ctxs[id := c], byImsi := Rehash(r.byImsi, id, PlaceImsi(hs, c)))
  }

  /** sgsn_mm_ctx_rehash_ptmsi after the P-TMSIs were written. */
  function PutPtmsi(r: Reg, hs: Hashes, id: nat, ptmsi: Tmsi, ptmsiOld: Tmsi): Reg
    requires id in r.ctxs
  {
    r.(ctxs := r.ctxs[id := r.ctxs[id].(ptmsi := ptmsi, ptmsiOld := ptmsiOld)],
       byPtmsi := Rehash(r.byPtmsi, id, PlaceNum(hs, ptmsi)), byPtmsiOld := Rehash(r.byPtmsiOld, id, PlaceOld(hs, ptmsiOld)))
  }

  /** sgsn_mm_ctx_rehash_tlli after the TLLIs, and perhaps the routing area, were written. */
  function PutTlli(r: Reg, hs: Hashes, id: nat, tlli: Tmsi, tlliNew: Tmsi, ra: int): Reg
    requires id in r.ctxs
  {
    r.(ctxs := r.ctxs[id := r.ctxs[id].(tlli := tlli, tlliNew := tlliNew, ra := ra)],
       byTlli := Rehash(r.byTlli, id, PlaceNum(hs, tlli)), byTlliNew := Rehash(r.byTlliNew, id, PlaceNum(hs, tlliNew)))
  }

  /** A new context at the head of the list, without IMSI and P-TMSI. */
  function Alloc(r: Reg, hs: Hashes, tlli: Tmsi, ra: int): Reg {
    var id := r.next;
    r.(ctxs := r.ctxs[id := Ctx("", 0, 0, tlli, 0, ra)], list := [id] + r.list, next := id + 1,
       byTlli := Rehash(r.byTlli, id, PlaceNum(hs, tlli)), byTlliNew := HashDel(r.byTlliNew, id))
  }

  /** sgsn_mm_ctx_unlink, and the end of the context. */
  function Remove(r: Reg, id: nat): Reg {
    Reg(r.ctxs - {id}, Without(r.list, id), HashDel(r.byImsi, id), HashDel(r.byPtmsi, id), HashDel(r.byPtmsiOld, id),
        HashDel(r.byTlli, id), HashDel(r.byTlliNew, id), r.next)
  }

  lemma PutImsiOk(r: Reg, hs: Hashes, id: nat, imsi: string)
    requires RegOk(r, hs) && id in r.ctxs
    ensures RegOk(PutImsi(r, hs, id, imsi), hs)
  {
    var c := r.ctxs[id].(imsi := imsi);
    hide Indexes, Rehash, Wanted;
    RehashOk(r.byImsi, Wanted(r.ctxs, c => PlaceImsi(hs, c)), id, PlaceImsi(hs, c));
    WantedPut(r.ctxs, c => PlaceImsi(hs, c), id, c);
    WantedSame(r.ctxs, (c: Ctx) => PlaceNum(hs, c.ptmsi), id, c);
    WantedSame(r.ctxs, (c: Ctx) => PlaceOld(hs, c.ptmsiOld), id, c);
    WantedSame(r.ctxs, (c: Ctx) => PlaceNum(hs, c.tlli), id, c);
    WantedSame(r.ctxs, (c: Ctx) => PlaceNum(hs, c.tlliNew), id, c);
  }

  lemma PutPtmsiOk(r: Reg, hs: Hashes, id: nat, ptmsi: Tmsi, ptmsiOld: Tmsi)
    requires RegOk(r, hs) && id in r.ctxs
    ensures RegOk(PutPtmsi(r, hs, id, ptmsi, ptmsiOld), hs)
  {
    var c := r.ctxs[id].(ptmsi := ptmsi, ptmsiOld := ptmsiOld);
    hide Indexes, Rehash, Wanted;
    RehashOk(r.byPtmsi, Wanted(r.ctxs, (c: Ctx) => PlaceNum(hs, c.ptmsi)), id, PlaceNum(hs, ptmsi));
    RehashOk(r.byPtmsiOld, Wanted(r.ctxs, (c: Ctx) => PlaceOld(hs, c.ptmsiOld)), id, PlaceOld(hs, ptmsiOld));
    WantedPut(r.ctxs, (c: Ctx) => PlaceNum(hs, c.ptmsi), id, c);
    WantedPut(r.ctxs, (c: Ctx) => PlaceOld(hs, c.ptmsiOld), id, c);
    WantedSame(r.ctxs, c => PlaceImsi(hs, c), id, c);
    WantedSame(r.ctxs, (c: Ctx) => PlaceNum(hs, c.tlli), id, c);
    WantedSame(r.ctxs, (c: Ctx) => PlaceNum(hs, c.tlliNew), id, c);
  }

  lemma PutTlliOk(r: Reg, hs: Hashes, id: nat, tlli: Tmsi, tlliNew: Tmsi, ra: int)
    requires RegOk(r, hs) && id in r.ctxs
    ensures RegOk(PutTlli(r, hs, id, tlli, tlliNew, ra), hs)
  {
    var c := r.ctxs[id].(tlli := tlli, tlliNew := tlliNew, ra := ra);
    hide Indexes, Rehash, Wanted;
    RehashOk(r.byTlli, Wanted(r.ctxs, (c: Ctx) => PlaceNum(hs, c.tlli)), id, PlaceNum(hs, tlli));
    RehashOk(r.byTlliNew, Wanted(r.ctxs, (c: Ctx) => PlaceNum(hs, c.tlliNew)), id, PlaceNum(hs, tlliNew));
    WantedPut(r.ctxs, (c: Ctx) => PlaceNum(hs, c.tlli), id, c);
    WantedPut(r.ctxs, (c: Ctx) => PlaceNum(hs, c.tlliNew), id, c);
    WantedSame(r.ctxs, c => PlaceImsi(hs, c), id, c);
    WantedSame(r.ctxs, (c: Ctx) => PlaceNum(hs, c.ptmsi), id, c);
    WantedSame(r.ctxs, (c: Ctx) => PlaceOld(hs, c.ptmsiOld), id, c);
  }

  lemma NotWanted(ctxs: map<nat, Ctx>, place: Ctx -> Place, id: nat, c: Ctx)
    requires id !in ctxs && place(c).Nowhere?
    ensures Wanted(ctxs[id := c], place) == Wanted(ctxs, place)
  {
  }

  lemma AllocOk(r: Reg, hs: Hashes, tlli: Tmsi, ra: int)
    requires RegOk(r, hs)
    ensures RegOk(Alloc(r, hs, tlli, ra), hs) && r.next !in r.ctxs
  {
    var id, c := r.next, Ctx("", 0, 0, tlli, 0, ra);
    hide Indexes, HashDel, HashAdd, Wanted;
    RehashOk(r.byTlli, Wanted(r.ctxs, (c: Ctx) => PlaceNum(hs, c.tlli)), id, PlaceNum(hs, tlli));
    RehashOk(r.byTlliNew, Wanted(r.ctxs, (c: Ctx) => PlaceNum(hs, c.tlliNew)), id, Nowhere);
    WantedPut(r.ctxs, (c: Ctx) => PlaceNum(hs, c.tlli), id, c);
    WantedPut(r.ctxs, (c: Ctx) => PlaceNum(hs, c.tlliNew), id, c);
    NotWanted(r.ctxs, c => PlaceImsi(hs, c), id, c);
    NotWanted(r.ctxs, (c: Ctx) => PlaceNum(hs, c.ptmsi), id, c);
    NotWanted(r.ctxs, (c: Ctx) => PlaceOld(hs, c.ptmsiOld), id, c);
  }

  lemma RemoveOk(r: Reg, hs: Hashes, id: nat)
    requires RegOk(r, hs)
    ensures RegOk(Remove(r, id), hs)
  {
    hide Indexes, HashDel, Wanted;
    RehashOk(r.byImsi, Wanted(r.ctxs, c => PlaceImsi(hs, c)), id, Nowhere);
    RehashOk(r.byPtmsi, Wanted(r.ctxs, (c: Ctx) => PlaceNum(hs, c.ptmsi)), id, Nowhere);
    RehashOk(r.byPtmsiOld, Wanted(r.ctxs, (c: Ctx) => PlaceOld(hs, c.ptmsiOld)), id, Nowhere);
    RehashOk(r.byTlli, Wanted(r.ctxs, (c: Ctx) => PlaceNum(hs, c.tlli)), id, Nowhere);
    RehashOk(r.byTlliNew, Wanted(r.ctxs, (c: Ctx) => PlaceNum(hs, c.tlliNew)), id, Nowhere);
    WantedDrop(r.ctxs, c => PlaceImsi(hs, c), id);
    WantedDrop(r.ctxs, (c: Ctx) => PlaceNum(hs, c.ptmsi), id);
    WantedDrop(r.ctxs, (c: Ctx) => PlaceOld(hs, c.ptmsiOld), id);
    WantedDrop(r.ctxs, (c: Ctx) => PlaceNum(hs, c.tlli), id);
    WantedDrop(r.ctxs, (c: Ctx) => PlaceNum(hs, c.tlliNew), id);
  }

  // ---- Lookups ----

  datatype Option<T> = None | Some(value: T)

  /** The first context of a chain that meets a condition. */
  function First(ids: seq<nat>, ctxs: map<nat, Ctx>, ok: Ctx -> bool): (r: Option<nat>)
    ensures r.Some? ==> r.value in ids && r.value in ctxs && ok(ctxs[r.value])
    ensures r.None? ==> forall id <- ids :: id in ctxs ==> !ok(ctxs[id])
  {
    if ids == [] then None else if ids[0] in ctxs && ok(ctxs[ids[0]]) then Some(ids[0]) else First(ids[1..], ctxs, ok)
  }

  function Or(a: Option<nat>, b: Option<nat>): Option<nat> { if a.Some? then a else b }

  /** sgsn_mm_ctx_by_imsi. */
  function ByImsi(r: Reg, hs: Hashes, imsi: string): Option<nat> {
    if imsi == "" then None else First(Chain(r.byImsi, hs.str(imsi)), r.ctxs, (c: Ctx) => c.imsi == imsi)
  }

  /** sgsn_mm_ctx_by_ptmsi: current P-TMSIs first. */
  function ByPtmsi(r: Reg, hs: Hashes, k: Tmsi): Option<nat> {
    Or(First(Chain(r.byPtmsi, hs.num(k)), r.ctxs, (c: Ctx) => c.ptmsi == k),
       First(Chain(r.byPtmsiOld, hs.num(k)), r.ctxs, (c: Ctx) => c.ptmsiOld != 0 && c.ptmsiOld == k))
  }

  predicate TlliMatches(c: Ctx, k: Tmsi, ra: int) { c.ra == ra && (c.tlli == k || c.tlliNew == k) }

  /** sgsn_mm_ctx_by_tlli: either chain, either TLLI. */
  function ByTlli(r: Reg, hs: Hashes, k: Tmsi, ra: int): Option<nat> {
    Or(First(Chain(r.byTlli, hs.num(k)), r.ctxs, (c: Ctx) => TlliMatches(c, k, ra)),
       First(Chain(r.byTlliNew, hs.num(k)), r.ctxs, (c: Ctx) => TlliMatches(c, k, ra)))
  }

  /** What a scan of the whole list would look for. */
  ghost predicate SomeListed(r: Reg, ok: Ctx -> bool) { exists id :: id in r.list && id in r.ctxs && ok(r.ctxs[id]) }

  lemma Chained(r: Reg, idx: Index, want: map<nat, nat>, id: nat)
    requires Indexes(idx, want) && id in want
    ensures id in Chain(idx, want[id])
  {
  }

  lemma ByImsiExact(r: Reg, hs: Hashes, imsi: string)
    requires RegOk(r, hs) && imsi != ""
    ensures ByImsi(r, hs, imsi).Some? <==> SomeListed(r, (c: Ctx) => c.imsi == imsi)
    ensures ByImsi(r, hs, imsi).Some? ==> r.ctxs[ByImsi(r, hs, imsi).value].imsi == imsi
  {
    var want := Wanted(r.ctxs, c => PlaceImsi(hs, c));
    hide Indexes;
    forall id | id in r.ctxs && r.ctxs[id].imsi == imsi ensures id in Chain(r.byImsi, hs.str(imsi)) {
      assert id in want && want[id] == hs.str(imsi);
      Chained(r, r.byImsi, want, id);
    }
  }

  /** For every key: a lookup finds a context exactly if some listed context has the key as its
      P-TMSI, or as its old P-TMSI. Zero is never found, the reserved value only as an old P-TMSI. */
  lemma ByPtmsiExact(r: Reg, hs: Hashes, k: Tmsi)
    requires RegOk(r, hs)
    ensures ByPtmsi(r, hs, k).Some? <==>
      SomeListed(r, (c: Ctx) => (ValidKey(k) && c.ptmsi == k) || (k != 0 && c.ptmsiOld == k))
  {
    var cur := Wanted(r.ctxs, (c: Ctx) => PlaceNum(hs, c.ptmsi));
    var old_ := Wanted(r.ctxs, (c: Ctx) => PlaceOld(hs, c.ptmsiOld));
    var scan := (c: Ctx) => (ValidKey(k) && c.ptmsi == k) || (k != 0 && c.ptmsiOld == k);
    forall id | id in r.ctxs && scan(r.ctxs[id])
      ensures (ValidKey(k) && r.ctxs[id].ptmsi == k && id in Chain(r.byPtmsi, hs.num(k)))
           || (k != 0 && r.ctxs[id].ptmsiOld == k && id in Chain(r.byPtmsiOld, hs.num(k)))
    {
      if ValidKey(k) && r.ctxs[id].ptmsi == k { assert id in cur && cur[id] == hs.num(k); }
      else { assert id in old_ && old_[id] == hs.num(k); }
    }
    var found := ByPtmsi(r, hs, k);
    if found.Some? {
      var id := found.value;
      assert id in Chain(r.byPtmsi, hs.num(k)) ==> id in cur;
      assert scan(r.ctxs[id]);
    }
  }

  /** For a valid key the lookup by TLLI and routing area finds a context exactly if a scan of the list
      would. */
  lemma ByTlliExact(r: Reg, hs: Hashes, k: Tmsi, ra: int)
    requires RegOk(r, hs) && ValidKey(k)
    ensures ByTlli(r, hs, k, ra).Some? <==> SomeListed(r, (c: Ctx) => TlliMatches(c, k, ra))
    ensures ByTlli(r, hs, k, ra).Some? ==> TlliMatches(r.ctxs[ByTlli(r, hs, k, ra).value], k, ra)
  {
    var cur := Wanted(r.ctxs, (c: Ctx) => PlaceNum(hs, c.tlli));
    var new_ := Wanted(r.ctxs, (c: Ctx) => PlaceNum(hs, c.tlliNew));
    forall id | id in r.ctxs && TlliMatches(r.ctxs[id], k, ra)
      ensures id in Chain(r.byTlli, hs.num(k)) || id in Chain(r.byTlliNew, hs.num(k))
    {
      if r.ctxs[id].tlli == k { assert id in cur && cur[id] == hs.num(k); }
      else { assert id in new_ && new_[id] == hs.num(k); }
    }
  }

  function Empty(): Reg { Reg(map[], [], map[], map[], map[], map[], map[], 0) }

  /** The lookup by TLLI agrees with a scan of the list in every registry exactly for the valid keys:
      contexts without a TLLI are not entered in the tables. */
  lemma ValidKeysNeeded(hs: Hashes, k: Tmsi)
    ensures ValidKey(k) <==>
      forall r: Reg, ra: int | RegOk(r, hs) :: ByTlli(r, hs, k, ra).Some? <==> SomeListed(r, (c: Ctx) => TlliMatches(c, k, ra))
  {
    if ValidKey(k) {
      forall r: Reg, ra: int | RegOk(r, hs)
        ensures ByTlli(r, hs, k, ra).Some? <==> SomeListed(r, (c: Ctx) => TlliMatches(c, k, ra))
      {
        ByTlliExact(r, hs, k, ra);
      }
    } else {
      var r := Alloc(Empty(), hs, k, 0);
      AllocOk(Empty(), hs, k, 0);
      assert 0 in r.list && TlliMatches(r.ctxs[0], k, 0);
      assert SomeListed(r, (c: Ctx) => TlliMatches(c, k, 0));
      assert ByTlli(r, hs, k, 0).None?;
    }
  }

  // ---- Allocating P-TMSIs ----

  const SGSN_MASK: Tmsi := 0xc0000000
  const MAX_RETRIES := 100

  /** A random number with its two top bits set. */
  function Candidate(x: Tmsi): Tmsi { SGSN_MASK + x % 0x40000000 }

  predicate Taken(r: Reg, p: Tmsi) { exists id <- r.ctxs :: r.ctxs[id].ptmsi == p || r.ctxs[id].ptmsiOld == p }

  /** A draw that can be used: it is small enough to keep its distance, and no context has the
      number. */
  predicate Usable(r: Reg, x: Tmsi) { x < SGSN_MASK && Candidate(x) != RESERVED && !Taken(r, Candidate(x)) }

  /** The numbers the random source gives; it can fail. */
  datatype Random = Number(x: Tmsi) | Failure

  /** The number that comes of the draws from the `k`-th on, with the retries left. */
  function Allocated(r: Reg, rand: nat -> Random, k: nat): Tmsi
    decreases MAX_RETRIES + 1 - k
  {
    if k > MAX_RETRIES || rand(k).Failure? then RESERVED
    else if Usable(r, rand(k).x) then Candidate(rand(k).x)
    else Allocated(r, rand, k + 1)
  }

  /** The allocated number is reserved, or it has its two top bits set and no context has it. */
  lemma {:induction false} AllocatedFresh(r: Reg, rand: nat -> Random, k: nat)
    ensures var p := Allocated(r, rand, k); p == RESERVED || (p >= SGSN_MASK && ValidKey(p) && !Taken(r, p))
    decreases MAX_RETRIES + 1 - k
  {
    hide Taken;
    if k <= MAX_RETRIES && rand(k).Number? && !Usable(r, rand(k).x) { AllocatedFresh(r, rand, k + 1); }
  }

  /** The source has given numbers from the `k`-th draw to the `n`-th. */
  predicate Given(rand: nat -> Random, k: nat, n: nat)
    decreases n - k
  {
    rand(k).Number? && (k < n ==> Given(rand, k + 1, n))
  }

  /** It is the reserved number exactly if no draw, of the first 101 and before a failure, can be
      used. */
  lemma {:induction false} AllocatedFails(r: Reg, rand: nat -> Random, k: nat)
    requires k <= MAX_RETRIES
    ensures Allocated(r, rand, k) == RESERVED <==>
      forall n | k <= n <= MAX_RETRIES && Given(rand, k, n) :: rand(n).Number? && !Usable(r, rand(n).x)
    decreases MAX_RETRIES - k
  {
    if rand(k).Number? {
      if Usable(r, rand(k).x) {
        UsableNotReserved(r, rand(k).x);
        assert Given(rand, k, k);
      } else if k < MAX_RETRIES {
        hide Usable;
        AllocatedFails(r, rand, k + 1);
        forall n | k < n <= MAX_RETRIES ensures Given(rand, k, n) == Given(rand, k + 1, n) { }
      }
    }
  }

  lemma UsableNotReserved(r: Reg, x: Tmsi)
    requires Usable(r, x)
    ensures Candidate(x) != RESERVED
  {
  }

  // ---- Distinct P-TMSIs ----

  /** The P-TMSIs a subscriber may use: the current and the old one. */
  function Names(c: Ctx): set<Tmsi> { set k | k in {c.ptmsi, c.ptmsiOld} && ValidKey(k) }

  /** No P-TMSI names two contexts. */
  ghost predicate NamesDisjoint(r: Reg) {
    forall x, y | x in r.ctxs && y in r.ctxs && x != y :: Names(r.ctxs[x]) !! Names(r.ctxs[y])
  }

  ghost predicate Good(r: Reg, hs: Hashes) { RegOk(r, hs) && NamesDisjoint(r) }

  lemma TakenExact(r: Reg, hs: Hashes, k: Tmsi)
    requires RegOk(r, hs) && ValidKey(k)
    ensures ByPtmsi(r, hs, k).Some? <==> Taken(r, k)
  {
    hide Indexes;
    ByPtmsiExact(r, hs, k);
    var scan := (c: Ctx) => (ValidKey(k) && c.ptmsi == k) || (k != 0 && c.ptmsiOld == k);
    if Taken(r, k) {
      var id :| id in r.ctxs && (r.ctxs[id].ptmsi == k || r.ctxs[id].ptmsiOld == k);
      assert id in r.list && scan(r.ctxs[id]);
    }
  }

  // ---- The writers ----

  /** Completion of attach, routing area update or P-TMSI reallocation: the old P-TMSI goes, and on Gb
      the new TLLI is the only one. */
  function Complete(r: Reg, hs: Hashes, id: nat, gb: bool): Reg
    requires id in r.ctxs
  {
    var s := PutPtmsi(r, hs, id, r.ctxs[id].ptmsi, 0);
    if gb then PutTlli(s, hs, id, s.ctxs[id].tlliNew, s.ctxs[id].tlliNew, s.ctxs[id].ra) else s
  }

  /** ptmsi_update with the number the allocation gave, and the TLLI derived from it. */
  function PtmsiUpdate(r: Reg, hs: Hashes, id: nat, underWay: bool, unused: Tmsi): Reg
    requires id in r.ctxs
  {
    if underWay || unused == RESERVED then r else PutPtmsi(r, hs, id, unused, r.ctxs[id].ptmsi)
  }

  /** The routing area is in no table. */
  function PutRa(r: Reg, id: nat, ra: int): Reg
    requires id in r.ctxs
  {
    r.(ctxs := r.ctxs[id := r.ctxs[id].(ra := ra)])
  }

  /** A message on Gb brings the TLLI it came with and the routing area; on Iu an attach request brings the routing area,
      an update nothing. */
  function Arrives(r: Reg, hs: Hashes, id: nat, attach: bool, gb: bool, tlli: Tmsi, ra: int): Reg
    requires id in r.ctxs
  {
    if gb then PutTlli(r, hs, id, tlli, r.ctxs[id].tlliNew, ra) else if attach then PutRa(r, id, ra) else r
  }

  function NewTlli(r: Reg, hs: Hashes, id: nat, gb: bool, local: Tmsi -> Tmsi): Reg
    requires id in r.ctxs
  {
    if gb then PutTlli(r, hs, id, r.ctxs[id].tlli, local(r.ctxs[id].ptmsi), r.ctxs[id].ra) else r
  }

  datatype Identity = Imsi(imsi: string) | PTmsi(ptmsi: Tmsi)

  /** The context of an attach request: the one already known, else one found by the identity, else a
      new one that gets the identity. On Iu a new context has no TLLI. */
  function AttachContext(r: Reg, hs: Hashes, known: Option<nat>, mi: Identity, gb: bool, tlli: Tmsi, ra: int): (Reg, nat) {
    if known.Some? then (r, known.value)
    else match mi
      case Imsi(imsi) =>
        var found := ByImsi(r, hs, imsi);
        if found.Some? then (r, found.value) else (PutImsi(Alloc(r, hs, 0, ra), hs, r.next, imsi), r.next)
      case PTmsi(p) =>
        var found := ByPtmsi(r, hs, p);
        if found.Some? then (r, found.value) else (PutPtmsi(Alloc(r, hs, if gb then tlli else 0, ra), hs, r.next, p, 0), r.next)
  }

  /** What a handler does to the registry. Attach and update carry the number that was allocated in the
      middle, or nothing when one was under way. */
  datatype Event =
    | Attach(known: Option<nat>, mi: Identity, gb: bool, tlli: Tmsi, ra: int, rand: nat -> Random, underWay: bool)
    | AreaUpdate(id: nat, gb: bool, tlli: Tmsi, ra: int, rand: nat -> Random, underWay: bool)
    | Completion(id: nat, gb: bool)
    | IdentityResponse(id: nat, imsi: string)
    | Cleanup(id: nat)

  /** Attach and routing area update from the point where the context is known. */
  function Renew(r: Reg, hs: Hashes, id: nat, attach: bool, gb: bool, tlli: Tmsi, ra: int, rand: nat -> Random, underWay: bool,
                 local: Tmsi -> Tmsi): Reg
    requires id in r.ctxs
  {
    var a := Arrives(r, hs, id, attach, gb, tlli, ra);
    var b := PtmsiUpdate(a, hs, id, underWay, Allocated(a, rand, 0));
    NewTlli(b, hs, id, gb, local)
  }

  /** An identity response deletes another context with the IMSI if this one had none. */
  function Identified(r: Reg, hs: Hashes, id: nat, imsi: string): Reg
    requires id in r.ctxs
  {
    var other := if r.ctxs[id].imsi == "" then ByImsi(r, hs, imsi) else None;
    var s := if other.Some? && other.value != id then Remove(r, other.value) else r;
    PutImsi(s, hs, id, imsi)
  }

  function Step(r: Reg, hs: Hashes, e: Event, local: Tmsi -> Tmsi): Reg {
    match e
    case Attach(known, mi, gb, tlli, ra, rand, underWay) =>
      if known.Some? && known.value !in r.ctxs then r
      else
        var (s, id) := AttachContext(r, hs, known, mi, gb, tlli, ra);
        if id in s.ctxs then Renew(s, hs, id, true, gb, tlli, ra, rand, underWay, local) else s
    case AreaUpdate(id, gb, tlli, ra, rand, underWay) =>
      if id in r.ctxs then Renew(r, hs, id, false, gb, tlli, ra, rand, underWay, local) else r
    case Completion(id, gb) => if id in r.ctxs then Complete(r, hs, id, gb) else r
    case IdentityResponse(id, imsi) => if id in r.ctxs then Identified(r, hs, id, imsi) else r
    case Cleanup(id) => Remove(r, id)
  }

  function Run(r: Reg, hs: Hashes, es: seq<Event>, local: Tmsi -> Tmsi): Reg
    decreases |es|
  {
    if es == [] then r else Step(Run(r, hs, es[..|es| - 1], local), hs, es[|es| - 1], local)
  }

  // ---- The invariants are kept ----

  /** Changing keys other than the P-TMSIs. */
  lemma NamesSame(r: Reg, s: Reg)
    requires NamesDisjoint(r) && s.ctxs.Keys == r.ctxs.Keys
    requires forall id <- r.ctxs :: Names(s.ctxs[id]) <= Names(r.ctxs[id])
    ensures NamesDisjoint(s)
  {
    hide Names;
  }

  lemma PutTlliGood(r: Reg, hs: Hashes, id: nat, tlli: Tmsi, tlliNew: Tmsi, ra: int)
    requires Good(r, hs) && id in r.ctxs
    ensures Good(PutTlli(r, hs, id, tlli, tlliNew, ra), hs)
  {
    hide RegOk;
    PutTlliOk(r, hs, id, tlli, tlliNew, ra);
    NamesSame(r, PutTlli(r, hs, id, tlli, tlliNew, ra));
  }

  lemma PutRaGood(r: Reg, hs: Hashes, id: nat, ra: int)
    requires Good(r, hs) && id in r.ctxs
    ensures Good(PutRa(r, id, ra), hs)
  {
    hide Indexes, Wanted;
    var c := r.ctxs[id].(ra := ra);
    WantedSame(r.ctxs, c => PlaceImsi(hs, c), id, c);
    WantedSame(r.ctxs, (c: Ctx) => PlaceNum(hs, c.ptmsi), id, c);
    WantedSame(r.ctxs, (c: Ctx) => PlaceOld(hs, c.ptmsiOld), id, c);
    WantedSame(r.ctxs, (c: Ctx) => PlaceNum(hs, c.tlli), id, c);
    WantedSame(r.ctxs, (c: Ctx) => PlaceNum(hs, c.tlliNew), id, c);
    NamesSame(r, PutRa(r, id, ra));
  }

  lemma PutImsiGood(r: Reg, hs: Hashes, id: nat, imsi: string)
    requires Good(r, hs) && id in r.ctxs
    ensures Good(PutImsi(r, hs, id, imsi), hs)
  {
    hide RegOk;
    PutImsiOk(r, hs, id, imsi);
    NamesSame(r, PutImsi(r, hs, id, imsi));
  }

  lemma RemoveGood(r: Reg, hs: Hashes, id: nat)
    requires Good(r, hs)
    ensures Good(Remove(r, id), hs)
  {
    hide RegOk, Names;
    RemoveOk(r, hs, id);
  }

  /** A number no context has can be given to one. */
  lemma FreshGood(r: Reg, hs: Hashes, id: nat, unused: Tmsi)
    requires Good(r, hs) && id in r.ctxs && (ValidKey(unused) ==> !Taken(r, unused))
    ensures Good(PutPtmsi(r, hs, id, unused, r.ctxs[id].ptmsi), hs)
  {
    hide RegOk;
    PutPtmsiOk(r, hs, id, unused, r.ctxs[id].ptmsi);
    var s := PutPtmsi(r, hs, id, unused, r.ctxs[id].ptmsi);
    forall x | x in r.ctxs && x != id ensures unused !in Names(r.ctxs[x]) { }
    forall x, y | x in s.ctxs && y in s.ctxs && x != y ensures Names(s.ctxs[x]) !! Names(s.ctxs[y]) {
      assert Names(s.ctxs[id]) <= Names(r.ctxs[id]) + {unused};
      assert Names(r.ctxs[x]) !! Names(r.ctxs[y]);
    }
  }

  lemma RenewGood(r: Reg, hs: Hashes, id: nat, attach: bool, gb: bool, tlli: Tmsi, ra: int, rand: nat -> Random, underWay: bool,
                  local: Tmsi -> Tmsi)
    requires Good(r, hs) && id in r.ctxs
    ensures Good(Renew(r, hs, id, attach, gb, tlli, ra, rand, underWay, local), hs)
  {
    hide Good, Taken, PutTlli, Allocated;
    PutTlliKeys(r, hs, id, tlli, r.ctxs[id].tlliNew, ra);
    PutTlliGood(r, hs, id, tlli, r.ctxs[id].tlliNew, ra);
    PutRaGood(r, hs, id, ra);
    var a := Arrives(r, hs, id, attach, gb, tlli, ra);
    AllocatedFresh(a, rand, 0);
    FreshGood(a, hs, id, Allocated(a, rand, 0));
    var b := PtmsiUpdate(a, hs, id, underWay, Allocated(a, rand, 0));
    PutTlliGood(b, hs, id, b.ctxs[id].tlli, local(b.ctxs[id].ptmsi), b.ctxs[id].ra);
  }

  lemma PutTlliKeys(r: Reg, hs: Hashes, id: nat, tlli: Tmsi, tlliNew: Tmsi, ra: int)
    requires id in r.ctxs
    ensures PutTlli(r, hs, id, tlli, tlliNew, ra).ctxs.Keys == r.ctxs.Keys
  {
  }

  lemma AllocGood(r: Reg, hs: Hashes, tlli: Tmsi, ra: int)
    requires Good(r, hs)
    ensures Good(Alloc(r, hs, tlli, ra), hs) && r.next !in r.ctxs
  {
    hide RegOk;
    AllocOk(r, hs, tlli, ra);
    assert Names(Ctx("", 0, 0, tlli, 0, ra)) == {};
  }

  /** The identity of an unknown P-TMSI: no context had it, as the lookup says. */
  lemma AttachContextGood(r: Reg, hs: Hashes, known: Option<nat>, mi: Identity, gb: bool, tlli: Tmsi, ra: int)
    requires Good(r, hs) && (known.Some? ==> known.value in r.ctxs)
    ensures var (s, id) := AttachContext(r, hs, known, mi, gb, tlli, ra); Good(s, hs) && id in s.ctxs
  {
    if known.None? {
      match mi
      case Imsi(imsi) =>
        hide Good, RegOk, PutImsi;
        AllocGood(r, hs, 0, ra);
        PutImsiGood(Alloc(r, hs, 0, ra), hs, r.next, imsi);
        PutImsiHas(Alloc(r, hs, 0, ra), hs, r.next, imsi);
      case PTmsi(p) =>
        if ByPtmsi(r, hs, p).None? {
          var own := if gb then tlli else 0;
          var a := Alloc(r, hs, own, ra);
          AllocGood(r, hs, own, ra);
          if ValidKey(p) {
            TakenExact(r, hs, p);
            assert !Taken(a, p);
          }
          hide Good, RegOk, PutPtmsi;
          FreshGood(a, hs, r.next, p);
          PutPtmsiHas(a, hs, r.next, p);
        }
    }
  }

  lemma PutImsiHas(r: Reg, hs: Hashes, id: nat, imsi: string)
    requires id in r.ctxs
    ensures id in PutImsi(r, hs, id, imsi).ctxs
  {
  }

  lemma PutPtmsiHas(r: Reg, hs: Hashes, id: nat, p: Tmsi)
    requires id in r.ctxs
    ensures id in PutPtmsi(r, hs, id, p, 0).ctxs
  {
  }

  lemma CompleteGood(r: Reg, hs: Hashes, id: nat, gb: bool)
    requires Good(r, hs) && id in r.ctxs
    ensures Good(Complete(r, hs, id, gb), hs)
  {
    var s := PutPtmsi(r, hs, id, r.ctxs[id].ptmsi, 0);
    assert Good(s, hs) by {
      hide RegOk;
      PutPtmsiOk(r, hs, id, r.ctxs[id].ptmsi, 0);
      NamesSame(r, s);
    }
    hide Good;
    PutTlliGood(s, hs, id, s.ctxs[id].tlliNew, s.ctxs[id].tlliNew, s.ctxs[id].ra);
  }

  lemma IdentifiedGood(r: Reg, hs: Hashes, id: nat, imsi: string)
    requires Good(r, hs) && id in r.ctxs
    ensures Good(Identified(r, hs, id, imsi), hs)
  {
    hide Good;
    var other := if r.ctxs[id].imsi == "" then ByImsi(r, hs, imsi) else None;
    if other.Some? && other.value != id {
      RemoveGood(r, hs, other.value);
      PutImsiGood(Remove(r, other.value), hs, id, imsi);
    } else {
      PutImsiGood(r, hs, id, imsi);
    }
  }

  lemma StepGood(r: Reg, hs: Hashes, e: Event, local: Tmsi -> Tmsi)
    requires Good(r, hs)
    ensures Good(Step(r, hs, e, local), hs)
  {
    hide Good, Renew, AttachContext, Complete, Identified, Remove;
    match e
    case Attach(known, mi, gb, tlli, ra, rand, underWay) =>
      if known.None? || known.value in r.ctxs {
        AttachContextGood(r, hs, known, mi, gb, tlli, ra);
        var (s, id) := AttachContext(r, hs, known, mi, gb, tlli, ra);
        RenewGood(s, hs, id, true, gb, tlli, ra, rand, underWay, local);
      }
    case AreaUpdate(id, gb, tlli, ra, rand, underWay) =>
      if id in r.ctxs { RenewGood(r, hs, id, false, gb, tlli, ra, rand, underWay, local); }
    case Completion(id, gb) => if id in r.ctxs { CompleteGood(r, hs, id, gb); }
    case IdentityResponse(id, imsi) => if id in r.ctxs { IdentifiedGood(r, hs, id, imsi); }
    case Cleanup(id) => RemoveGood(r, hs, id);
  }

  /** After every run of attaches, updates, completions, identity responses and clean-ups, the tables
      agree with the list, and the current and old P-TMSIs of two contexts are disjoint. */
  lemma {:induction false} EveryRun(hs: Hashes, es: seq<Event>, local: Tmsi -> Tmsi)
    ensures Good(Run(Empty(), hs, es, local), hs)
    decreases |es|
  {
    hide Good, Step;
    if es == [] {
      EmptyGood(hs);
    } else {
      EveryRun(hs, es[..|es| - 1], local);
      StepGood(Run(Empty(), hs, es[..|es| - 1], local), hs, es[|es| - 1], local);
    }
  }

  lemma EmptyGood(hs: Hashes)
    ensures Good(Empty(), hs)
  {
  }

  // ---- The code ----

  class MmTables {
    const hs: Hashes
    var reg: Reg

    constructor (hs: Hashes)
      ensures this.hs == hs && reg == Empty() && Good(reg, hs)
    {
      this.hs, reg := hs, Empty();
      new;
      EmptyGood(hs);
    }

    method ByImsiKey(imsi: string) returns (found: Option<nat>)
      ensures found == ByImsi(reg, hs, imsi)
    {
      if |imsi| == 0 { return None; }
      var chain := Chain(reg.byImsi, hs.str(imsi));
      var i := 0;
      assert chain[0..] == chain;
      while i < |chain|
        invariant 0 <= i <= |chain|
        invariant ByImsi(reg, hs, imsi) == First(chain[i..], reg.ctxs, (c: Ctx) => c.imsi == imsi)
      {
        assert chain[i..][1..] == chain[i + 1..];
        if chain[i] in reg.ctxs && reg.ctxs[chain[i]].imsi == imsi { return Some(chain[i]); }
        i := i + 1;
      }
      found := None;
    }

    /** Two passes, over the current and over the old P-TMSIs. */
    method ByPtmsiKey(k: Tmsi) returns (found: Option<nat>)
      ensures found == ByPtmsi(reg, hs, k)
    {
      var chain := Chain(reg.byPtmsi, hs.num(k));
      var i := 0;
      assert chain[0..] == chain;
      while i < |chain|
        invariant 0 <= i <= |chain|
        invariant First(chain, reg.ctxs, (c: Ctx) => c.ptmsi == k) == First(chain[i..], reg.ctxs, (c: Ctx) => c.ptmsi == k)
      {
        assert chain[i..][1..] == chain[i + 1..];
        if chain[i] in reg.ctxs && reg.ctxs[chain[i]].ptmsi == k { return Some(chain[i]); }
        i := i + 1;
      }
      chain := Chain(reg.byPtmsiOld, hs.num(k));
      i := 0;
      assert chain[0..] == chain;
      while i < |chain|
        invariant 0 <= i <= |chain|
        invariant First(chain, reg.ctxs, (c: Ctx) => c.ptmsiOld != 0 && c.ptmsiOld == k)
               == First(chain[i..], reg.ctxs, (c: Ctx) => c.ptmsiOld != 0 && c.ptmsiOld == k)
      {
        assert chain[i..][1..] == chain[i + 1..];
        if chain[i] in reg.ctxs && reg.ctxs[chain[i]].ptmsiOld != 0 && reg.ctxs[chain[i]].ptmsiOld == k { return Some(chain[i]); }
        i := i + 1;
      }
      found := None;
    }

    /** Draws until a number can be used, a hundred retries at most; the lookup tells whether a number is
        taken. */
    method AllocPtmsi(rand: nat -> Random) returns (ptmsi: Tmsi)
      requires RegOk(reg, hs)
      ensures ptmsi == Allocated(reg, rand, 0)
    {
      hide RegOk;
      var maxRetries := MAX_RETRIES;
      var k := 0;
      while true
        invariant 0 <= maxRetries && k + maxRetries == MAX_RETRIES
        invariant Allocated(reg, rand, 0) == Allocated(reg, rand, k)
        decreases maxRetries
      {
        var drawn := rand(k);
        if drawn.Failure? { return RESERVED; }
        if drawn.x < SGSN_MASK {
          var p := Candidate(drawn.x);
          if p != RESERVED {
            TakenExact(reg, hs, p);
            var holder := ByPtmsiKey(p);
            if holder.None? { return p; }
          }
        }
        if maxRetries == 0 { return RESERVED; }
        maxRetries, k := maxRetries - 1, k + 1;
      }
    }

    method PtmsiUpdateOf(id: nat, underWay: bool, rand: nat -> Random)
      requires Good(reg, hs) && id in reg.ctxs
      modifies this
      ensures Good(reg, hs) && reg == PtmsiUpdate(old(reg), hs, id, underWay, Allocated(old(reg), rand, 0))
    {
      if !underWay {
        hide RegOk, NamesDisjoint, Names, Taken;
        var ptmsi := AllocPtmsi(rand);
        AllocatedFresh(reg, rand, 0);
        if ptmsi != RESERVED {
          FreshGood(reg, hs, id, ptmsi);
          reg := PutPtmsi(reg, hs, id, ptmsi, reg.ctxs[id].ptmsi);
        }
      }
    }

    /** llist_del on the list of contexts. */
    method ListDel(id: nat)
      modifies this
      ensures reg == old(reg).(list := Without(old(reg.list), id))
    {
      var kept := [];
      var i := 0;
      while i < |reg.list|
        invariant 0 <= i <= |reg.list| && reg == old(reg)
        invariant Without(reg.list, id) == kept + Without(reg.list[i..], id)
      {
        assert reg.list[i..][1..] == reg.list[i + 1..];
        if reg.list[i] != id { kept := kept + [reg.list[i]]; }
        i := i + 1;
      }
      reg := reg.(list := kept);
    }

    /** sgsn_mm_ctx_cleanup_free: unlinked from the five tables and from the list first, so that no lookup finds the
        context any more; the others stay as they were. */
    method CleanupFree(id: nat)
      requires Good(reg, hs)
      modifies this
      ensures Good(reg, hs) && reg == Remove(old(reg), id)
      ensures id !in reg.list && reg.ctxs == old(reg.ctxs) - {id}
      ensures forall imsi :: ByImsi(reg, hs, imsi) != Some(id)
      ensures forall k :: ByPtmsi(reg, hs, k) != Some(id)
      ensures forall k, ra :: ByTlli(reg, hs, k, ra) != Some(id)
    {
      RemoveGood(reg, hs, id);
      hide Good, HashDel, RegOk;
      reg := reg.(byImsi := HashDel(reg.byImsi, id));
      reg := reg.(byPtmsi := HashDel(reg.byPtmsi, id));
      reg := reg.(byPtmsiOld := HashDel(reg.byPtmsiOld, id));
      reg := reg.(byTlli := HashDel(reg.byTlli, id));
      reg := reg.(byTlliNew := HashDel(reg.byTlliNew, id));
      ListDel(id);
      reg := reg.(ctxs := reg.ctxs - {id});
    }
  }
}
