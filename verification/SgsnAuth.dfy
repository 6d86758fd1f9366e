/** Authentication data of a subscriber and the decisions taken on it (src/sgsn/sgsn_auth.c, and check_auth_resp of
    src/sgsn/gprs_gmm.c). */
module SgsnAuth {
  import opened Octet

  // ---- Vectors and responses ----

  datatype SecCtx = NoSec | Gsm | Umts

  type Sres = o: Octets | |o| == 4 witness [0, 0, 0, 0]
  type Res = o: Octets | |o| <= 16

  /** An authentication vector: which of the two kinds of authentication it can check, and the expected answers. */
  datatype Vector = Vector(gsm: bool, umts: bool, rand: Octets, sres: Sres, res: Res)

  /** check_auth_resp. */
  function CheckAuthResp(isUtran: bool, r99: bool, v: Vector, res: Octets): SecCtx {
    if isUtran || (r99 && v.umts && |res| > |v.sres|) then
      if v.umts && res == v.res then Umts else NoSec
    else
      if v.gsm && res == v.sres then Gsm else NoSec
  }

  /** The response octets: the four of the SRES element, then at most twelve of the extension element. */
  function ResponseOctets(sres: Octets, ext: Octets): Octets { sres + ext[..Min(|ext|, 12)] }

  /** The answers that a handset may give to a vector. */
  predicate Expected(r99: bool, v: Vector, res: Octets) {
    || (v.gsm && res == v.sres)
    || (v.umts && r99 && |res| > 4 && res == v.res)
  }

  /** The sole caller passes false for UTRAN. Exactly the expected answers authenticate, each as its own kind: a
      response of four octets never counts as a UMTS response, even where the vector expects one of that length. */
  lemma AuthRespExact(r99: bool, v: Vector, res: Octets)
    ensures CheckAuthResp(false, r99, v, res) != NoSec <==> Expected(r99, v, res)
    ensures CheckAuthResp(false, r99, v, res) == Umts <==> v.umts && r99 && |res| > 4 && res == v.res
    ensures |res| == 4 ==> CheckAuthResp(false, r99, v, res) != Umts
  {
    if v.gsm && res == v.sres { assert |res| == 4; }
  }

  /** The response element cannot make a long answer out of a wrong short one: with an expected answer of up to
      sixteen octets, only its own octets authenticate. */
  lemma ExtensionExact(v: Vector, sres: Octets, ext: Octets)
    requires |sres| == 4 && |ext| > 0
    ensures CheckAuthResp(false, true, v, ResponseOctets(sres, ext)) != NoSec
        <==> v.umts && |v.res| > 4 && sres == v.res[..4] && ext[..Min(|ext|, 12)] == v.res[4..]
  {
    var r, tail := ResponseOctets(sres, ext), ext[..Min(|ext|, 12)];
    AuthRespExact(true, v, r);
    assert |tail| > 0 && r[..4] == sres && r[4..] == tail;
    if |v.res| > 4 && sres == v.res[..4] && tail == v.res[4..] { assert r == v.res[..4] + v.res[4..] == v.res; }
  }

  // ---- Stored tuples ----

  const INVAL := 7
  const SLOTS := 5

  datatype Tuple = Tuple(keySeq: nat, vec: Vector, useCount: nat)

  const EMPTY := Tuple(INVAL, Vector(false, false, [], [0, 0, 0, 0], []), 0)

  type Slots = t: seq<Tuple> | |t| == SLOTS witness [EMPTY, EMPTY, EMPTY, EMPTY, EMPTY]

  function Cleared(): Slots { seq(SLOTS, _ => EMPTY) }

  predicate Usable(t: Tuple) { t.keySeq != INVAL && t.useCount == 0 }

  /** Where the search of sgsn_auth_get_tuple begins. */
  function FirstSlot(keySeq: nat): nat { ((if keySeq == INVAL then SLOTS - 1 else keySeq) + 1) % SLOTS }

  /** The slot `d` places after `at`, going round. */
  function Slot(at: nat, d: nat): (r: nat)
    ensures r < SLOTS
  {
    (at + d) % SLOTS
  }

  lemma SlotNext(at: nat, d: nat)
    requires at < SLOTS && d > 0
    ensures Slot(Slot(at, 1), d - 1) == Slot(at, d)
  {
    if at + 1 == SLOTS { assert at + d == SLOTS + (d - 1); }
  }

  /** The first usable slot among the next `n` from `at` on; -1 when there is none. */
  function FindFrom(tuples: Slots, at: nat, n: nat): int
    requires at < SLOTS
    decreases n
  {
    if n == 0 then -1
    else if Usable(tuples[at]) then at
    else FindFrom(tuples, Slot(at, 1), n - 1)
  }

  function FindTuple(tuples: Slots, keySeq: nat): int
  {
    FindFrom(tuples, FirstSlot(keySeq), SLOTS)
  }

  ghost predicate NoneBefore(tuples: Slots, at: nat, n: nat)
  {
    forall d :: 0 <= d < n ==> !Usable(tuples[Slot(at, d)])
  }

  /** `k` is the first usable slot, `d` places after `at`. */
  ghost predicate FoundAt(tuples: Slots, at: nat, d: nat, k: int)
  {
    k == Slot(at, d) && Usable(tuples[k]) && NoneBefore(tuples, at, d)
  }

  lemma NoneBeforeNext(tuples: Slots, at: nat, n: nat)
    requires at < SLOTS && n > 0
    requires !Usable(tuples[at]) && NoneBefore(tuples, Slot(at, 1), n - 1)
    ensures NoneBefore(tuples, at, n)
  {
    forall d | 0 <= d < n ensures !Usable(tuples[Slot(at, d)]) {
      if d > 0 { SlotNext(at, d); }
    }
  }

  lemma {:induction false} FindFromExact(tuples: Slots, at: nat, n: nat)
    requires at < SLOTS
    ensures var k := FindFrom(tuples, at, n);
      if k < 0 then k == -1 && NoneBefore(tuples, at, n)
      else exists d | 0 <= d < n :: FoundAt(tuples, at, d, k)
    decreases n
  {
    if n == 0 {
    } else if Usable(tuples[at]) {
      assert Slot(at, 0) == at;
      assert FoundAt(tuples, at, 0, at);
    } else {
      var next := Slot(at, 1);
      FindFromExact(tuples, next, n - 1);
      var k := FindFrom(tuples, next, n - 1);
      if k < 0 {
        NoneBeforeNext(tuples, at, n);
      } else {
        var d :| 0 <= d < n - 1 && FoundAt(tuples, next, d, k);
        SlotNext(at, d + 1);
        NoneBeforeNext(tuples, at, d + 1);
        assert FoundAt(tuples, at, d + 1, k);
      }
    }
  }

  /** A tuple is found exactly when one of the five is unused and valid, whatever the key sequence number. */
  lemma FoundIff(tuples: Slots, keySeq: nat)
    ensures var k := FindTuple(tuples, keySeq); -1 <= k < SLOTS && (k >= 0 ==> Usable(tuples[k]))
    ensures FindTuple(tuples, keySeq) >= 0 <==> exists i :: 0 <= i < SLOTS && Usable(tuples[i])
  {
    var at := FirstSlot(keySeq);
    FindFromExact(tuples, at, SLOTS);
    if i :| 0 <= i < SLOTS && Usable(tuples[i]) {
      var d := (i - at) % SLOTS;
      assert Slot(at, d) == i;
    }
  }

  function UseTuple(tuples: seq<Tuple>, k: nat): seq<Tuple>
    requires k < |tuples|
  {
    tuples[k := tuples[k].(useCount := 1)]
  }

  function UsableSlots(tuples: seq<Tuple>): (r: nat)
    ensures r <= |tuples|
  {
    if tuples == [] then 0 else (if Usable(tuples[0]) then 1 else 0) + UsableSlots(tuples[1..])
  }

  /** Each draw uses up one tuple, so five answers at most come from one delivery of the home register. */
  lemma {:induction false} DrawUsesUp(tuples: seq<Tuple>, k: nat)
    requires k < |tuples| && Usable(tuples[k])
    ensures UsableSlots(UseTuple(tuples, k)) == UsableSlots(tuples) - 1
  {
    var after := UseTuple(tuples, k);
    if k == 0 {
      assert after[1..] == tuples[1..];
    } else {
      DrawUsesUp(tuples[1..], k - 1);
      assert after[1..] == UseTuple(tuples[1..], k - 1);
    }
  }

  /** The search loop over the array of five. */
  method GetTuple(tuples: array<Tuple>, keySeq: nat) returns (k: int)
    requires tuples.Length == SLOTS
    modifies tuples
    ensures k == FindTuple(old(tuples[..]), keySeq)
    ensures -1 <= k < SLOTS
    ensures tuples[..] == if k < 0 then old(tuples[..]) else UseTuple(old(tuples[..]), k)
  {
    var idx := if keySeq == INVAL then SLOTS - 1 else keySeq;
    var count := SLOTS;
    while count > 0
      invariant 0 <= count <= SLOTS && tuples[..] == old(tuples[..])
      invariant FindTuple(old(tuples[..]), keySeq) == FindFrom(old(tuples[..]), (idx + 1) % SLOTS, count)
    {
      idx := (idx + 1) % SLOTS;
      if tuples[idx].keySeq == INVAL || tuples[idx].useCount != 0 {
        count := count - 1;
        continue;
      }
      tuples[idx] := tuples[idx].(useCount := 1);
      return idx;
    }
    return -1;
  }

  // ---- Authorization ----

  datatype Policy = Open | Closed | AclOnly | Remote

  datatype Config = Config(policy: Policy, requireAuthentication: bool, requireUpdateLocation: bool,
                           requireImei: bool, requireAuth: bool)

  datatype AuthState = Unknown | Authenticate | UmtsResync | Accepted | Rejected

  /** What the SGSN keeps of the home register's answers. */
  datatype Subscriber = Subscriber(locationPending: bool, authPending: bool, cancelled: bool, failed: bool, cause: nat,
                                   authorized: bool, updated: bool, tuples: Slots)

  predicate UpdatePending(s: Subscriber) { s.locationPending || s.authPending }

  /** An error cause stands and nothing has authorized the subscriber since. */
  predicate Denied(s: Subscriber) { s.failed && !s.authorized }

  datatype Maybe<T> = None | Some(value: T)

  /** sgsn_auth_state: `stored` is the state last recorded; `home` and `listed` say whether the IMSI is of this
      network and whether it is in the access list. */
  function AuthStateOf(cfg: Config, subscr: Maybe<Subscriber>, sec: SecCtx, stored: AuthState,
                       imsi: bool, home: bool, listed: bool): AuthState {
    match cfg.policy
    case Open => Accepted
    case Remote =>
      if subscr.None? || UpdatePending(subscr.value) then stored
      else if Denied(subscr.value) then Rejected
      else if cfg.requireAuthentication && (sec == NoSec || subscr.value.updated) then Authenticate
      else if subscr.value.authorized then Accepted
      else Rejected
    case _ =>
      if !imsi then Unknown
      else if (cfg.policy == Closed && home) || listed then Accepted
      else Rejected
  }
}
