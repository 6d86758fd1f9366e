/** The attach procedure of one handset: the state machine of src/sgsn/gprs_gmm_attach.c, the authorization calls of
    src/sgsn/sgsn_auth.c and the message handlers of src/sgsn/gprs_gmm.c that drive them.

    The handlers call each other through nested event dispatch. Here the calls still to be made are an agenda, and one
    step makes the first of them; an input from outside comes only when the agenda is empty. */
module Attach {
  import opened Octet
  import opened SgsnAuth

  // ---- Data ----

  datatype State = Init | Identity | Auth | AskVlr | IuSecurity | Accept | Reject

  datatype IdType = NoId | Imsi | Imei | OtherId

  /** The cause given with a rejection; Discard drops the handset without a message. */
  datatype Cause = Discard | Gmm(code: nat)

  const NOT_ALLOWED := Gmm(7)
  const ID_NOT_DERIVED := Gmm(9)
  const NET_FAIL := Gmm(17)
  const SYNC_FAIL := Gmm(21)

  datatype Event = AttachReq(msg: Octets) | IdResp(id: IdType) | AuthSuccess | AuthResync | IuComplete
                 | AttachComplete | Rejection(cause: Cause) | VlrAnswered

  datatype Task = Dispatch(e: Event) | Change(to: State) | Enter(s: State) | Restart(msg: Octets)
                | AuthRequest | AuthUpdate | Proceed | Authorize

  /** The procedure that waits for authorization. */
  datatype Request = NoRequest | AttachPending | UpdatePendingRa | ServicePending

  /** What happened, oldest first. */
  datatype Note = Restarted | Picked(vec: Vector) | Challenged(sent: Vector) | Answer(to: Vector, r99: bool, res: Octets)
                | AcceptSent | RejectSent(code: nat)

  /** The context of a handset. `attMode` is set while T3350 repeats the ATTACH ACCEPT of the older procedure. */
  datatype Ctx = Ctx(state: State, alive: bool, agenda: seq<Task>, history: seq<Note>,
                     authState: AuthState, sec: SecCtx, keySeq: nat, vec: Vector, reattempt: nat, expired: nat,
                     pending: Request, idType: IdType, asked: IdType, imsi: bool, imei: bool, r99: bool, acRef: Octet,
                     subscr: Maybe<Subscriber>, saved: Maybe<Octets>, attMode: bool,
                     iu: bool, ueCtx: bool, integrity: bool)

  datatype GmmState = CommonProcedure | Registered | OtherGmm

  /** What the surroundings decide in a step: whether a message can be sent or a request queued, the reference number
      drawn, the subscriber record found, whether the IMSI is a home or a listed one, and the state of the GMM machine. */
  datatype Env = Env(sent: bool, queued: bool, ref: Octet, found: Subscriber, home: bool, listed: bool, gmm: GmmState)

  function Push(c: Ctx, tasks: seq<Task>): Ctx { c.(agenda := tasks + c.agenda) }
  function Log(c: Ctx, n: Note): Ctx { c.(history := c.history + [n]) }
  function Died(c: Ctx): Ctx { c.(alive := false, agenda := []) }
  function Refuse(c: Ctx, cause: Cause): Ctx { Push(c, [Dispatch(Rejection(cause))]) }

  // ---- The table of states ----

  /** The events that a state takes itself. */
  predicate Takes(s: State, e: Event) {
    match s
    case Init => e.AttachReq?
    case AskVlr => e.VlrAnswered?
    case Identity => e.IdResp?
    case Auth => e.AuthSuccess? || e.AuthResync? || e.VlrAnswered?
    case IuSecurity => e.IuComplete? || e.VlrAnswered?
    case Accept => e.AttachComplete? || e.VlrAnswered?
    case Reject => e.Rejection?
  }

  /** The states that may follow a state. */
  function Follows(s: State): set<State> {
    match s
    case Init => {Init, Identity, Auth, Accept}
    case AskVlr => {Init, Auth, IuSecurity, Accept, Reject, AskVlr}
    case Identity => {Init, Auth, Accept, Identity, Reject}
    case Auth => {Init, Auth, IuSecurity, Accept, AskVlr, Reject}
    case IuSecurity => {Init, Auth, Accept, Reject, AskVlr, IuSecurity}
    case Accept => {Init, Reject}
    case Reject => {Init}
  }

  // ---- The attach machine ----

  function Changed(c: Ctx, s: State): Ctx {
    if s in Follows(c.state) then Push(c.(state := s), [Enter(s)]) else c
  }

  function AfterIdentity(cfg: Config): State { if cfg.requireAuth then Auth else Accept }

  /** What a restart forgets. */
  function Fresh(c: Ctx, msg: Octets): Ctx {
    Log(c.(saved := Some(msg), authState := Unknown, sec := NoSec, keySeq := INVAL, reattempt := 0,
           pending := AttachPending), Restarted)
  }

  /** st_init. */
  function RestartWith(cfg: Config, c: Ctx, msg: Octets): Ctx {
    var d := Fresh(c, msg);
    if cfg.requireImei then Push(d.(idType := Imei), [Change(Identity)])
    else if !c.imsi then Push(d.(idType := Imsi), [Change(Identity)])
    else Push(d, [Change(AfterIdentity(cfg))])
  }

  /** Sending the challenge of the current vector. */
  function Challenge(c: Ctx, env: Env): Ctx {
    var d := c.(acRef := env.ref);
    if env.sent then Log(d, Challenged(c.vec)) else d
  }

  function Identified(cfg: Config, c: Ctx, id: IdType): Ctx {
    if !id.Imei? && !id.Imsi? then Refuse(c, NET_FAIL)
    else if id != c.idType then c
    else if id.Imei? && !c.imsi then Push(c.(idType := Imsi), [Change(Identity)])
    else Push(c, [Change(AfterIdentity(cfg))])
  }

  function Entered(cfg: Config, c: Ctx, s: State, env: Env): Ctx {
    match s
    case Identity =>
      var d := c.(expired := 0);
      if !c.idType.Imei? && !c.idType.Imsi? then Refuse(d, Gmm(0))
      else if env.sent then d.(asked := c.idType)
      else Refuse(d.(asked := c.idType), Gmm(0))
    case Auth => EnteredAuth(cfg, c.(expired := 0), env)
    case AskVlr => if c.authState.UmtsResync? then c else Push(c, [AuthRequest])
    case Accept => Log(c.(expired := 0, pending := NoRequest), AcceptSent)
    case IuSecurity => if c.integrity then Push(c, [Change(Accept)]) else c
    case _ => c
  }

  /** st_auth_on_enter: under the remote policy the recorded state decides. */
  function EnteredAuth(cfg: Config, c: Ctx, env: Env): Ctx {
    var st := if cfg.policy != Remote then AuthStateOf(cfg, c.subscr, c.sec, c.authState, c.imsi, env.home, env.listed)
              else c.authState;
    match st
    case Unknown => Push(c, [Change(AskVlr)])
    case UmtsResync => Push(c, [Change(AskVlr)])
    case Rejected => Refuse(c, NOT_ALLOWED)
    case Accepted => Push(c, [Change(Accept)])
    case Authenticate =>
      if c.keySeq == INVAL then Push(c, [Change(AskVlr)])
      else if env.sent then Challenge(c, env).(reattempt := c.reattempt + 1)
      else Refuse(Challenge(c, env), NET_FAIL)
  }

  predicate NeedsLocation(cfg: Config, c: Ctx) {
    && cfg.policy == Remote && cfg.requireUpdateLocation
    && (c.subscr.None? || c.subscr.value.locationPending || !c.subscr.value.authorized)
  }

  /** attach_proceed_after_auth. */
  function Proceeded(cfg: Config, c: Ctx): Ctx {
    if c.iu && c.ueCtx && !c.integrity then
      if !c.state.IuSecurity? then Push(c, [Change(IuSecurity)]) else c
    else if NeedsLocation(cfg, c) then Push(c, [Change(AskVlr)])
    else Push(c, [Change(Accept)])
  }

  /** The action of a state for an event it takes. */
  function Acted(cfg: Config, c: Ctx, e: Event): Ctx {
    match c.state
    case Identity => if e.IdResp? then Identified(cfg, c, e.id) else c
    case Auth =>
      if e.AuthSuccess? then Push(c, [AuthRequest, Proceed])
      else if e.VlrAnswered? && !c.sec.NoSec? then Push(c, [Proceed])
      else c
    case AskVlr => if e.VlrAnswered? then Push(c, [if c.sec.NoSec? then Change(Auth) else Proceed]) else c
    case IuSecurity => if e.IuComplete? then Push(c, [Proceed]) else c
    case Accept => if e.AttachComplete? then Push(c, [Change(Init)]) else c
    case _ => c
  }

  /** An attach request in any state: with one under way, only a different message starts again. */
  function Requested(c: Ctx, msg: Octets): Ctx {
    match c.state
    case Init => Push(c, [Restart(msg)])
    case Reject => Push(c, [Restart(msg)])
    case Accept => Push(c, [Change(Init), Restart(msg)])
    case IuSecurity => c
    case _ => if c.saved.Some? && c.saved.value != msg then Push(c, [Change(Init), Restart(msg)]) else c
  }

  /** st_reject ends the machine and frees the context. */
  function Refused(c: Ctx, cause: Cause): Ctx {
    var d := Died(c).(state := Reject);
    if cause.Gmm? then Log(d, RejectSent(cause.code)) else d
  }

  /** Dispatch: three kinds of event go to the all-state action; the others only to a state that takes them. */
  function Dispatched(cfg: Config, c: Ctx, e: Event): Ctx {
    match e
    case AttachReq(msg) => Requested(c, msg)
    case Rejection(cause) => Refused(c, cause)
    case AuthResync => if c.reattempt <= 1 then Push(c, [Change(AskVlr)]) else Refuse(c, SYNC_FAIL)
    case _ => if Takes(c.state, e) then Acted(cfg, c, e) else c
  }

  // ---- Authorization ----

  function Record(c: Ctx, s: Subscriber): Ctx { c.(subscr := Some(s)) }

  /** The subscriber of the context, found or created when there is none. */
  function Subscribed(c: Ctx, env: Env): Subscriber { if c.subscr.Some? then c.subscr.value else env.found }

  function Pick(c: Ctx, s: Subscriber, k: nat): Ctx
    requires k < SLOTS
  {
    var t := s.tuples[k];
    Log(Record(c, s.(tuples := UseTuple(s.tuples, k))).(keySeq := t.keySeq, vec := t.vec), Picked(t.vec))
  }

  /** sgsn_auth_request: the subscriber is registered with the context first. */
  function AuthRequested(cfg: Config, c: Ctx, env: Env): Ctx {
    if cfg.policy != Remote then Push(c, [AuthUpdate])
    else
      var needs := cfg.requireUpdateLocation && (c.subscr.None? || c.pending.AttachPending?);
      Requesting(cfg, Record(c, Subscribed(c, env)), needs, env)
  }

  /** Which request to the home register comes next. */
  function Requesting(cfg: Config, c: Ctx, needs: bool, env: Env): Ctx
    requires c.subscr.Some?
  {
    var s := c.subscr.value;
    if Denied(s) then Push(c, [AuthUpdate])
    else if cfg.requireAuthentication && c.sec.NoSec? then
      var k := if c.pending.AttachPending? then -1 else FindTuple(s.tuples, c.keySeq);
      FoundIff(s.tuples, c.keySeq);
      if k < 0 then AskTuples(c, env) else AskLocation(Pick(c, s, k), needs)
    else AskLocation(c, needs)
  }

  /** No tuple is left, or a fresh attach wants none of the old ones. */
  function AskTuples(c: Ctx, env: Env): Ctx
    requires c.subscr.Some?
  {
    var s := c.subscr.value;
    var kept := if c.pending.AttachPending? then s.(tuples := Cleared(), updated := false) else s;
    Record(c, kept.(authPending := env.queued)).(sec := NoSec, keySeq := INVAL)
  }

  function AskLocation(c: Ctx, needs: bool): Ctx
    requires c.subscr.Some?
  {
    var s := c.subscr.value;
    if needs && !s.locationPending then Record(c, s.(locationPending := true)) else Push(c, [AuthUpdate])
  }

  /** The new state `st`, unless nothing is final because new tuples were asked for. */
  datatype Decision = Decision(c: Ctx, final: bool, st: AuthState)

  /** Authentication is due and the current tuple is not valid: the next is taken, or new ones asked for. */
  function Refilled(cfg: Config, c: Ctx, env: Env): Decision {
    if c.subscr.None? then Decision(c, true, Rejected)
    else
      var s := c.subscr.value;
      var k := FindTuple(s.tuples, c.keySeq);
      FoundIff(s.tuples, c.keySeq);
      if k >= 0 then Decision(Pick(c, s, k), true, Authenticate)
      else if cfg.policy == Remote && cfg.requireAuthentication && !s.authPending && !s.failed then
        Decision(Record(c, s.(authPending := env.queued)).(sec := NoSec), !env.queued, Rejected)
      else Decision(c, true, Rejected)
  }

  /** sgsn_auth_update up to the decision. */
  function Decided(cfg: Config, c: Ctx, env: Env): Decision {
    var st := AuthStateOf(cfg, c.subscr, c.sec, c.authState, c.imsi, env.home, env.listed);
    if st.Unknown? && c.subscr.Some? && !UpdatePending(c.subscr.value) then Decision(c, true, Rejected)
    else if st.Authenticate? && c.keySeq == INVAL then Refilled(cfg, c, env)
    else Decision(c, true, st)
  }

  /** sgsn_auth_update. */
  function AuthUpdated(cfg: Config, c: Ctx, env: Env): Ctx {
    var r := Decided(cfg, c, env);
    if !r.final || r.st == r.c.authState then r.c else Settled(r.c.(authState := r.st), env)
  }

  /** What follows from a new authorization state. */
  function Settled(c: Ctx, env: Env): Ctx {
    match c.authState
    case Authenticate =>
      var d := if c.subscr.Some? then Record(c, c.subscr.value.(updated := false)) else c;
      Push(d.(sec := NoSec), [if !c.state.Init? then Dispatch(VlrAnswered) else Authorize])
    case Accepted =>
      if env.gmm.CommonProcedure? && !c.state.Init? then Push(c, [Dispatch(VlrAnswered)]) else c
    case Rejected =>
      if c.subscr.None? then Denial(c, NOT_ALLOWED, env)
      else
        var s := c.subscr.value;
        if s.cancelled && !s.failed then Died(c)
        else Denial(c, if s.failed then Gmm(s.cause) else NOT_ALLOWED, env)
    case _ => c
  }

  /** gsm0408_gprs_access_denied. */
  function Denial(c: Ctx, cause: Cause, env: Env): Ctx {
    if !env.gmm.CommonProcedure? then Died(c)
    else if !c.state.Init? then Refuse(c, cause)
    else c
  }

  /** gsm48_gmm_authorize, the older procedure. Its last case is the ATTACH ACCEPT of a machine that is not running. */
  function Authorized(c: Ctx, env: Env): Ctx {
    if !c.imei then c.(asked := Imei)
    else if !c.imsi then c.(asked := Imsi)
    else
      var d := c.(asked := NoId);
      if c.authState.Unknown? then Push(d, [AuthRequest])
      else if c.authState.Authenticate? && c.sec.NoSec? then Challenge(d, env)
      else if c.authState.Authenticate? && c.keySeq != INVAL then Push(d, [AuthRequest])
      else if !c.authState.Accepted? then d
      else if c.iu && !c.integrity then d
      else if c.pending.AttachPending? && c.state.Init? then
        Log(d.(pending := NoRequest, attMode := true), AcceptSent)
      else d.(pending := NoRequest)
  }

  /** The first call of the agenda. */
  function Work(cfg: Config, c: Ctx, env: Env): Ctx
    requires c.agenda != []
  {
    var d := c.(agenda := c.agenda[1..]);
    match c.agenda[0]
    case Dispatch(e) => Dispatched(cfg, d, e)
    case Change(s) => Changed(d, s)
    case Enter(s) => Entered(cfg, d, s, env)
    case Restart(msg) => RestartWith(cfg, d, msg)
    case AuthRequest => AuthRequested(cfg, d, env)
    case AuthUpdate => AuthUpdated(cfg, d, env)
    case Proceed => Proceeded(cfg, d)
    case Authorize => Authorized(d, env)
  }

  // ---- Inputs ----

  datatype Auts = NoAuts | WrongLength | Auts

  datatype MmTimer = T3350 | T3360 | T3370

  datatype Input =
    | RxAttachRequest(msg: Octets, byImsi: bool, isR99: bool, isIu: bool, hasUe: bool, protected: bool)
    | RxIdentityResponse(id: IdType)
    | RxAuthResponse(ref: Octet, sres: Maybe<Sres>, imeisv: bool, ext: Octets)
    | RxAuthFailure(auts: Auts)
    | RxAttachComplete
    | RxUpdateRequest
    | RxServiceRequest
    | RxOtherComplete
    | FromHome(s: Subscriber)
    | SubscriberGone
    | DeleteData
    | SecurityComplete
    | IuReleased
    | AttachTimer
    | MmTimer(t: MmTimer)
    | Removed

  /** gsm48_rx_gmm_auth_ciph_resp. */
  function AuthResponse(c: Ctx, ref: Octet, sres: Maybe<Sres>, imeisv: bool, ext: Octets): Ctx {
    if c.keySeq == INVAL || ref != c.acRef then c
    else if sres.None? || !imeisv then c
    else
      var res := ResponseOctets(sres.value, ext);
      var sec := CheckAuthResp(false, c.r99, c.vec, res);
      if sec == NoSec then Died(c.(imei := true, sec := sec))
      else Push(Log(c.(imei := true, sec := sec), Answer(c.vec, c.r99, res)), [Dispatch(AuthSuccess)])
  }

  /** gsm48_rx_gmm_auth_ciph_fail. */
  function AuthFailure(c: Ctx, auts: Auts, env: Env): Ctx {
    if auts == WrongLength then c
    else if auts == NoAuts then Died(c)
    else
      var d := Record(c.(keySeq := INVAL, authState := UmtsResync), Subscribed(c, env).(authPending := env.queued));
      if env.queued then Push(d, [Dispatch(AuthResync)]) else Died(d)
  }

  /** gmm_attach_timer_cb. */
  function AttachTimedOut(c: Ctx, env: Env): Ctx {
    var d := c.(expired := c.expired + 1);
    if c.iu && !c.state.AskVlr? && !c.ueCtx then Refuse(d, Discard)
    else
      match c.state
      case AskVlr => Refuse(d, NET_FAIL)
      case Identity => if d.expired >= 5 then Refuse(d, ID_NOT_DERIVED) else d
      case Auth => if d.expired >= 5 then Refuse(d, Discard) else Challenge(d, env)
      case Accept => if d.expired >= 5 then Refuse(d, Discard) else Log(d, AcceptSent)
      case _ => d
  }

  /** mmctx_timer_cb. */
  function MmTimedOut(c: Ctx, t: MmTimer, env: Env): Ctx {
    var d := c.(expired := c.expired + 1);
    match t
    case T3350 =>
      if d.expired >= 5 then
        if !c.state.Init? && !c.state.Reject? then Refuse(d, Discard) else Died(d)
      else if c.attMode then Log(d, AcceptSent)
      else d
    case T3360 =>
      if d.expired >= 5 || c.keySeq == INVAL then Died(d) else Challenge(d, env)
    case T3370 =>
      if d.expired >= 5 then Died(Log(d, RejectSent(ID_NOT_DERIVED.code))) else d
  }

  function Feed(c: Ctx, i: Input, env: Env): Ctx {
    match i
    case RxAttachRequest(msg, byImsi, isR99, isIu, hasUe, protected) =>
      Push(c.(imsi := c.imsi || byImsi, r99 := isR99, iu := isIu, ueCtx := hasUe, integrity := protected),
           [Dispatch(AttachReq(msg))])
    case RxIdentityResponse(id) =>
      if c.asked == NoId then c
      else Push(c.(imsi := c.imsi || id == Imsi, imei := c.imei || id == Imei), [Dispatch(IdResp(id))])
    case RxAuthResponse(ref, sres, imeisv, ext) => AuthResponse(c, ref, sres, imeisv, ext)
    case RxAuthFailure(auts) => AuthFailure(c, auts, env)
    case RxAttachComplete => Push(c.(attMode := false, pending := NoRequest), [Dispatch(AttachComplete)])
    case RxUpdateRequest => Push(c.(attMode := false, pending := UpdatePendingRa), [Authorize])
    case RxServiceRequest => Push(c.(pending := ServicePending), [Authorize])
    case RxOtherComplete => c.(attMode := false, pending := NoRequest)
    case FromHome(s) => if c.subscr.Some? then Push(Record(c, s), [AuthUpdate]) else c
    case SubscriberGone => c.(subscr := None)
    case DeleteData => Denial(c, NOT_ALLOWED, env)
    case SecurityComplete =>
      if !c.ueCtx then c
      else Push(c.(integrity := true), [if !c.pending.AttachPending? then Authorize else Dispatch(IuComplete)])
    case IuReleased =>
      var d := c.(ueCtx := false);
      if c.iu && !c.state.Init? then Refuse(d, Discard) else d
    case AttachTimer => AttachTimedOut(c, env)
    case MmTimer(t) => MmTimedOut(c, t, env)
    case Removed => Died(c)
  }

  // ---- Runs ----

  datatype Move = Outside(i: Input, env: Env) | Inside(env: Env)

  /** Inputs wait until the calls of the one before are done; nothing happens to a context that was freed. */
  function Step(cfg: Config, c: Ctx, m: Move): Ctx {
    if !c.alive then c
    else if c.agenda != [] then
      if m.Inside? then Work(cfg, c, m.env) else c
    else if m.Outside? then Feed(c, m.i, m.env)
    else c
  }

  /** A context as sgsn_mm_ctx_alloc leaves it. */
  predicate Allocated(c: Ctx) {
    && c.state.Init? && c.alive && c.agenda == [] && c.history == [] && c.authState.Unknown? && c.sec.NoSec?
    && c.keySeq == INVAL && c.pending == NoRequest && !c.attMode && c.saved.None?
  }

  function Run(cfg: Config, c: Ctx, moves: seq<Move>): Ctx {
    if moves == [] then c else Step(cfg, Run(cfg, c, moves[..|moves| - 1]), moves[|moves| - 1])
  }
}
