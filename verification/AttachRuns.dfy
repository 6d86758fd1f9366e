/** What holds of every run of the attach procedure: the ATTACH ACCEPT goes out only to a handset that has answered the
    challenge since it last started to attach, under exactly one configuration. */
module AttachRuns {
  import opened Octet
  import opened SgsnAuth
  import opened Attach

  // ---- Histories ----

  predicate QuietFrom(h: seq<Note>, p: nat) { forall k :: p <= k < |h| ==> !h[k].Restarted? }

  /** The vector was drawn since the procedure last started. */
  ghost predicate PickedSince(h: seq<Note>, vec: Vector) {
    exists p | 0 <= p < |h| :: h[p] == Picked(vec) && QuietFrom(h, p)
  }

  predicate AnsweredBy(h: seq<Note>, p: nat, m: nat) {
    && p < m < |h| && h[p].Picked? && h[m].Answer? && h[m].to == h[p].vec
    && Expected(h[m].r99, h[m].to, h[m].res) && QuietFrom(h, p)
  }

  /** The handset gave an expected answer to a vector that was drawn since the procedure last started. */
  ghost predicate Answered(h: seq<Note>) { exists p, m :: AnsweredBy(h, p, m) }

  /** Every ATTACH ACCEPT, first or repeated, came after such an answer. */
  ghost predicate OnlyAnswered(h: seq<Note>) {
    forall i | 0 <= i < |h| && h[i] == AcceptSent :: Answered(h[..i])
  }

  lemma LogKeeps(h: seq<Note>, n: Note, vec: Vector)
    requires !n.Restarted?
    ensures Answered(h) ==> Answered(h + [n])
    ensures PickedSince(h, vec) ==> PickedSince(h + [n], vec)
  {
    if p, m :| AnsweredBy(h, p, m) { assert AnsweredBy(h + [n], p, m); }
    if p :| 0 <= p < |h| && h[p] == Picked(vec) && QuietFrom(h, p) {
      assert (h + [n])[p] == Picked(vec) && QuietFrom(h + [n], p);
    }
  }

  lemma LogAllowed(h: seq<Note>, n: Note)
    requires OnlyAnswered(h) && (n == AcceptSent ==> Answered(h))
    ensures OnlyAnswered(h + [n])
  {
    var g := h + [n];
    forall i | 0 <= i < |g| && g[i] == AcceptSent ensures Answered(g[..i]) {
      assert g[..i] == h[..i];
      if i == |h| { assert g[..i] == h; }
    }
  }

  lemma PickIsPicked(h: seq<Note>, vec: Vector)
    ensures PickedSince(h + [Picked(vec)], vec)
  {
    var g := h + [Picked(vec)];
    assert g[|h|] == Picked(vec) && QuietFrom(g, |h|);
  }

  lemma AnswerIsAnswered(h: seq<Note>, vec: Vector, r99: bool, res: Octets)
    requires PickedSince(h, vec) && Expected(r99, vec, res)
    ensures Answered(h + [Answer(vec, r99, res)])
  {
    var p :| 0 <= p < |h| && h[p] == Picked(vec) && QuietFrom(h, p);
    assert AnsweredBy(h + [Answer(vec, r99, res)], p, |h|);
  }

  // ---- The invariant ----

  /** The configuration the promise is made for. */
  predicate Demands(cfg: Config) { cfg.policy == Remote && cfg.requireAuthentication && cfg.requireAuth }

  /** Calls that lead to the ATTACH ACCEPT without asking further. */
  predicate Trusted(t: Task) {
    match t
    case Dispatch(e) => e.AuthSuccess?
    case Change(s) => s.Accept? || s.IuSecurity?
    case Enter(s) => s.Accept? || s.IuSecurity?
    case Proceed => true
    case _ => false
  }

  /** Calls that presume no attach is waiting for authorization. */
  predicate Idle(t: Task) {
    match t
    case Dispatch(e) => e.AttachComplete?
    case Change(s) => s.Init?
    case Enter(s) => s.Init?
    case Authorize => true
    case _ => false
  }

  predicate Restarts(t: Task) { t.Restart? || (t.Dispatch? && t.e.AttachReq?) }

  /** A call is fine, given what happened and what waits. */
  ghost predicate Fits(h: seq<Note>, r: Request, t: Task) {
    !Restarts(t) && (Trusted(t) ==> Answered(h)) && (Idle(t) ==> !r.AttachPending?)
  }

  ghost predicate AllFit(h: seq<Note>, r: Request, agenda: seq<Task>) {
    forall t <- agenda :: Fits(h, r, t)
  }

  lemma FitMore(h: seq<Note>, r: Request, agenda: seq<Task>, t: Task)
    requires AllFit(h, r, agenda) && Fits(h, r, t)
    ensures AllFit(h, r, [t] + agenda)
  {
    hide Fits;
  }

  lemma FitStill(h: seq<Note>, r: Request, agenda: seq<Task>, later: seq<Note>, next: Request)
    requires AllFit(h, r, agenda) && (Answered(h) ==> Answered(later)) && (next.AttachPending? ==> r.AttachPending?)
    ensures AllFit(later, next, agenda)
  {
    hide Answered;
    forall t | t in agenda ensures Fits(later, next, t) { assert Fits(h, r, t); }
  }

  /** The agenda while an attach request starts the procedure again. */
  predicate Restarting(c: Ctx) {
    || (|c.agenda| == 1 && c.agenda[0].Dispatch? && c.agenda[0].e.AttachReq?)
    || (|c.agenda| == 1 && c.agenda[0].Restart? && (c.state == Init || c.state == Reject))
    || (|c.agenda| == 2 && c.agenda[0] == Change(Init) && c.agenda[1].Restart?)
    || (|c.agenda| == 2 && c.agenda[0] == Enter(Init) && c.agenda[1].Restart? && c.state == Init)
  }

  ghost predicate AgendaOk(c: Ctx) { Restarting(c) || AllFit(c.history, c.pending, c.agenda) }

  ghost predicate TrustOk(c: Ctx) {
    && (!c.sec.NoSec? ==> Answered(c.history))
    && (c.authState.Accepted? ==> Answered(c.history))
    && (c.state.Accept? || c.state.IuSecurity? ==> Answered(c.history))
    && (c.keySeq != INVAL ==> PickedSince(c.history, c.vec))
  }

  /** The initial state is left, or entered to start again. */
  predicate Passing(c: Ctx) {
    c.agenda != [] && (c.agenda[|c.agenda| - 1].Restart? || c.agenda == [Change(Identity)] || c.agenda == [Change(Auth)])
  }

  /** The older procedure never repeats an ATTACH ACCEPT, and never finds an attach waiting. */
  predicate IdleOk(c: Ctx) { !c.attMode && (c.pending.AttachPending? && c.state == Init ==> Passing(c)) }

  ghost predicate Inv(c: Ctx) { OnlyAnswered(c.history) && TrustOk(c) && IdleOk(c) && AgendaOk(c) }

  lemma InitOk(c: Ctx)
    requires Allocated(c)
    ensures Inv(c)
  {
  }

  /** The invariant before the first call of the agenda is made, the call taken off. */
  ghost predicate Ready(c: Ctx) {
    && OnlyAnswered(c.history) && TrustOk(c) && !c.attMode && (c.pending.AttachPending? ==> c.state != Init)
    && AllFit(c.history, c.pending, c.agenda)
  }

  lemma ReadyInv(c: Ctx)
    requires Ready(c)
    ensures Inv(c)
  {
  }

  lemma LogReady(c: Ctx, n: Note)
    requires Ready(c) && !n.Restarted? && (n.AcceptSent? ==> Answered(c.history))
    ensures Ready(Log(c, n))
    ensures Answered(c.history) ==> Answered(Log(c, n).history)
  {
    hide Answered, PickedSince, OnlyAnswered, AllFit;
    var h := c.history;
    LogKeeps(h, n, c.vec);
    LogAllowed(h, n);
    FitStill(h, c.pending, c.agenda, h + [n], c.pending);
  }

  lemma PushReady(c: Ctx, t: Task)
    requires Ready(c) && Fits(c.history, c.pending, t)
    ensures Ready(Push(c, [t]))
  {
    hide Answered, PickedSince, OnlyAnswered, AllFit, Fits;
    FitMore(c.history, c.pending, c.agenda, t);
  }

  lemma DiedReady(c: Ctx)
    requires Ready(c)
    ensures Ready(Died(c))
  {
    hide Answered, PickedSince, OnlyAnswered;
  }

  /** Changes of fields that claim no more trust than there was. */
  predicate NoMore(c: Ctx, d: Ctx) {
    && d.history == c.history && d.agenda == c.agenda && d.attMode == c.attMode
    && (d.pending == c.pending || !d.pending.AttachPending?)
    && (d.sec == c.sec || d.sec.NoSec?)
    && (d.authState == c.authState || !d.authState.Accepted? || !c.sec.NoSec?)
    && (d.keySeq == INVAL || (d.keySeq == c.keySeq && d.vec == c.vec))
  }

  lemma FieldsReady(c: Ctx, d: Ctx)
    requires Ready(c) && NoMore(c, d) && d.state == c.state
    ensures Ready(d)
  {
    hide Answered, PickedSince, OnlyAnswered, AllFit;
    FitStill(c.history, c.pending, c.agenda, c.history, d.pending);
  }

  lemma PickReady(c: Ctx, s: Subscriber, k: nat)
    requires Ready(c) && k < SLOTS
    ensures Ready(Pick(c, s, k))
  {
    hide Answered, PickedSince, OnlyAnswered, AllFit;
    var t := s.tuples[k];
    var d := Record(c, s.(tuples := UseTuple(s.tuples, k))).(keySeq := INVAL);
    FieldsReady(c, d);
    LogReady(d, Picked(t.vec));
    PickIsPicked(c.history, t.vec);
  }

  lemma PushTwo(c: Ctx, t: Task, u: Task)
    ensures Push(Push(c, [u]), [t]) == Push(c, [t, u])
  {
    assert [t] + ([u] + c.agenda) == [t, u] + c.agenda;
  }

  /** Calls that presume nothing. */
  predicate Plain(t: Task) { !Restarts(t) && !Trusted(t) && !Idle(t) }

  lemma PushPlain(c: Ctx, t: Task)
    requires Ready(c) && Plain(t)
    ensures Ready(Push(c, [t]))
  {
    hide Ready, Answered;
    PushReady(c, t);
  }

  lemma PushTrusted(c: Ctx, t: Task)
    requires Ready(c) && Trusted(t) && Answered(c.history)
    ensures Ready(Push(c, [t]))
  {
    hide Ready, Answered;
    PushReady(c, t);
  }

  lemma PushIdle(c: Ctx, t: Task)
    requires Ready(c) && Idle(t) && !c.pending.AttachPending?
    ensures Ready(Push(c, [t]))
  {
    hide Ready, Answered;
    PushReady(c, t);
  }

  lemma RefuseReady(c: Ctx, cause: Cause)
    requires Ready(c)
    ensures Ready(Refuse(c, cause))
  {
    hide Ready;
    PushPlain(c, Dispatch(Rejection(cause)));
  }

  lemma ChallengeReady(c: Ctx, env: Env)
    requires Ready(c)
    ensures Ready(Challenge(c, env))
  {
    hide Ready;
    FieldsReady(c, c.(acRef := env.ref));
    LogReady(c.(acRef := env.ref), Challenged(c.vec));
  }

  lemma TrustFacts(c: Ctx)
    requires Ready(c)
    ensures !c.sec.NoSec? || c.authState.Accepted? || c.state.Accept? || c.state.IuSecurity? ==> Answered(c.history)
    ensures c.state.Init? ==> !c.pending.AttachPending?
    ensures !c.attMode && (c.keySeq != INVAL ==> PickedSince(c.history, c.vec))
  {
    hide Answered, PickedSince, OnlyAnswered, AllFit;
  }

  // ---- One call after another ----

  lemma IdentifiedReady(cfg: Config, c: Ctx, id: IdType)
    requires Demands(cfg) && Ready(c)
    ensures Ready(Identified(cfg, c, id))
  {
    hide Ready, Fits;
    RefuseReady(c, NET_FAIL);
    FieldsReady(c, c.(idType := Imsi));
    PushPlain(c.(idType := Imsi), Change(Identity));
    PushPlain(c, Change(Auth));
  }

  lemma ActedReady(cfg: Config, c: Ctx, e: Event)
    requires Demands(cfg) && Ready(c)
    requires (e.AuthSuccess? ==> Answered(c.history)) && (e.AttachComplete? ==> !c.pending.AttachPending?)
    ensures Ready(Acted(cfg, c, e))
  {
    hide Ready, Answered, Identified, Fits, Push;
    TrustFacts(c);
    match c.state
    case Identity => if e.IdResp? { IdentifiedReady(cfg, c, e.id); }
    case Auth =>
      if e.AuthSuccess? {
        PushTrusted(c, Proceed);
        PushPlain(Push(c, [Proceed]), AuthRequest);
        PushTwo(c, AuthRequest, Proceed);
      } else if !c.sec.NoSec? {
        PushTrusted(c, Proceed);
      }
    case AskVlr => if c.sec.NoSec? { PushPlain(c, Change(Auth)); } else { PushTrusted(c, Proceed); }
    case IuSecurity => PushTrusted(c, Proceed);
    case Accept => if e.AttachComplete? { PushIdle(c, Change(Init)); }
    case _ =>
  }

  lemma EndedReady(c: Ctx)
    requires Ready(c)
    ensures Ready(Died(c).(state := Reject))
  {
    hide Answered, PickedSince, OnlyAnswered;
  }

  lemma RefusedReady(c: Ctx, cause: Cause)
    requires Ready(c)
    ensures Ready(Refused(c, cause))
  {
    hide Ready, Died;
    EndedReady(c);
    if cause.Gmm? { LogReady(Died(c).(state := Reject), RejectSent(cause.code)); }
  }

  lemma DispatchedReady(cfg: Config, c: Ctx, e: Event)
    requires Demands(cfg) && Ready(c) && Fits(c.history, c.pending, Dispatch(e))
    ensures Ready(Dispatched(cfg, c, e))
  {
    hide Ready, Answered, Refused, Acted, Takes;
    match e
    case Rejection(cause) => RefusedReady(c, cause);
    case AuthResync =>
      if c.reattempt <= 1 { PushPlain(c, Change(AskVlr)); } else { RefuseReady(c, SYNC_FAIL); }
    case AttachReq(_) =>
    case _ => ActedReady(cfg, c, e);
  }

  lemma ChangedReady(c: Ctx, s: State)
    requires Ready(c) && Fits(c.history, c.pending, Change(s))
    ensures Ready(Changed(c, s))
  {
    hide Answered, PickedSince, OnlyAnswered, AllFit;
    PushReady(c.(state := s), Enter(s));
  }

  lemma EnteredIdentityReady(cfg: Config, c: Ctx, env: Env)
    requires Ready(c)
    ensures Ready(Entered(cfg, c, Identity, env))
  {
    hide Ready;
    var d := c.(expired := 0);
    FieldsReady(c, d);
    RefuseReady(d, Gmm(0));
    FieldsReady(d, d.(asked := c.idType));
    RefuseReady(d.(asked := c.idType), Gmm(0));
  }

  lemma ChallengedReady(c: Ctx, env: Env)
    requires Ready(c)
    ensures Ready(Challenge(c, env).(reattempt := c.reattempt + 1)) && Ready(Refuse(Challenge(c, env), NET_FAIL))
  {
    hide Ready, Challenge, NoMore;
    ChallengeReady(c, env);
    var e := Challenge(c, env);
    NoMoreCount(e, c.reattempt + 1);
    FieldsReady(e, e.(reattempt := c.reattempt + 1));
    RefuseReady(e, NET_FAIL);
  }

  lemma NoMoreCount(c: Ctx, n: nat)
    ensures NoMore(c, c.(reattempt := n))
  {
  }

  lemma EnteredAuthReady(cfg: Config, c: Ctx, env: Env)
    requires Demands(cfg) && Ready(c)
    ensures Ready(EnteredAuth(cfg, c, env))
  {
    hide Ready, Answered, Challenge, Fits;
    TrustFacts(c);
    match c.authState
    case Accepted => PushTrusted(c, Change(Accept));
    case Rejected => RefuseReady(c, NOT_ALLOWED);
    case Authenticate =>
      if c.keySeq == INVAL { PushPlain(c, Change(AskVlr)); } else { ChallengedReady(c, env); }
    case _ => PushPlain(c, Change(AskVlr));
  }

  lemma EnteredReady(cfg: Config, c: Ctx, s: State, env: Env)
    requires Demands(cfg) && Ready(c) && Fits(c.history, c.pending, Enter(s))
    ensures Ready(Entered(cfg, c, s, env))
  {
    hide Ready, Answered, EnteredAuth;
    var d := c.(expired := 0);
    FieldsReady(c, d);
    match s
    case Identity => EnteredIdentityReady(cfg, c, env);
    case Auth => EnteredAuthReady(cfg, d, env);
    case AskVlr => PushPlain(c, AuthRequest);
    case Accept =>
      FieldsReady(c, d.(pending := NoRequest));
      LogReady(d.(pending := NoRequest), AcceptSent);
    case IuSecurity => PushTrusted(c, Change(Accept));
    case _ =>
  }

  lemma AskLocationReady(c: Ctx, needs: bool)
    requires Ready(c) && c.subscr.Some?
    ensures Ready(AskLocation(c, needs))
  {
    hide Ready, Answered;
    FieldsReady(c, Record(c, c.subscr.value.(locationPending := true)));
    PushPlain(c, AuthUpdate);
  }

  lemma AskedReady(c: Ctx, s: Subscriber)
    requires Ready(c)
    ensures Ready(Record(c, s)) && Ready(Record(c, s).(sec := NoSec)) && Ready(Record(c, s).(sec := NoSec, keySeq := INVAL))
  {
    hide Ready;
    FieldsReady(c, Record(c, s));
    FieldsReady(c, Record(c, s).(sec := NoSec));
    FieldsReady(c, Record(c, s).(sec := NoSec, keySeq := INVAL));
  }

  lemma PickRecords(c: Ctx, s: Subscriber, k: nat)
    requires k < SLOTS
    ensures Pick(c, s, k).subscr.Some?
  {
  }

  lemma RequestingReady(cfg: Config, c: Ctx, needs: bool, env: Env)
    requires Ready(c) && c.subscr.Some?
    ensures Ready(Requesting(cfg, c, needs, env))
  {
    hide Ready, Answered, AskLocation, Denied, FindTuple, Pick, Record, Cleared;
    var s := c.subscr.value;
    PushPlain(c, AuthUpdate);
    FoundIff(s.tuples, c.keySeq);
    AskLocationReady(c, needs);
    var k := if c.pending.AttachPending? then -1 else FindTuple(s.tuples, c.keySeq);
    if k < 0 {
      var kept := if c.pending.AttachPending? then s.(tuples := Cleared(), updated := false) else s;
      AskedReady(c, kept.(authPending := env.queued));
    } else {
      PickReady(c, s, k);
      PickRecords(c, s, k);
      AskLocationReady(Pick(c, s, k), needs);
    }
  }

  lemma AuthRequestedReady(cfg: Config, c: Ctx, env: Env)
    requires Demands(cfg) && Ready(c)
    ensures Ready(AuthRequested(cfg, c, env))
  {
    hide Ready, Subscribed, Requesting;
    var s := Subscribed(c, env);
    AskedReady(c, s);
    RequestingReady(cfg, Record(c, s), cfg.requireUpdateLocation && (c.subscr.None? || c.pending.AttachPending?), env);
  }

  /** Under the remote policy acceptance is what was recorded, or rests on an authenticated handset. */
  lemma AcceptedWhen(cfg: Config, c: Ctx, env: Env)
    requires Demands(cfg)
    requires AuthStateOf(cfg, c.subscr, c.sec, c.authState, c.imsi, env.home, env.listed).Accepted?
    ensures c.authState.Accepted? || !c.sec.NoSec?
  {
  }

  lemma RefilledReady(cfg: Config, c: Ctx, env: Env)
    requires Ready(c)
    ensures Ready(Refilled(cfg, c, env).c) && !Refilled(cfg, c, env).st.Accepted?
  {
    hide Ready, FindTuple, Pick;
    if c.subscr.Some? {
      var s := c.subscr.value;
      var k := FindTuple(s.tuples, c.keySeq);
      FoundIff(s.tuples, c.keySeq);
      if k >= 0 { PickReady(c, s, k); }
      AskedReady(c, s.(authPending := env.queued));
    }
  }

  lemma DecidedReady(cfg: Config, c: Ctx, env: Env)
    requires Demands(cfg) && Ready(c)
    ensures var r := Decided(cfg, c, env); Ready(r.c) && (r.st.Accepted? ==> Answered(c.history) && r.c == c)
  {
    hide Ready, Answered, AuthStateOf, UpdatePending, Refilled;
    var st := AuthStateOf(cfg, c.subscr, c.sec, c.authState, c.imsi, env.home, env.listed);
    TrustFacts(c);
    if st.Accepted? { AcceptedWhen(cfg, c, env); }
    if st.Authenticate? && c.keySeq == INVAL { RefilledReady(cfg, c, env); }
  }

  lemma DenialReady(c: Ctx, cause: Cause, env: Env)
    requires Ready(c)
    ensures Ready(Denial(c, cause, env))
  {
    hide Ready;
    DiedReady(c);
    RefuseReady(c, cause);
  }

  lemma SettledAuthenticateReady(c: Ctx, env: Env)
    requires Ready(c) && c.authState.Authenticate?
    ensures Ready(Settled(c, env))
  {
    hide Ready, Answered, Denial;
    var d := (if c.subscr.Some? then Record(c, c.subscr.value.(updated := false)) else c).(sec := NoSec);
    FieldsReady(c, d);
    TrustFacts(c);
    if c.state.Init? { PushIdle(d, Authorize); } else { PushPlain(d, Dispatch(VlrAnswered)); }
  }

  lemma SettledRejectedReady(c: Ctx, env: Env)
    requires Ready(c) && c.authState.Rejected?
    ensures Ready(Settled(c, env))
  {
    hide Ready, Answered, Denial, Died;
    DiedReady(c);
    DenialReady(c, NOT_ALLOWED, env);
    if c.subscr.Some? { DenialReady(c, Gmm(c.subscr.value.cause), env); }
  }

  lemma SettledRest(c: Ctx, env: Env)
    requires c.authState.Unknown? || c.authState.UmtsResync?
    ensures Settled(c, env) == c
  {
  }

  lemma SettledAcceptedReady(c: Ctx, env: Env)
    requires Ready(c) && c.authState.Accepted?
    ensures Ready(Settled(c, env))
  {
    hide Ready, Denial, Died, Record;
    PushPlain(c, Dispatch(VlrAnswered));
  }

  lemma SettledReady(c: Ctx, env: Env)
    requires Ready(c)
    ensures Ready(Settled(c, env))
  {
    hide Ready, Settled;
    match c.authState
    case Authenticate => SettledAuthenticateReady(c, env);
    case Accepted => SettledAcceptedReady(c, env);
    case Rejected => SettledRejectedReady(c, env);
    case _ => SettledRest(c, env);
  }

  lemma AuthUpdatedReady(cfg: Config, c: Ctx, env: Env)
    requires Demands(cfg) && Ready(c)
    ensures Ready(AuthUpdated(cfg, c, env))
  {
    hide Answered, PickedSince, OnlyAnswered, Decided, Settled;
    DecidedReady(cfg, c, env);
    var r := Decided(cfg, c, env);
    if r.final && r.st != r.c.authState {
      var e := r.c.(authState := r.st);
      SettledReady(e, env);
    }
  }

  lemma AuthorizedReady(c: Ctx, env: Env)
    requires Ready(c) && !c.pending.AttachPending?
    ensures Ready(Authorized(c, env))
  {
    hide Ready, Answered;
    FieldsReady(c, c.(asked := Imei));
    FieldsReady(c, c.(asked := Imsi));
    var d := c.(asked := NoId);
    FieldsReady(c, d);
    PushPlain(d, AuthRequest);
    ChallengeReady(d, env);
    FieldsReady(d, d.(pending := NoRequest));
  }

  lemma ProceededReady(cfg: Config, c: Ctx)
    requires Ready(c) && Fits(c.history, c.pending, Proceed)
    ensures Ready(Proceeded(cfg, c))
  {
    hide Ready, Answered;
    PushTrusted(c, Change(IuSecurity));
    PushPlain(c, Change(AskVlr));
    PushTrusted(c, Change(Accept));
  }

  // ---- Starting again ----

  /** The invariant without what it says of the agenda. */
  ghost predicate Core(c: Ctx) {
    OnlyAnswered(c.history) && TrustOk(c) && !c.attMode && (c.pending.AttachPending? ==> !c.state.Init?)
  }

  lemma CoreRest(c: Ctx)
    requires Core(c)
    ensures Inv(c.(agenda := []))
  {
    hide Answered, PickedSince, OnlyAnswered;
  }

  lemma RestartNext(c: Ctx, msg: Octets)
    requires OnlyAnswered(c.history) && TrustOk(c) && !c.attMode && (c.state.Init? || c.state.Reject?)
    ensures Inv(c.(agenda := [Restart(msg)]))
  {
    hide Answered, PickedSince, OnlyAnswered, AllFit;
  }

  lemma ChangeNext(c: Ctx, msg: Octets)
    requires Core(c)
    ensures Inv(c.(agenda := [Change(Init), Restart(msg)]))
  {
    hide Answered, PickedSince, OnlyAnswered, AllFit;
  }

  lemma EnterNext(c: Ctx, msg: Octets)
    requires OnlyAnswered(c.history) && TrustOk(c) && !c.attMode
    ensures Inv(c.(state := Init, agenda := [Enter(Init), Restart(msg)]))
  {
    hide Answered, PickedSince, OnlyAnswered, AllFit;
  }

  lemma RequestedOk(c: Ctx, msg: Octets)
    requires Core(c) && c.agenda == []
    ensures Inv(Requested(c, msg))
  {
    hide Core, Inv;
    CoreRest(c);
    assert c.(agenda := []) == c;
    if c.state.Init? || c.state.Reject? {
      CoreParts(c);
      RestartNext(c, msg);
      assert [Restart(msg)] + c.agenda == [Restart(msg)];
    } else {
      ChangeNext(c, msg);
      assert [Change(Init), Restart(msg)] + c.agenda == [Change(Init), Restart(msg)];
    }
  }

  lemma CoreParts(c: Ctx)
    requires Core(c)
    ensures OnlyAnswered(c.history) && TrustOk(c) && !c.attMode
  {
  }

  lemma FreshTrust(c: Ctx, msg: Octets)
    requires OnlyAnswered(c.history) && (c.state.Init? || c.state.Reject?)
    ensures OnlyAnswered(Fresh(c, msg).history) && TrustOk(Fresh(c, msg))
  {
    hide Answered, PickedSince, OnlyAnswered;
    LogAllowed(c.history, Restarted);
  }

  lemma FirstCall(d: Ctx, s: State)
    requires OnlyAnswered(d.history) && TrustOk(d) && !d.attMode && d.agenda == [] && (s.Identity? || s.Auth?)
    ensures Inv(Push(d, [Change(s)]))
  {
    hide Answered, PickedSince, OnlyAnswered;
    assert Push(d, [Change(s)]).agenda == [Change(s)];
  }

  lemma RestartOk(cfg: Config, c: Ctx, msg: Octets)
    requires Demands(cfg) && OnlyAnswered(c.history) && !c.attMode && c.agenda == []
    requires c.state.Init? || c.state.Reject?
    ensures Inv(RestartWith(cfg, c, msg))
  {
    hide OnlyAnswered, TrustOk, Inv, Push;
    var d := Fresh(c, msg);
    FreshTrust(c, msg);
    IdTypeTrust(d);
    FirstCall(d.(idType := Imei), Identity);
    FirstCall(d.(idType := Imsi), Identity);
    FirstCall(d, Auth);
  }

  lemma IdTypeTrust(c: Ctx)
    requires TrustOk(c)
    ensures forall id: IdType :: TrustOk(c.(idType := id))
  {
    hide Answered, PickedSince;
  }

  lemma RestartingOk(cfg: Config, c: Ctx, env: Env)
    requires Demands(cfg) && Inv(c) && Restarting(c)
    ensures Inv(Work(cfg, c, env))
  {
    hide Answered, PickedSince, OnlyAnswered, RestartWith, Requested, AllFit, Inv, TrustOk;
    InvParts(c);
    var d := c.(agenda := c.agenda[1..]);
    match c.agenda[0]
    case Dispatch(e) => assert d.agenda == []; RequestedOk(d, e.msg);
    case Restart(msg) => RestartOk(cfg, d, msg);
    case Change(_) => EnterNext(c, c.agenda[1].msg); ChangeWorks(cfg, c, env);
    case Enter(_) => RestartNext(c, c.agenda[1].msg); EnterWorks(cfg, c, env);
  }

  lemma InvParts(c: Ctx)
    requires Inv(c)
    ensures OnlyAnswered(c.history) && TrustOk(c) && !c.attMode && TrustOk(c.(agenda := []))
    ensures c.agenda != [] && c.agenda[0].Dispatch? && c.agenda[0].e.AttachReq? && |c.agenda| == 1 ==> Core(c.(agenda := []))
  {
    hide Answered, PickedSince, OnlyAnswered, AllFit;
  }

  lemma InitFollows(s: State)
    ensures Init in Follows(s)
  {
  }

  lemma ChangeWorks(cfg: Config, c: Ctx, env: Env)
    requires |c.agenda| == 2 && c.agenda[0] == Change(Init) && c.agenda[1].Restart?
    ensures Work(cfg, c, env) == c.(state := Init, agenda := [Enter(Init), Restart(c.agenda[1].msg)])
  {
    hide Dispatched, Entered, AuthRequested, AuthUpdated, Authorized, Proceeded, RestartWith, Follows;
    InitFollows(c.state);
    assert [Enter(Init)] + c.agenda[1..] == [Enter(Init), c.agenda[1]];
  }

  lemma EnterWorks(cfg: Config, c: Ctx, env: Env)
    requires |c.agenda| == 2 && c.agenda[0] == Enter(Init) && c.agenda[1].Restart?
    ensures Work(cfg, c, env) == c.(agenda := [Restart(c.agenda[1].msg)])
  {
    hide Dispatched, Changed, AuthRequested, AuthUpdated, Authorized, Proceeded, RestartWith;
    assert c.agenda[1..] == [c.agenda[1]];
  }

  /** The first change of state after starting again. */
  lemma LeavingOk(cfg: Config, c: Ctx, s: State, env: Env)
    requires Inv(c) && c.state.Init? && c.agenda == [Change(s)] && (s.Identity? || s.Auth?)
    ensures Inv(Work(cfg, c, env))
  {
    hide Answered, PickedSince, OnlyAnswered, Dispatched, Entered, AuthRequested, AuthUpdated, Authorized, Proceeded,
         RestartWith;
    assert [Enter(s)] + c.agenda[1..] == [Enter(s)];
    assert Work(cfg, c, env) == c.(state := s, agenda := [Enter(s)]);
  }

  lemma HeadReady(c: Ctx)
    requires Inv(c) && c.agenda != [] && !Restarting(c) && !(c.pending.AttachPending? && c.state.Init?)
    ensures Ready(c.(agenda := c.agenda[1..])) && Fits(c.history, c.pending, c.agenda[0])
  {
    hide Answered, PickedSince, OnlyAnswered, Fits, Restarting;
    assert c.agenda == [c.agenda[0]] + c.agenda[1..];
  }

  lemma WorkOk(cfg: Config, c: Ctx, env: Env)
    requires Demands(cfg) && Inv(c) && c.agenda != []
    ensures Inv(Work(cfg, c, env))
  {
    hide Answered, PickedSince, OnlyAnswered, Restarting, AllFit, Ready, TrustOk,
         Dispatched, Changed, Entered, AuthRequested, AuthUpdated, Authorized, Proceeded;
    if Restarting(c) {
      RestartingOk(cfg, c, env);
    } else if c.pending.AttachPending? && c.state.Init? {
      PassingLeaves(c);
      LeavingOk(cfg, c, c.agenda[0].to, env);
    } else {
      HeadReady(c);
      var d := c.(agenda := c.agenda[1..]);
      match c.agenda[0] {
        case Dispatch(e) => DispatchedReady(cfg, d, e);
        case Change(s) => ChangedReady(d, s);
        case Enter(s) => EnteredReady(cfg, d, s, env);
        case AuthRequest => AuthRequestedReady(cfg, d, env);
        case AuthUpdate => AuthUpdatedReady(cfg, d, env);
        case Proceed => ProceededReady(cfg, d);
        case Authorize => AuthorizedReady(d, env);
      }
      ReadyInv(Work(cfg, c, env));
    }
  }

  lemma PassingLeaves(c: Ctx)
    requires AgendaOk(c) && Passing(c) && !Restarting(c)
    ensures |c.agenda| == 1 && c.agenda[0].Change? && c.agenda == [c.agenda[0]]
    ensures c.agenda[0].to.Identity? || c.agenda[0].to.Auth?
  {
    hide Answered;
    var last := c.agenda[|c.agenda| - 1];
    assert Fits(c.history, c.pending, last);
  }

  // ---- Inputs ----

  lemma SecReady(c: Ctx, sec: SecCtx)
    requires Ready(c) && Answered(c.history)
    ensures Ready(c.(imei := true, sec := sec))
  {
    hide Answered, PickedSince, OnlyAnswered, AllFit;
  }

  /** The one place where trust is gained. */
  lemma AuthResponseReady(c: Ctx, ref: Octet, sres: Maybe<Sres>, imeisv: bool, ext: Octets)
    requires Ready(c)
    ensures Ready(AuthResponse(c, ref, sres, imeisv, ext))
  {
    hide Ready, Answered, PickedSince, CheckAuthResp, ResponseOctets, Expected;
    if c.keySeq != INVAL && sres.Some? {
      var res := ResponseOctets(sres.value, ext);
      var sec := CheckAuthResp(false, c.r99, c.vec, res);
      if sec.NoSec? {
        FieldsReady(c, c.(imei := true, sec := sec));
        DiedReady(c.(imei := true, sec := sec));
      } else {
        AuthRespExact(c.r99, c.vec, res);
        TrustFacts(c);
        var n := Answer(c.vec, c.r99, res);
        AnswerIsAnswered(c.history, c.vec, c.r99, res);
        LogReady(c, n);
        SecReady(Log(c, n), sec);
        PushTrusted(Log(c, n).(imei := true, sec := sec), Dispatch(AuthSuccess));
      }
    }
  }

  lemma AuthFailureReady(c: Ctx, auts: Auts, env: Env)
    requires Ready(c)
    ensures Ready(AuthFailure(c, auts, env))
  {
    hide Ready, Subscribed;
    DiedReady(c);
    var d := Record(c.(keySeq := INVAL, authState := UmtsResync), Subscribed(c, env).(authPending := env.queued));
    FieldsReady(c, d);
    PushPlain(d, Dispatch(AuthResync));
    DiedReady(d);
  }

  lemma ExpiredReady(c: Ctx)
    requires Ready(c)
    ensures Ready(c.(expired := c.expired + 1))
  {
    hide Ready;
    FieldsReady(c, c.(expired := c.expired + 1));
  }

  lemma AttachTimedOutReady(c: Ctx, env: Env)
    requires Ready(c)
    ensures Ready(AttachTimedOut(c, env))
  {
    hide Ready, Answered, Refuse, Challenge;
    var d := c.(expired := c.expired + 1);
    ExpiredReady(c);
    TrustFacts(c);
    RefuseReady(d, Discard);
    RefuseReady(d, NET_FAIL);
    RefuseReady(d, ID_NOT_DERIVED);
    ChallengeReady(d, env);
    if c.state.Accept? { LogReady(d, AcceptSent); }
  }

  lemma MmTimedOutReady(c: Ctx, t: MmTimer, env: Env)
    requires Ready(c)
    ensures Ready(MmTimedOut(c, t, env))
  {
    hide Ready, Answered, Refuse, Challenge;
    var d := c.(expired := c.expired + 1);
    ExpiredReady(c);
    TrustFacts(c);
    RefuseReady(d, Discard);
    DiedReady(d);
    ChallengeReady(d, env);
    var e := Log(d, RejectSent(ID_NOT_DERIVED.code));
    LogReady(d, RejectSent(ID_NOT_DERIVED.code));
    DiedReady(e);
  }

  /** The requests of a handset other than to attach, and their completion. */
  lemma RequestReady(c: Ctx, r: Request)
    requires Ready(c) && !r.AttachPending?
    ensures Ready(c.(attMode := false, pending := r)) && Ready(c.(pending := r))
    ensures Ready(Push(c.(attMode := false, pending := r), [Authorize])) && Ready(Push(c.(pending := r), [Authorize]))
    ensures Ready(Push(c.(attMode := false, pending := r), [Dispatch(AttachComplete)]))
  {
    hide Ready;
    TrustFacts(c);
    FieldsReady(c, c.(attMode := false, pending := r));
    FieldsReady(c, c.(pending := r));
    PushIdle(c.(attMode := false, pending := r), Authorize);
    PushIdle(c.(pending := r), Authorize);
    PushIdle(c.(attMode := false, pending := r), Dispatch(AttachComplete));
  }

  lemma SecurityCompleteReady(c: Ctx)
    requires Ready(c)
    ensures Ready(Push(c.(integrity := true), [if !c.pending.AttachPending? then Authorize else Dispatch(IuComplete)]))
  {
    hide Ready;
    var d := c.(integrity := true);
    FieldsReady(c, d);
    if c.pending.AttachPending? { PushPlain(d, Dispatch(IuComplete)); } else { PushIdle(d, Authorize); }
  }

  lemma IuReleasedReady(c: Ctx)
    requires Ready(c)
    ensures Ready(c.(ueCtx := false)) && Ready(Refuse(c.(ueCtx := false), Discard))
  {
    hide Ready;
    FieldsReady(c, c.(ueCtx := false));
    RefuseReady(c.(ueCtx := false), Discard);
  }

  lemma IdentityReady(c: Ctx, imsi: bool, imei: bool, id: IdType)
    requires Ready(c)
    ensures Ready(Push(c.(imsi := imsi, imei := imei), [Dispatch(IdResp(id))]))
  {
    hide Ready;
    FieldsReady(c, c.(imsi := imsi, imei := imei));
    PushPlain(c.(imsi := imsi, imei := imei), Dispatch(IdResp(id)));
  }

  lemma SubscriberReady(c: Ctx, s: Subscriber)
    requires Ready(c)
    ensures Ready(c.(subscr := None)) && Ready(Push(Record(c, s), [AuthUpdate]))
  {
    hide Ready;
    FieldsReady(c, c.(subscr := None));
    FieldsReady(c, Record(c, s));
    PushPlain(Record(c, s), AuthUpdate);
  }

  lemma FeedReady(c: Ctx, i: Input, env: Env)
    requires Ready(c) && !i.RxAttachRequest?
    ensures Ready(Feed(c, i, env))
  {
    hide Ready, AuthResponse, AuthFailure, AttachTimedOut, MmTimedOut, Denial, Push, Record, Refuse, Died;
    match i
    case RxIdentityResponse(id) => IdentityReady(c, c.imsi || id == Imsi, c.imei || id == Imei, id);
    case RxAuthResponse(ref, sres, imeisv, ext) => AuthResponseReady(c, ref, sres, imeisv, ext);
    case RxAuthFailure(auts) => AuthFailureReady(c, auts, env);
    case RxAttachComplete => RequestReady(c, NoRequest);
    case RxUpdateRequest => RequestReady(c, UpdatePendingRa);
    case RxServiceRequest => RequestReady(c, ServicePending);
    case RxOtherComplete => RequestReady(c, NoRequest);
    case FromHome(s) => SubscriberReady(c, s);
    case SubscriberGone => SubscriberReady(c, env.found);
    case DeleteData => DenialReady(c, NOT_ALLOWED, env);
    case SecurityComplete => SecurityCompleteReady(c);
    case IuReleased => IuReleasedReady(c);
    case AttachTimer => AttachTimedOutReady(c, env);
    case MmTimer(t) => MmTimedOutReady(c, t, env);
    case Removed => DiedReady(c);
  }

  lemma WaitingReady(c: Ctx)
    requires Inv(c) && c.agenda == []
    ensures Ready(c)
  {
    hide Answered, PickedSince, OnlyAnswered;
  }

  lemma AttachRequestOk(c: Ctx, i: Input, env: Env)
    requires Inv(c) && c.agenda == [] && i.RxAttachRequest?
    ensures Inv(Feed(c, i, env))
  {
    hide Answered, PickedSince, OnlyAnswered, AllFit;
  }

  lemma StepOk(cfg: Config, c: Ctx, m: Move)
    requires Demands(cfg) && Inv(c)
    ensures Inv(Step(cfg, c, m))
  {
    hide Inv, Ready, Work, Feed;
    if c.alive {
      if c.agenda != [] {
        if m.Inside? { WorkOk(cfg, c, m.env); }
      } else if m.Outside? {
        if m.i.RxAttachRequest? {
          AttachRequestOk(c, m.i, m.env);
        } else {
          WaitingReady(c);
          FeedReady(c, m.i, m.env);
          ReadyInv(Feed(c, m.i, m.env));
        }
      }
    }
  }

  // ---- Every run ----

  lemma {:induction false} RunOk(cfg: Config, c: Ctx, moves: seq<Move>)
    requires Demands(cfg) && Allocated(c)
    ensures Inv(Run(cfg, c, moves))
    decreases |moves|
  {
    hide Step, Inv;
    if moves == [] {
      InitOk(c);
    } else {
      var init := moves[..|moves| - 1];
      RunOk(cfg, c, init);
      StepOk(cfg, Run(cfg, c, init), moves[|moves| - 1]);
    }
  }

  /** In every run, each ATTACH ACCEPT, first or repeated, follows an expected answer to a vector that was drawn after
      the ATTACH REQUEST which last started the procedure; and it is sent by the attach machine in its accepting state,
      never by the older procedure, whose repetition of it is never armed. */
  lemma AcceptsAnswered(cfg: Config, c: Ctx, moves: seq<Move>)
    requires Demands(cfg) && Allocated(c)
    ensures OnlyAnswered(Run(cfg, c, moves).history)
    ensures !Run(cfg, c, moves).attMode
  {
    RunOk(cfg, c, moves);
  }

  // ---- Exactly this configuration ----

  ghost predicate Reached(cfg: Config, start: Ctx, c: Ctx) { exists moves :: Run(cfg, start, moves) == c }

  lemma ReachedNext(cfg: Config, start: Ctx, c: Ctx, m: Move)
    requires Reached(cfg, start, c)
    ensures Reached(cfg, start, Step(cfg, c, m))
  {
    var moves :| Run(cfg, start, moves) == c;
    var more := moves + [m];
    assert more[..|more| - 1] == moves;
    assert Run(cfg, start, more) == Step(cfg, c, m);
  }

  predicate NoAnswer(h: seq<Note>) { forall k :: 0 <= k < |h| ==> !h[k].Answer? }

  lemma UnansweredAccept(h: seq<Note>)
    requires NoAnswer(h)
    ensures !OnlyAnswered(h + [AcceptSent])
  {
    var g := h + [AcceptSent];
    assert g[|h|] == AcceptSent && g[..|h|] == h;
    forall p: nat, m: nat ensures !AnsweredBy(h, p, m) { }
  }

  /** A context of a known IMSI, and surroundings in which everything succeeds. */
  const FOUND := Subscriber(false, false, false, false, 0, true, false, Cleared())
  const GOOD := Env(true, true, 0, FOUND, true, true, CommonProcedure)
  const START := Ctx(Init, true, [], [], Unknown, NoSec, INVAL, EMPTY.vec, 0, 0, NoRequest, NoId, NoId, true, true, false,
                     0, None, None, false, false, false, false)

  /** Just after the identity is known, the next state being entered. */
  predicate Known(c: Ctx, next: State) {
    && c.alive && (c.state.Init? || c.state.Identity?) && c.agenda == [Change(next)] && NoAnswer(c.history)
    && c.authState.Unknown? && c.sec.NoSec? && c.imsi && c.subscr.None? && !c.iu && c.pending.AttachPending?
    && c.keySeq == INVAL && !c.r99
  }

  /** The accepting state is about to be entered without an answer. */
  predicate Giving(c: Ctx) { c.alive && c.agenda == [Enter(Accept)] && NoAnswer(c.history) }

  lemma Inward(cfg: Config, c: Ctx, d: Ctx)
    requires Reached(cfg, START, c) && c.alive && c.agenda != [] && Work(cfg, c, GOOD) == d
    ensures Reached(cfg, START, d)
  {
    hide Work, Reached;
    ReachedNext(cfg, START, c, Inside(GOOD));
  }

  lemma Outward(cfg: Config, c: Ctx, i: Input, d: Ctx)
    requires Reached(cfg, START, c) && c.alive && c.agenda == [] && Feed(c, i, GOOD) == d
    ensures Reached(cfg, START, d)
  {
    hide Feed, Reached;
    ReachedNext(cfg, START, c, Outside(i, GOOD));
  }

  lemma WorkChange(cfg: Config, c: Ctx, s: State)
    requires c.agenda == [Change(s)] && s in Follows(c.state)
    ensures Work(cfg, c, GOOD) == c.(state := s, agenda := [Enter(s)])
  {
    hide Dispatched, Entered, AuthRequested, AuthUpdated, Authorized, Proceeded, RestartWith, Follows;
    assert [Enter(s)] + c.agenda[1..] == [Enter(s)];
  }

  lemma WorkEnter(cfg: Config, c: Ctx, s: State)
    requires c.agenda == [Enter(s)]
    ensures Work(cfg, c, GOOD) == Entered(cfg, c.(agenda := []), s, GOOD)
  {
    hide Dispatched, Entered, Changed, AuthRequested, AuthUpdated, Authorized, Proceeded, RestartWith;
    assert c.agenda[1..] == [];
  }

  lemma WorkDispatch(cfg: Config, c: Ctx, e: Event)
    requires c.agenda == [Dispatch(e)]
    ensures Work(cfg, c, GOOD) == Dispatched(cfg, c.(agenda := []), e)
  {
    hide Dispatched, Entered, Changed, AuthRequested, AuthUpdated, Authorized, Proceeded, RestartWith;
    assert c.agenda[1..] == [];
  }

  lemma WorkRestart(cfg: Config, c: Ctx, msg: Octets)
    requires c.agenda == [Restart(msg)]
    ensures Work(cfg, c, GOOD) == RestartWith(cfg, c.(agenda := []), msg)
  {
    hide Dispatched, Entered, Changed, AuthRequested, AuthUpdated, Authorized, Proceeded, RestartWith;
    assert c.agenda[1..] == [];
  }

  lemma ReachStarted(cfg: Config) returns (c: Ctx)
    ensures Reached(cfg, START, c) && c == RestartWith(cfg, START, [])
  {
    hide Reached, Work;
    var input := RxAttachRequest([], true, false, false, false, false);
    assert Reached(cfg, START, START) by { ReachedStart(cfg); }
    var c1 := START.(agenda := [Dispatch(AttachReq([]))]);
    assert Feed(START, input, GOOD) == c1 by { hide RestartWith; }
    Outward(cfg, START, input, c1);
    var c2 := START.(agenda := [Restart([])]);
    WorkDispatch(cfg, c1, AttachReq([]));
    assert Dispatched(cfg, c1.(agenda := []), AttachReq([])) == c2 by { hide RestartWith; }
    Inward(cfg, c1, c2);
    c := RestartWith(cfg, START, []);
    WorkRestart(cfg, c2, []);
    assert c2.(agenda := []) == START;
    Inward(cfg, c2, c);
  }

  lemma ReachedStart(cfg: Config)
    ensures Reached(cfg, START, START)
  {
    assert Run(cfg, START, []) == START;
  }

  lemma ReachAsked(cfg: Config, c: Ctx) returns (d: Ctx)
    requires Reached(cfg, START, c) && c.alive && c.state.Init? && c.agenda == [Change(Identity)] && c.idType.Imei?
    ensures Reached(cfg, START, d) && d == c.(state := Identity, expired := 0, asked := Imei, agenda := [])
  {
    hide Reached, Work;
    var c1 := c.(state := Identity, agenda := [Enter(Identity)]);
    WorkChange(cfg, c, Identity);
    Inward(cfg, c, c1);
    d := c.(state := Identity, expired := 0, asked := Imei, agenda := []);
    WorkEnter(cfg, c1, Identity);
    Inward(cfg, c1, d);
  }

  /** From asking for the equipment identity to having it. */
  lemma ReachIdentified(cfg: Config, c: Ctx) returns (d: Ctx)
    requires Reached(cfg, START, c) && c.alive && c.imsi && c.state.Init? && c.agenda == [Change(Identity)] && c.idType.Imei?
    ensures Reached(cfg, START, d)
    ensures d == c.(state := Identity, expired := 0, asked := Imei, imei := true, agenda := [Change(AfterIdentity(cfg))])
  {
    hide Reached, Work;
    var c2 := ReachAsked(cfg, c);
    var c3 := c2.(imei := true, agenda := [Dispatch(IdResp(Imei))]);
    FeedIdentity(c2);
    Outward(cfg, c2, RxIdentityResponse(Imei), c3);
    d := c3.(agenda := [Change(AfterIdentity(cfg))]);
    WorkDispatch(cfg, c3, IdResp(Imei));
    Inward(cfg, c3, d);
  }

  lemma FeedIdentity(c: Ctx)
    requires c.agenda == [] && c.asked.Imei?
    ensures Feed(c, RxIdentityResponse(Imei), GOOD) == c.(imei := true, agenda := [Dispatch(IdResp(Imei))])
  {
  }

  lemma ReachKnown(cfg: Config) returns (c: Ctx)
    ensures Reached(cfg, START, c) && Known(c, AfterIdentity(cfg))
  {
    hide Reached;
    c := ReachStarted(cfg);
    assert c.history == [Restarted];
    if cfg.requireImei { c := ReachIdentified(cfg, c); }
  }

  /** Without the demand to authenticate, or under another policy, the state is entered directly. */
  lemma ReachGivingDirect(cfg: Config) returns (c: Ctx)
    requires !cfg.requireAuth || cfg.policy != Remote
    ensures Reached(cfg, START, c) && Giving(c)
  {
    hide Reached, Work;
    var c0 := ReachKnown(cfg);
    var next := AfterIdentity(cfg);
    c := c0.(state := next, agenda := [Enter(next)]);
    WorkChange(cfg, c0, next);
    Inward(cfg, c0, c);
    if cfg.requireAuth {
      var c2 := c.(expired := 0, agenda := [Change(Accept)]);
      WorkEnter(cfg, c, Auth);
      Inward(cfg, c, c2);
      c := c2.(state := Accept, agenda := [Enter(Accept)]);
      WorkChange(cfg, c2, Accept);
      Inward(cfg, c2, c);
    }
  }

  /** Under the remote policy the home register's word is enough when authentication is not required. */
  lemma ReachGivingRemote(cfg: Config) returns (c: Ctx)
    requires cfg.requireAuth && cfg.policy == Remote && !cfg.requireAuthentication
    ensures Reached(cfg, START, c) && Giving(c)
  {
    hide Reached, Work;
    var c0 := ReachKnown(cfg);
    var c1 := c0.(state := Auth, agenda := [Enter(Auth)]);
    WorkChange(cfg, c0, Auth);
    Inward(cfg, c0, c1);
    var c2 := c1.(expired := 0, agenda := [Change(AskVlr)]);
    WorkEnter(cfg, c1, Auth);
    Inward(cfg, c1, c2);
    var c3 := c2.(state := AskVlr, agenda := [Enter(AskVlr)]);
    WorkChange(cfg, c2, AskVlr);
    Inward(cfg, c2, c3);
    var c4 := c3.(agenda := [AuthRequest]);
    WorkEnter(cfg, c3, AskVlr);
    Inward(cfg, c3, c4);
    var c5 := ReachAnswering(cfg, c4);
    c := ReachTold(cfg, c5);
  }

  /** The location is asked for first where that is required; either way the state is then looked at again. */
  lemma ReachAnswering(cfg: Config, c: Ctx) returns (d: Ctx)
    requires cfg.policy == Remote && !cfg.requireAuthentication
    requires Reached(cfg, START, c) && c.alive && c.agenda == [AuthRequest] && c.subscr.None?
    ensures Reached(cfg, START, d) && d == c.(agenda := [AuthUpdate], subscr := Some(FOUND))
  {
    hide Reached, Work, AuthRequested;
    d := c.(agenda := [AuthUpdate], subscr := Some(FOUND));
    if cfg.requireUpdateLocation {
      var c1 := c.(agenda := [], subscr := Some(FOUND.(locationPending := true)));
      WorkAuthRequest(cfg, c);
      RequestTold(cfg, c);
      Inward(cfg, c, c1);
      assert Feed(c1, FromHome(FOUND), GOOD) == d by { hide AuthRequested; }
      Outward(cfg, c1, FromHome(FOUND), d);
    } else {
      WorkAuthRequest(cfg, c);
      RequestTold(cfg, c);
      Inward(cfg, c, d);
    }
  }

  lemma RequestTold(cfg: Config, c: Ctx)
    requires cfg.policy == Remote && !cfg.requireAuthentication && c.subscr.None?
    ensures AuthRequested(cfg, c.(agenda := []), GOOD)
         == if cfg.requireUpdateLocation then c.(agenda := [], subscr := Some(FOUND.(locationPending := true)))
            else c.(agenda := [AuthUpdate], subscr := Some(FOUND))
  {
    hide FindTuple, Pick, AskTuples;
    var e := c.(agenda := []);
    assert AuthRequested(cfg, e, GOOD) == AskLocation(Record(e, FOUND), cfg.requireUpdateLocation);
  }

  lemma WorkAuthRequest(cfg: Config, c: Ctx)
    requires c.agenda == [AuthRequest]
    ensures Work(cfg, c, GOOD) == AuthRequested(cfg, c.(agenda := []), GOOD)
  {
    hide Dispatched, Entered, Changed, AuthRequested, AuthUpdated, Authorized, Proceeded, RestartWith;
    assert c.agenda[1..] == [];
  }

  lemma WorkAuthUpdate(cfg: Config, c: Ctx)
    requires c.agenda == [AuthUpdate]
    ensures Work(cfg, c, GOOD) == AuthUpdated(cfg, c.(agenda := []), GOOD)
  {
    hide Dispatched, Entered, Changed, AuthRequested, AuthUpdated, Authorized, Proceeded, RestartWith;
    assert c.agenda[1..] == [];
  }

  lemma ReachTold(cfg: Config, c: Ctx) returns (d: Ctx)
    requires cfg.policy == Remote && !cfg.requireAuthentication
    requires Reached(cfg, START, c) && c.alive && c.agenda == [AuthUpdate] && c.subscr == Some(FOUND)
    requires c.state.AskVlr? && c.authState.Unknown? && c.sec.NoSec? && NoAnswer(c.history)
    ensures Reached(cfg, START, d) && Giving(d)
  {
    hide Reached, Work, AuthUpdated, Dispatched;
    var c1 := c.(authState := Accepted, agenda := [Dispatch(VlrAnswered)]);
    WorkAuthUpdate(cfg, c);
    UpdateTold(cfg, c);
    Inward(cfg, c, c1);
    var c2 := c1.(agenda := [Change(Auth)]);
    WorkDispatch(cfg, c1, VlrAnswered);
    ToldDispatched(cfg, c1.(agenda := []));
    Inward(cfg, c1, c2);
    d := ReachAccepted(cfg, c2);
  }

  lemma ToldDispatched(cfg: Config, c: Ctx)
    requires c.state.AskVlr? && c.sec.NoSec? && c.agenda == []
    ensures Dispatched(cfg, c, VlrAnswered) == c.(agenda := [Change(Auth)])
  {
  }

  lemma UpdateTold(cfg: Config, c: Ctx)
    requires cfg.policy == Remote && !cfg.requireAuthentication && c.subscr == Some(FOUND)
    requires c.state.AskVlr? && c.authState.Unknown? && c.sec.NoSec?
    ensures AuthUpdated(cfg, c.(agenda := []), GOOD) == c.(authState := Accepted, agenda := [Dispatch(VlrAnswered)])
  {
    hide FindTuple, Pick;
    var e := c.(agenda := []);
    assert Decided(cfg, e, GOOD) == Decision(e, true, Accepted) by { hide Settled; }
    assert Settled(e.(authState := Accepted), GOOD) == Push(e.(authState := Accepted), [Dispatch(VlrAnswered)]);
  }

  lemma ReachAccepted(cfg: Config, c: Ctx) returns (d: Ctx)
    requires cfg.policy == Remote
    requires Reached(cfg, START, c) && c.alive && c.agenda == [Change(Auth)] && c.state.AskVlr? && c.authState.Accepted?
    requires NoAnswer(c.history)
    ensures Reached(cfg, START, d) && Giving(d)
  {
    hide Reached, Work;
    var c3 := c.(state := Auth, agenda := [Enter(Auth)]);
    WorkChange(cfg, c, Auth);
    Inward(cfg, c, c3);
    var c4 := c3.(expired := 0, agenda := [Change(Accept)]);
    WorkEnter(cfg, c3, Auth);
    Inward(cfg, c3, c4);
    d := c4.(state := Accept, agenda := [Enter(Accept)]);
    WorkChange(cfg, c4, Accept);
    Inward(cfg, c4, d);
  }

  /** The promise holds of every run under exactly one configuration: the remote policy, with authentication required
      both of the machine and of the network. */
  lemma PromiseIff(cfg: Config)
    ensures Demands(cfg)
        <==> forall c, moves :: Allocated(c) ==> OnlyAnswered(Run(cfg, c, moves).history)
  {
    hide OnlyAnswered, Reached;
    if Demands(cfg) {
      forall c, moves | Allocated(c) ensures OnlyAnswered(Run(cfg, c, moves).history) { AcceptsAnswered(cfg, c, moves); }
    } else {
      var moves := ReachBroken(cfg);
      assert Allocated(START);
    }
  }

  lemma ReachBroken(cfg: Config) returns (moves: seq<Move>)
    requires !Demands(cfg)
    ensures !OnlyAnswered(Run(cfg, START, moves).history)
  {
    hide OnlyAnswered, Work, Step;
    var c: Ctx;
    if cfg.requireAuth && cfg.policy == Remote { c := ReachGivingRemote(cfg); } else { c := ReachGivingDirect(cfg); }
    var d := c.(agenda := [], expired := 0, pending := NoRequest, history := c.history + [AcceptSent]);
    WorkEnter(cfg, c, Accept);
    Inward(cfg, c, d);
    UnansweredAccept(c.history);
    moves :| Run(cfg, START, moves) == d;
  }

  // ---- The promise is not empty ----

  const VEC := Vector(true, false, [], [1, 2, 3, 4], [])
  const SUPPLIED := FOUND.(tuples := [Tuple(0, VEC, 0), EMPTY, EMPTY, EMPTY, EMPTY], updated := true)
  const DRAWN := SUPPLIED.(tuples := UseTuple(SUPPLIED.tuples, 0))

  /** The home register is asked for vectors. */
  lemma ReachVectors(cfg: Config) returns (c: Ctx)
    requires Demands(cfg)
    ensures Reached(cfg, START, c) && c.alive && c.agenda == [] && c.state.AskVlr? && c.keySeq == INVAL && c.sec.NoSec?
    ensures c.authState.Unknown? && c.subscr.Some? && !c.iu && !c.r99 && c.pending.AttachPending?
  {
    hide Reached, Work;
    var c0 := ReachKnown(cfg);
    var c1 := c0.(state := Auth, agenda := [Enter(Auth)]);
    WorkChange(cfg, c0, Auth);
    Inward(cfg, c0, c1);
    var c2 := c1.(expired := 0, agenda := [Change(AskVlr)]);
    WorkEnter(cfg, c1, Auth);
    Inward(cfg, c1, c2);
    var c3 := c2.(state := AskVlr, agenda := [Enter(AskVlr)]);
    WorkChange(cfg, c2, AskVlr);
    Inward(cfg, c2, c3);
    var c4 := c3.(agenda := [AuthRequest]);
    WorkEnter(cfg, c3, AskVlr);
    Inward(cfg, c3, c4);
    WorkAuthRequest(cfg, c4);
    c := AuthRequested(cfg, c4.(agenda := []), GOOD);
    AskedFresh(cfg, c4.(agenda := []));
    Inward(cfg, c4, c);
  }

  lemma AskedFresh(cfg: Config, c: Ctx)
    requires Demands(cfg) && c.sec.NoSec? && c.subscr.None? && c.pending.AttachPending?
    ensures AuthRequested(cfg, c, GOOD)
         == c.(subscr := Some(FOUND.(tuples := Cleared(), authPending := true)), keySeq := INVAL)
  {
    hide Cleared, FindTuple;
  }

  /** The vectors arrive and the first is sent as a challenge. */
  lemma ReachChallenged(cfg: Config) returns (c: Ctx)
    requires Demands(cfg)
    ensures Reached(cfg, START, c) && c.alive && c.agenda == [] && c.state.Auth? && c.keySeq == 0 && c.vec == VEC && c.acRef == 0
    ensures c.authState.Authenticate? && c.subscr == Some(DRAWN.(updated := false)) && !c.iu && !c.r99
    ensures c.pending.AttachPending?
  {
    hide Reached, Work, AuthUpdated, Feed;
    var c0 := ReachVectors(cfg);
    var c1 := c0.(subscr := Some(SUPPLIED), agenda := [AuthUpdate]);
    FeedHome(c0, SUPPLIED);
    Outward(cfg, c0, FromHome(SUPPLIED), c1);
    var c2 := c0.(subscr := Some(DRAWN.(updated := false)), keySeq := 0, vec := VEC, authState := Authenticate,
                  history := c0.history + [Picked(VEC)], agenda := [Dispatch(VlrAnswered)]);
    WorkAuthUpdate(cfg, c1);
    UpdateSupplied(cfg, c0);
    Inward(cfg, c1, c2);
    var c3 := c2.(agenda := [Change(Auth)]);
    WorkDispatch(cfg, c2, VlrAnswered);
    Inward(cfg, c2, c3);
    c := ReachAsking(cfg, c3);
  }

  lemma FeedHome(c: Ctx, s: Subscriber)
    requires c.agenda == [] && c.subscr.Some?
    ensures Feed(c, FromHome(s), GOOD) == c.(subscr := Some(s), agenda := [AuthUpdate])
  {
  }

  lemma DecideSupplied(cfg: Config, c: Ctx)
    requires Demands(cfg) && c.keySeq == INVAL && c.sec.NoSec? && c.authState.Unknown? && c.subscr == Some(SUPPLIED)
    ensures Decided(cfg, c, GOOD) == Decision(Pick(c, SUPPLIED, 0), true, Authenticate)
  {
    hide UseTuple, Pick;
    assert FindTuple(SUPPLIED.tuples, INVAL) == 0;
  }

  lemma UpdateSupplied(cfg: Config, c: Ctx)
    requires Demands(cfg) && c.keySeq == INVAL && c.sec.NoSec? && c.authState.Unknown? && c.state.AskVlr? && c.agenda == []
    ensures AuthUpdated(cfg, c.(subscr := Some(SUPPLIED)), GOOD)
         == c.(subscr := Some(DRAWN.(updated := false)), keySeq := 0, vec := VEC, authState := Authenticate,
               history := c.history + [Picked(VEC)], agenda := [Dispatch(VlrAnswered)])
  {
    hide Settled, UseTuple, Decided, FindTuple, AuthStateOf;
    var d := c.(subscr := Some(SUPPLIED));
    var e := Pick(d, SUPPLIED, 0);
    DecideSupplied(cfg, d);
    SettleDrawn(e);
  }

  lemma SettleDrawn(c: Ctx)
    requires c.subscr == Some(DRAWN) && c.state.AskVlr? && c.agenda == [] && c.sec.NoSec?
    ensures Settled(c.(authState := Authenticate), GOOD)
         == c.(authState := Authenticate, subscr := Some(DRAWN.(updated := false)), agenda := [Dispatch(VlrAnswered)])
  {
  }

  lemma ReachAsking(cfg: Config, c: Ctx) returns (d: Ctx)
    requires cfg.policy == Remote && Reached(cfg, START, c) && c.alive && c.agenda == [Change(Auth)] && c.state.AskVlr?
    requires c.authState.Authenticate? && c.keySeq != INVAL
    ensures Reached(cfg, START, d)
    ensures d == c.(state := Auth, expired := 0, acRef := 0, reattempt := c.reattempt + 1, agenda := [],
                    history := c.history + [Challenged(c.vec)])
  {
    hide Reached, Work;
    var c1 := c.(state := Auth, agenda := [Enter(Auth)]);
    WorkChange(cfg, c, Auth);
    Inward(cfg, c, c1);
    d := c.(state := Auth, expired := 0, acRef := 0, reattempt := c.reattempt + 1, agenda := [],
            history := c.history + [Challenged(c.vec)]);
    WorkEnter(cfg, c1, Auth);
    Inward(cfg, c1, d);
  }

  /** Where the promise is made, an attach does come to its ATTACH ACCEPT. */
  lemma AcceptHappens(cfg: Config)
    requires Demands(cfg)
    ensures exists moves :: AcceptSent in Run(cfg, START, moves).history
  {
    hide Reached, Work;
    var c0 := ReachChallenged(cfg);
    var c1 := c0.(imei := true, sec := Gsm, history := c0.history + [Answer(VEC, false, VEC.sres)], agenda := [Dispatch(AuthSuccess)]);
    FeedAnswer(c0);
    Outward(cfg, c0, RxAuthResponse(0, Some(VEC.sres), true, []), c1);
    var c2 := c1.(agenda := [AuthRequest, Proceed]);
    WorkDispatch(cfg, c1, AuthSuccess);
    Inward(cfg, c1, c2);
    if cfg.requireUpdateLocation {
      var c3 := c1.(subscr := Some(DRAWN.(updated := false, locationPending := true)), agenda := [Proceed]);
      WorkLocation(cfg, c2);
      Inward(cfg, c2, c3);
      ReachLocated(cfg, c3);
    } else {
      var c3 := c1.(agenda := [AuthUpdate, Proceed]);
      WorkRequestTwo(cfg, c2);
      Inward(cfg, c2, c3);
      var c4 := c1.(authState := Accepted, agenda := [Dispatch(VlrAnswered), Proceed]);
      WorkUpdateTwo(cfg, c3);
      Inward(cfg, c3, c4);
      ReachEnd(cfg, c4);
    }
  }

  lemma WorkLocation(cfg: Config, c: Ctx)
    requires Demands(cfg) && cfg.requireUpdateLocation && c.agenda == [AuthRequest, Proceed] && c.pending.AttachPending?
    requires c.subscr == Some(DRAWN.(updated := false)) && !c.sec.NoSec?
    ensures Work(cfg, c, GOOD) == c.(subscr := Some(DRAWN.(updated := false, locationPending := true)), agenda := [Proceed])
  {
    hide Dispatched, Entered, Changed, AuthUpdated, Authorized, Proceeded, RestartWith, FindTuple, UseTuple;
    assert c.agenda[1..] == [Proceed];
  }

  /** Asking the home register for the location and its answer. */
  lemma ReachLocated(cfg: Config, c: Ctx)
    requires Demands(cfg) && cfg.requireUpdateLocation && Reached(cfg, START, c) && c.alive && c.state.Auth?
    requires c.agenda == [Proceed] && !c.sec.NoSec? && !c.iu && c.authState.Authenticate? && c.keySeq == 0
    requires c.subscr == Some(DRAWN.(updated := false, locationPending := true))
    ensures exists moves :: AcceptSent in Run(cfg, START, moves).history
  {
    hide Reached, Work, AuthRequested, AuthUpdated, Feed;
    var c1 := c.(agenda := [Change(AskVlr)]);
    WorkProceed(cfg, c);
    Inward(cfg, c, c1);
    var c2 := c.(state := AskVlr, agenda := [Enter(AskVlr)]);
    WorkChange(cfg, c1, AskVlr);
    Inward(cfg, c1, c2);
    var c3 := c.(state := AskVlr, agenda := [AuthRequest]);
    WorkEnter(cfg, c2, AskVlr);
    Inward(cfg, c2, c3);
    ReachWaiting(cfg, c3);
  }

  /** The location is asked for already; nothing changes until the answer comes. */
  lemma ReachWaiting(cfg: Config, c: Ctx)
    requires Demands(cfg) && Reached(cfg, START, c) && c.alive && c.state.AskVlr? && c.agenda == [AuthRequest]
    requires !c.sec.NoSec? && !c.iu && c.authState.Authenticate? && c.keySeq == 0
    requires c.subscr.Some? && c.subscr.value.locationPending && !c.subscr.value.failed
    ensures exists moves :: AcceptSent in Run(cfg, START, moves).history
  {
    hide Reached, Work, AuthRequested, AuthUpdated, Feed;
    var c4 := c.(agenda := [AuthUpdate]);
    WorkAuthRequest(cfg, c);
    LocationAsked(cfg, c.(agenda := []));
    Inward(cfg, c, c4);
    var c5 := c.(agenda := []);
    WorkAuthUpdate(cfg, c4);
    NothingYet(cfg, c5);
    Inward(cfg, c4, c5);
    ReachAnswered(cfg, c5);
  }

  lemma WorkProceed(cfg: Config, c: Ctx)
    requires c.agenda == [Proceed] && !c.iu && !c.state.IuSecurity?
    ensures Work(cfg, c, GOOD) == c.(agenda := [Change(if NeedsLocation(cfg, c) then AskVlr else Accept)])
  {
    hide Dispatched, Entered, Changed, AuthRequested, AuthUpdated, Authorized, RestartWith, Proceeded, NeedsLocation;
    assert c.agenda[1..] == [];
    ProceedsTo(cfg, c.(agenda := []));
    SameNeeds(cfg, c);
  }

  lemma SameNeeds(cfg: Config, c: Ctx)
    ensures NeedsLocation(cfg, c.(agenda := [])) == NeedsLocation(cfg, c)
  {
  }

  lemma ProceedsTo(cfg: Config, c: Ctx)
    requires c.agenda == [] && !c.iu
    ensures Proceeded(cfg, c) == c.(agenda := [Change(if NeedsLocation(cfg, c) then AskVlr else Accept)])
  {
    hide NeedsLocation;
  }

  lemma LocationAsked(cfg: Config, c: Ctx)
    requires Demands(cfg) && c.agenda == [] && !c.sec.NoSec?
    requires c.subscr.Some? && c.subscr.value.locationPending && !c.subscr.value.failed
    ensures AuthRequested(cfg, c, GOOD) == c.(agenda := [AuthUpdate])
  {
    hide FindTuple, UseTuple, AskTuples, Pick;
  }

  lemma NothingYet(cfg: Config, c: Ctx)
    requires Demands(cfg) && c.authState.Authenticate? && c.keySeq == 0 && c.subscr.Some? && c.subscr.value.locationPending
    ensures AuthUpdated(cfg, c, GOOD) == c
  {
    hide Refilled, Settled;
    assert Decided(cfg, c, GOOD) == Decision(c, true, Authenticate);
  }

  lemma ReachAnswered(cfg: Config, c: Ctx)
    requires Demands(cfg) && Reached(cfg, START, c) && c.alive && c.state.AskVlr? && c.agenda == []
    requires !c.sec.NoSec? && !c.iu && c.authState.Authenticate? && c.subscr.Some?
    ensures exists moves :: AcceptSent in Run(cfg, START, moves).history
  {
    hide Reached, Work, AuthUpdated, Feed, Dispatched;
    var c1 := c.(subscr := Some(FOUND), agenda := [AuthUpdate]);
    FeedHome(c, FOUND);
    Outward(cfg, c, FromHome(FOUND), c1);
    var c2 := c.(subscr := Some(FOUND), authState := Accepted, agenda := [Dispatch(VlrAnswered)]);
    WorkAuthUpdate(cfg, c1);
    UpdateFound(cfg, c.(subscr := Some(FOUND)));
    Inward(cfg, c1, c2);
    var c3 := c2.(agenda := [Proceed]);
    WorkDispatch(cfg, c2, VlrAnswered);
    FoundDispatched(cfg, c2.(agenda := []));
    Inward(cfg, c2, c3);
    ReachLast(cfg, c3);
  }

  lemma UpdateFound(cfg: Config, c: Ctx)
    requires Demands(cfg) && c.agenda == [] && c.state.AskVlr? && c.authState.Authenticate? && c.subscr == Some(FOUND)
    requires !c.sec.NoSec?
    ensures AuthUpdated(cfg, c, GOOD) == c.(authState := Accepted, agenda := [Dispatch(VlrAnswered)])
  {
    hide Refilled, Denial;
    assert Decided(cfg, c, GOOD) == Decision(c, true, Accepted) by { hide Settled; }
  }

  lemma FoundDispatched(cfg: Config, c: Ctx)
    requires c.state.AskVlr? && !c.sec.NoSec? && c.agenda == []
    ensures Dispatched(cfg, c, VlrAnswered) == c.(agenda := [Proceed])
  {
  }

  lemma ReachLast(cfg: Config, c: Ctx)
    requires Reached(cfg, START, c) && c.alive && c.state.AskVlr? && c.agenda == [Proceed] && !c.iu && c.subscr == Some(FOUND)
    ensures exists moves :: AcceptSent in Run(cfg, START, moves).history
  {
    hide Reached, Work;
    var c1 := c.(agenda := [Change(Accept)]);
    WorkProceed(cfg, c);
    Inward(cfg, c, c1);
    var c2 := c.(state := Accept, agenda := [Enter(Accept)]);
    WorkChange(cfg, c1, Accept);
    Inward(cfg, c1, c2);
    var c3 := c2.(expired := 0, pending := NoRequest, history := c.history + [AcceptSent], agenda := []);
    WorkEnter(cfg, c2, Accept);
    Inward(cfg, c2, c3);
    assert c3.history[|c.history|] == AcceptSent;
    ReachedRun(cfg, c3);
  }

  lemma FeedAnswer(c: Ctx)
    requires c.agenda == [] && c.keySeq == 0 && c.acRef == 0 && c.vec == VEC && !c.r99
    ensures Feed(c, RxAuthResponse(0, Some(VEC.sres), true, []), GOOD)
         == c.(imei := true, sec := Gsm, history := c.history + [Answer(VEC, false, VEC.sres)], agenda := [Dispatch(AuthSuccess)])
  {
    assert ResponseOctets(VEC.sres, []) == VEC.sres;
  }

  lemma WorkRequestTwo(cfg: Config, c: Ctx)
    requires Demands(cfg) && !cfg.requireUpdateLocation && c.agenda == [AuthRequest, Proceed]
    requires c.subscr == Some(DRAWN.(updated := false)) && !c.sec.NoSec?
    ensures Work(cfg, c, GOOD) == c.(agenda := [AuthUpdate, Proceed])
  {
    hide Dispatched, Entered, Changed, AuthUpdated, Authorized, Proceeded, RestartWith, FindTuple, UseTuple;
    assert c.agenda[1..] == [Proceed];
    assert [AuthUpdate] + [Proceed] == [AuthUpdate, Proceed];
  }

  lemma WorkUpdateTwo(cfg: Config, c: Ctx)
    requires Demands(cfg) && c.agenda == [AuthUpdate, Proceed] && c.state.Auth? && c.authState.Authenticate?
    requires c.subscr == Some(DRAWN.(updated := false)) && !c.sec.NoSec?
    ensures Work(cfg, c, GOOD) == c.(authState := Accepted, agenda := [Dispatch(VlrAnswered), Proceed])
  {
    hide Dispatched, Entered, Changed, AuthRequested, AuthUpdated, Authorized, Proceeded, RestartWith;
    assert c.agenda[1..] == [Proceed];
    UpdateDrawn(cfg, c.(agenda := [Proceed]));
  }

  lemma UpdateDrawn(cfg: Config, c: Ctx)
    requires Demands(cfg) && c.agenda == [Proceed] && c.state.Auth? && c.authState.Authenticate?
    requires c.subscr == Some(DRAWN.(updated := false)) && !c.sec.NoSec?
    ensures AuthUpdated(cfg, c, GOOD) == c.(authState := Accepted, agenda := [Dispatch(VlrAnswered), Proceed])
  {
    hide Refilled, UseTuple, Denial;
    assert Decided(cfg, c, GOOD) == Decision(c, true, Accepted) by { hide Settled; }
    assert [Dispatch(VlrAnswered)] + [Proceed] == [Dispatch(VlrAnswered), Proceed];
  }

  lemma ReachEnd(cfg: Config, c: Ctx)
    requires Demands(cfg) && !cfg.requireUpdateLocation && Reached(cfg, START, c) && c.alive && c.state.Auth?
    requires c.agenda == [Dispatch(VlrAnswered), Proceed] && !c.sec.NoSec? && !c.iu
    ensures exists moves :: AcceptSent in Run(cfg, START, moves).history
  {
    hide Reached, Work;
    var c1 := c.(agenda := [Proceed, Proceed]);
    WorkEnd(cfg, c, Dispatch(VlrAnswered), [Proceed]);
    Inward(cfg, c, c1);
    var c2 := c.(agenda := [Change(Accept), Proceed]);
    WorkEnd(cfg, c1, Proceed, [Change(Accept)]);
    Inward(cfg, c1, c2);
    var c3 := c.(state := Accept, agenda := [Enter(Accept), Proceed]);
    WorkAcceptTwo(cfg, c2);
    Inward(cfg, c2, c3);
    var c4 := c3.(expired := 0, pending := NoRequest, history := c.history + [AcceptSent], agenda := [Proceed]);
    WorkSendTwo(cfg, c3);
    Inward(cfg, c3, c4);
    assert c4.history[|c.history|] == AcceptSent;
    ReachedRun(cfg, c4);
  }

  lemma ReachedRun(cfg: Config, c: Ctx)
    requires Reached(cfg, START, c) && AcceptSent in c.history
    ensures exists moves :: AcceptSent in Run(cfg, START, moves).history
  {
  }

  lemma WorkEnd(cfg: Config, c: Ctx, t: Task, next: seq<Task>)
    requires !cfg.requireUpdateLocation && c.state.Auth? && !c.sec.NoSec? && !c.iu && c.agenda == [t, Proceed]
    requires (t == Dispatch(VlrAnswered) && next == [Proceed]) || (t == Proceed && next == [Change(Accept)])
    ensures Work(cfg, c, GOOD) == c.(agenda := next + [Proceed])
  {
    hide Entered, Changed, AuthRequested, AuthUpdated, Authorized, RestartWith;
    assert c.agenda[1..] == [Proceed];
  }

  lemma WorkAcceptTwo(cfg: Config, c: Ctx)
    requires c.agenda == [Change(Accept), Proceed] && c.state.Auth?
    ensures Work(cfg, c, GOOD) == c.(state := Accept, agenda := [Enter(Accept), Proceed])
  {
    hide Dispatched, Entered, AuthRequested, AuthUpdated, Authorized, Proceeded, RestartWith;
    assert c.agenda[1..] == [Proceed] && [Enter(Accept)] + [Proceed] == [Enter(Accept), Proceed];
  }

  lemma WorkSendTwo(cfg: Config, c: Ctx)
    requires c.agenda == [Enter(Accept), Proceed]
    ensures Work(cfg, c, GOOD)
         == c.(expired := 0, pending := NoRequest, history := c.history + [AcceptSent], agenda := [Proceed])
  {
    hide Dispatched, Changed, AuthRequested, AuthUpdated, Authorized, Proceeded, RestartWith;
    assert c.agenda[1..] == [Proceed];
  }
}
