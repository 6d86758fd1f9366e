/** The handlers of the attach procedure as they change the context in place, each proved against its step function and
    against what a caller can rely on afterwards. */
module AttachCode {
  import opened Octet
  import opened SgsnAuth
  import opened Attach
  import opened AttachRuns

  // ---- What the handlers guarantee ----

  /** One more note, or none. */
  predicate Grew(h: seq<Note>, g: seq<Note>, n: Note) { g == h || g == h + [n] }

  predicate Calls(agenda: seq<Task>, before: seq<Task>, t: Task) { agenda == [t] + before }

  lemma RestartUnanswered(h: seq<Note>)
    ensures !Answered(h + [Restarted])
  {
    var g := h + [Restarted];
    assert g[|h|].Restarted?;
    forall p: nat, m: nat ensures !AnsweredBy(g, p, m) {
      if p <= |h| { assert !QuietFrom(g, p); }
    }
  }

  /** Starting again forgets all trust. */
  ghost predicate Forgets(c: Ctx, d: Ctx) {
    && d.sec.NoSec? && d.keySeq == INVAL && d.authState.Unknown? && d.pending.AttachPending?
    && d.history == c.history + [Restarted] && !Answered(d.history)
  }

  lemma FreshForgets(c: Ctx, msg: Octets)
    ensures Forgets(c, Fresh(c, msg)) && Fresh(c, msg).agenda == c.agenda
  {
    hide Answered;
    RestartUnanswered(c.history);
  }

  lemma FirstCallForgets(c: Ctx, d: Ctx, id: IdType, t: Task)
    requires Forgets(c, d) && d.agenda == c.agenda
    ensures Forgets(c, Push(d.(idType := id), [t])) && Calls(Push(d.(idType := id), [t]).agenda, c.agenda, t)
  {
    hide Answered;
  }

  lemma RestartForgets(cfg: Config, c: Ctx, msg: Octets)
    ensures var d := RestartWith(cfg, c, msg);
      && Forgets(c, d)
      && (cfg.requireAuth ==> Calls(d.agenda, c.agenda, Change(Identity)) || Calls(d.agenda, c.agenda, Change(Auth)))
  {
    hide Forgets, Fresh, Push, Calls;
    var d := Fresh(c, msg);
    FreshForgets(c, msg);
    FirstCallForgets(c, d, Imei, Change(Identity));
    FirstCallForgets(c, d, Imsi, Change(Identity));
    FirstCallForgets(c, d, d.idType, Change(AfterIdentity(cfg)));
    assert d.(idType := d.idType) == d;
  }

  lemma RestartCases(cfg: Config, c: Ctx, msg: Octets)
    ensures Fresh(c, msg).imsi == c.imsi
    ensures Fresh(c, msg) == Log(c.(saved := Some(msg), authState := Unknown, sec := NoSec, keySeq := INVAL,
                                    reattempt := 0, pending := AttachPending), Restarted)
    ensures var d := Fresh(c, msg);
      RestartWith(cfg, c, msg) ==
        if cfg.requireImei then Push(d.(idType := Imei), [Change(Identity)])
        else if !c.imsi then Push(d.(idType := Imsi), [Change(Identity)])
        else if cfg.requireAuth then Push(d, [Change(Auth)])
        else Push(d, [Change(Accept)])
  {
    hide Push;
  }

  lemma RestartInv(cfg: Config, c: Ctx, msg: Octets)
    requires Demands(cfg) && Inv(c) && c.agenda == [] && (c.state.Init? || c.state.Reject?)
    ensures Inv(RestartWith(cfg, c, msg))
  {
    hide Inv, RestartWith, OnlyAnswered, TrustOk;
    InvParts(c);
    RestartOk(cfg, c, msg);
  }

  /** Entering the authentication state accepts at once only a handset that has answered, and challenges only with a
      valid vector. */
  ghost predicate AuthEntered(c: Ctx, d: Ctx) {
    && d.state == c.state && d.authState == c.authState && d.sec == c.sec
    && Grew(c.history, d.history, Challenged(c.vec))
    && (d.history != c.history ==> c.keySeq != INVAL && c.authState.Authenticate?)
    && (Calls(d.agenda, c.agenda, Change(Accept)) ==> Answered(d.history))
  }

  lemma CallEntered(c: Ctx, t: Task)
    requires t == Change(Accept) ==> Answered(c.history)
    ensures AuthEntered(c, Push(c.(expired := 0), [t]))
  {
    hide Answered;
    if t != Change(Accept) { OtherCall(c.agenda, t); }
  }

  lemma ChallengeEntered(c: Ctx, d: Ctx, env: Env)
    requires c.keySeq != INVAL && c.authState.Authenticate? && d == Challenge(c.(expired := 0), env)
    ensures AuthEntered(c, d.(reattempt := c.reattempt + 1)) && AuthEntered(c, Refuse(d, NET_FAIL))
  {
    hide Answered, Challenge;
    ChallengeHistory(c.(expired := 0), env);
    OtherCall(c.agenda, Dispatch(Rejection(NET_FAIL)));
  }

  lemma EnteredAuthMeaning(cfg: Config, c: Ctx, env: Env)
    requires Demands(cfg) && (c.authState.Accepted? ==> Answered(c.history))
    ensures AuthEntered(c, Entered(cfg, c, Auth, env))
  {
    hide Answered, AuthEntered, Challenge, Push;
    CallEntered(c, Change(AskVlr));
    match c.authState
    case Accepted => CallEntered(c, Change(Accept));
    case Rejected => CallEntered(c, Dispatch(Rejection(NOT_ALLOWED)));
    case Authenticate => if c.keySeq != INVAL { ChallengeEntered(c, Challenge(c.(expired := 0), env), env); }
    case _ =>
  }

  lemma AuthEnteredMeaning(cfg: Config, c: Ctx, env: Env)
    requires Demands(cfg) && Ready(c)
    ensures AuthEntered(c, Entered(cfg, c, Auth, env)) && Ready(Entered(cfg, c, Auth, env))
  {
    hide Ready, Answered, Fits, AuthEntered, Entered;
    TrustFacts(c);
    EnterAuthFits(c);
    EnteredReady(cfg, c, Auth, env);
    EnteredAuthMeaning(cfg, c, env);
  }

  lemma OtherCall(agenda: seq<Task>, t: Task)
    requires t != Change(Accept)
    ensures !Calls([t] + agenda, agenda, Change(Accept)) && !Calls(agenda, agenda, Change(Accept))
  {
    assert ([t] + agenda)[0] == t && ([Change(Accept)] + agenda)[0] == Change(Accept);
    assert |[Change(Accept)] + agenda| == |agenda| + 1;
  }

  lemma EnterAuthFits(c: Ctx)
    ensures Fits(c.history, c.pending, Enter(Auth))
  {
  }

  /** The vector was one of the subscriber's unused ones. */
  ghost predicate WasUnused(s: Subscriber, v: Vector) {
    exists k :: 0 <= k < SLOTS && Usable(s.tuples[k]) && s.tuples[k].vec == v
  }

  /** A request or an update of authorization sends nothing and trusts no more than before: a vector taken was not used
      yet, and the handset becomes accepted only once it is authenticated. */
  ghost predicate NoMoreTrust(c: Ctx, d: Ctx, s: Maybe<Subscriber>) {
    && d.state == c.state && Grew(c.history, d.history, Picked(d.vec)) && (d.sec == c.sec || d.sec.NoSec?)
    && (d.history != c.history ==> s.Some? && WasUnused(s.value, d.vec) && d.keySeq != INVAL)
    && (d.authState.Accepted? && !c.authState.Accepted? ==> !c.sec.NoSec? && d.sec == c.sec)
  }

  lemma PickMeaning(c: Ctx, s: Subscriber)
    ensures var k := FindTuple(s.tuples, c.keySeq);
      -1 <= k < SLOTS && (k >= 0 ==> NoMoreTrust(c, Pick(c, s, k), Some(s)))
  {
    hide FindTuple;
    FoundIff(s.tuples, c.keySeq);
  }

  lemma AskLocationMeaning(c: Ctx, d: Ctx, needs: bool, s: Maybe<Subscriber>)
    requires d.subscr.Some? && NoMoreTrust(c, d, s)
    ensures NoMoreTrust(c, AskLocation(d, needs), s)
  {
    hide WasUnused;
  }

  lemma AskTuplesMeaning(c: Ctx, env: Env, s: Maybe<Subscriber>)
    requires c.subscr.Some?
    ensures NoMoreTrust(c, AskTuples(c, env), s)
  {
    hide WasUnused, Cleared;
  }

  lemma CallMeaning(c: Ctx, s: Maybe<Subscriber>)
    ensures NoMoreTrust(c, Push(c, [AuthUpdate]), s) && NoMoreTrust(c, c, s)
  {
    hide WasUnused;
  }

  lemma RequestingMeaning(cfg: Config, c: Ctx, needs: bool, env: Env)
    requires c.subscr.Some?
    ensures NoMoreTrust(c, Requesting(cfg, c, needs, env), c.subscr)
  {
    hide NoMoreTrust, FindTuple, AskLocation, AskTuples, Pick, Denied, Push;
    var s := c.subscr.value;
    CallMeaning(c, c.subscr);
    PickMeaning(c, s);
    AskTuplesMeaning(c, env, c.subscr);
    AskLocationMeaning(c, c, needs, c.subscr);
    var k := FindTuple(s.tuples, c.keySeq);
    if k >= 0 {
      PickRecords(c, s, k);
      AskLocationMeaning(c, Pick(c, s, k), needs, c.subscr);
    }
  }

  lemma AuthRequestedMeaning(cfg: Config, c: Ctx, env: Env)
    requires Demands(cfg) && Ready(c)
    ensures var d := AuthRequested(cfg, c, env); Ready(d) && NoMoreTrust(c, d, Some(Subscribed(c, env)))
  {
    hide Ready, WasUnused, Requesting, Subscribed;
    AuthRequestedReady(cfg, c, env);
    var s := Subscribed(c, env);
    RequestingMeaning(cfg, Record(c, s), cfg.requireUpdateLocation && (c.subscr.None? || c.pending.AttachPending?), env);
  }

  lemma AskedMeaning(c: Ctx, s: Subscriber)
    ensures NoMoreTrust(c, Record(c, s).(sec := NoSec), c.subscr)
  {
    hide WasUnused;
  }

  lemma RefilledMeaning(cfg: Config, c: Ctx, env: Env)
    ensures NoMoreTrust(c, Refilled(cfg, c, env).c, c.subscr) && !Refilled(cfg, c, env).st.Accepted?
  {
    hide NoMoreTrust, FindTuple, Pick, Record;
    CallMeaning(c, c.subscr);
    if c.subscr.Some? {
      PickMeaning(c, c.subscr.value);
      AskedMeaning(c, c.subscr.value.(authPending := env.queued));
    }
  }

  lemma DecidedMeaning(cfg: Config, c: Ctx, env: Env)
    requires Demands(cfg)
    ensures var r := Decided(cfg, c, env);
      NoMoreTrust(c, r.c, c.subscr) && (r.st.Accepted? && !c.authState.Accepted? ==> r.c == c && !c.sec.NoSec?)
  {
    hide NoMoreTrust, Refilled, AuthStateOf, UpdatePending;
    var st := AuthStateOf(cfg, c.subscr, c.sec, c.authState, c.imsi, env.home, env.listed);
    if st.Accepted? { AcceptedWhen(cfg, c, env); }
    CallMeaning(c, c.subscr);
    RefilledMeaning(cfg, c, env);
  }

  predicate Alike(c: Ctx, d: Ctx) {
    && d.state == c.state && d.history == c.history && d.authState == c.authState && d.vec == c.vec && d.keySeq == c.keySeq
    && (d.sec == c.sec || (d.sec.NoSec? && c.authState.Authenticate?))
  }

  lemma PushAlike(c: Ctx, tasks: seq<Task>)
    ensures Alike(c, Push(c, tasks)) && Alike(c, Died(c)) && Alike(c, c)
  {
  }

  lemma DenialAlike(c: Ctx, cause: Cause, env: Env)
    ensures Alike(c, Denial(c, cause, env))
  {
    hide Push, Died, Alike;
    PushAlike(c, [Dispatch(Rejection(cause))]);
  }

  lemma SettledMeaning(c: Ctx, env: Env)
    ensures Alike(c, Settled(c, env))
  {
    hide Denial, Died, Alike;
    PushAlike(c, [Dispatch(VlrAnswered)]);
    DenialAlike(c, NOT_ALLOWED, env);
    if c.subscr.Some? { DenialAlike(c, Gmm(c.subscr.value.cause), env); }
    if c.authState.Authenticate? { SettledAlike(c, env); }
  }

  lemma SettledAlike(c: Ctx, env: Env)
    requires c.authState.Authenticate?
    ensures Alike(c, Settled(c, env))
  {
    hide Denial, Died, Push, Record, Alike;
    var d := if c.subscr.Some? then Record(c, c.subscr.value.(updated := false)) else c;
    UnsecuredAlike(c, d);
    AlikePush(c, d.(sec := NoSec), if !c.state.Init? then Dispatch(VlrAnswered) else Authorize);
  }

  lemma UnsecuredAlike(c: Ctx, d: Ctx)
    requires c.authState.Authenticate? && (d == c || exists s :: d == Record(c, s))
    ensures Alike(c, d.(sec := NoSec))
  {
  }

  lemma AlikePush(c: Ctx, d: Ctx, t: Task)
    requires Alike(c, d)
    ensures Alike(c, Push(d, [t]))
  {
  }

  lemma SettleTrust(c: Ctx, r: Ctx, d: Ctx, st: AuthState, s: Maybe<Subscriber>)
    requires NoMoreTrust(c, r, s) && Alike(r.(authState := st), d)
    requires st.Accepted? && !c.authState.Accepted? ==> r == c && !c.sec.NoSec?
    ensures NoMoreTrust(c, d, s)
  {
    hide WasUnused;
  }

  lemma AuthUpdatedMeaning(cfg: Config, c: Ctx, env: Env)
    requires Demands(cfg) && Ready(c)
    ensures var d := AuthUpdated(cfg, c, env); Ready(d) && NoMoreTrust(c, d, c.subscr)
  {
    hide Ready, NoMoreTrust, Decided, Settled, Alike;
    AuthUpdatedReady(cfg, c, env);
    DecidedMeaning(cfg, c, env);
    var r := Decided(cfg, c, env);
    if r.final && r.st != r.c.authState {
      var e := r.c.(authState := r.st);
      SettledMeaning(e, env);
      SettleTrust(c, r.c, Settled(e, env), r.st, c.subscr);
    }
  }

  lemma ResponseReady(c: Ctx, ref: Octet, sres: Maybe<Sres>, imeisv: bool, ext: Octets)
    requires Ready(c)
    ensures var d := AuthResponse(c, ref, sres, imeisv, ext);
      Ready(d) && (d.history != c.history ==> Answered(d.history))
  {
    hide CheckAuthResp, ResponseOctets, Ready, Answered;
    AuthResponseReady(c, ref, sres, imeisv, ext);
    TrustFacts(AuthResponse(c, ref, sres, imeisv, ext));
  }

  lemma OneNote(h: seq<Note>)
    ensures h != h + [AcceptSent] && forall v :: h + [Challenged(v)] != h + [AcceptSent]
  {
    assert (h + [AcceptSent])[|h|] == AcceptSent;
    forall v ensures h + [Challenged(v)] != h + [AcceptSent] {
      assert (h + [Challenged(v)])[|h|] == Challenged(v);
    }
  }

  /** What an expiry of the attach timer sends: the ATTACH ACCEPT in the accepting state alone, a challenge in the
      authentication state alone; the fifth one ends the attach wherever the handset is waited for. */
  ghost predicate Repeated(c: Ctx, d: Ctx) {
    && (d.history == c.history + [AcceptSent] <==> c.state.Accept? && c.expired < 4 && (c.iu ==> c.ueCtx))
    && (d.history != c.history && d.history != c.history + [AcceptSent]
        ==> d.history == c.history + [Challenged(c.vec)] && c.state.Auth?)
    && (c.expired >= 4 && (c.state.Identity? || c.state.Auth? || c.state.Accept?)
        ==> exists cause :: Calls(d.agenda, c.agenda, Dispatch(Rejection(cause))))
  }

  lemma RefusedRepeated(c: Ctx, d: Ctx, cause: Cause)
    requires d.history == c.history && d.agenda == c.agenda
    requires c.state.Accept? && (c.iu ==> c.ueCtx) ==> c.expired >= 4
    ensures Repeated(c, Refuse(d, cause))
  {
    OneNote(c.history);
    assert Calls(Refuse(d, cause).agenda, c.agenda, Dispatch(Rejection(cause)));
  }

  lemma SentRepeated(c: Ctx, d: Ctx)
    requires d.agenda == c.agenda && c.expired < 4 && (c.iu ==> c.ueCtx)
    requires (c.state.Accept? && d.history == c.history + [AcceptSent])
          || (c.state.Auth? && (d.history == c.history || d.history == c.history + [Challenged(c.vec)]))
    ensures Repeated(c, d)
  {
    OneNote(c.history);
  }

  lemma NothingRepeated(c: Ctx, d: Ctx)
    requires d.history == c.history && !c.state.Accept?
    requires c.expired < 4 || !(c.state.Identity? || c.state.Auth?)
    ensures Repeated(c, d)
  {
    OneNote(c.history);
  }

  lemma ChallengeHistory(c: Ctx, env: Env)
    ensures Challenge(c, env).agenda == c.agenda && Challenge(c, env).state == c.state
    ensures Challenge(c, env).authState == c.authState && Challenge(c, env).sec == c.sec
    ensures if env.sent then Challenge(c, env).history == c.history + [Challenged(c.vec)] else Challenge(c, env).history == c.history
  {
    if env.sent { assert Challenge(c, env) == Log(c.(acRef := env.ref), Challenged(c.vec)); }
    else { assert Challenge(c, env) == c.(acRef := env.ref); }
  }

  lemma LogHistory(c: Ctx, n: Note)
    ensures Log(c, n).history == c.history + [n] && Log(c, n).agenda == c.agenda
  {
  }

  lemma TimerMeaning(c: Ctx, env: Env)
    ensures Repeated(c, AttachTimedOut(c, env))
  {
    hide Repeated, Refuse, Challenge, Log;
    var d := c.(expired := c.expired + 1);
    ChallengeHistory(d, env);
    LogHistory(d, AcceptSent);
    if c.iu && !c.state.AskVlr? && !c.ueCtx {
      RefusedRepeated(c, d, Discard);
    } else {
      match c.state
      case AskVlr => RefusedRepeated(c, d, NET_FAIL);
      case Identity => if d.expired >= 5 { RefusedRepeated(c, d, ID_NOT_DERIVED); } else { NothingRepeated(c, d); }
      case Auth => if d.expired >= 5 { RefusedRepeated(c, d, Discard); } else { SentRepeated(c, Challenge(d, env)); }
      case Accept => if d.expired >= 5 { RefusedRepeated(c, d, Discard); } else { SentRepeated(c, Log(d, AcceptSent)); }
      case _ => NothingRepeated(c, d);
    }
  }

  class MmContext {
    var ctx: Ctx

    constructor (c: Ctx)
      ensures ctx == c
    {
      ctx := c;
    }

    method Call(t: Task)
      modifies this
      ensures ctx == Push(old(ctx), [t])
    {
      ctx := ctx.(agenda := [t] + ctx.agenda);
    }

    method Note(n: Note)
      modifies this
      ensures ctx == Log(old(ctx), n)
    {
      ctx := ctx.(history := ctx.history + [n]);
    }

    /** st_init. */
    method StInit(cfg: Config, msg: Octets)
      modifies this
      ensures ctx == RestartWith(cfg, old(ctx), msg)
      ensures Forgets(old(ctx), ctx)
      ensures cfg.requireAuth ==>
        Calls(ctx.agenda, old(ctx.agenda), Change(Identity)) || Calls(ctx.agenda, old(ctx.agenda), Change(Auth))
      ensures Demands(cfg) && Inv(old(ctx)) && old(ctx).agenda == [] && (old(ctx.state.Init?) || old(ctx.state.Reject?))
        ==> Inv(ctx)
    {
      hide Forgets, Inv, Calls, Push, Log, Fresh, RestartWith;
      ghost var forgotten := Fresh(ctx, msg);
      RestartCases(cfg, ctx, msg);
      RestartForgets(cfg, ctx, msg);
      if Demands(cfg) && Inv(ctx) && ctx.agenda == [] && (ctx.state.Init? || ctx.state.Reject?) { RestartInv(cfg, ctx, msg); }
      ctx := ctx.(saved := Some(msg), authState := Unknown, sec := NoSec, keySeq := INVAL, reattempt := 0,
                  pending := AttachPending);
      Note(Restarted);
      assert ctx == forgotten;
      if cfg.requireImei {
        ctx := ctx.(idType := Imei);
        Call(Change(Identity));
      } else if !ctx.imsi {
        ctx := ctx.(idType := Imsi);
        Call(Change(Identity));
      } else if cfg.requireAuth {
        Call(Change(Auth));
      } else {
        Call(Change(Accept));
      }
    }

    /** gsm48_tx_gmm_auth_ciph_req. */
    method SendChallenge(env: Env) returns (ok: bool)
      modifies this
      ensures ctx == Challenge(old(ctx), env) && ok == env.sent
    {
      ctx := ctx.(acRef := env.ref);
      ok := env.sent;
      if ok { Note(Challenged(ctx.vec)); }
    }

    /** st_auth_on_enter. */
    method StAuthOnEnter(cfg: Config, env: Env)
      modifies this
      ensures ctx == Entered(cfg, old(ctx), Auth, env)
      ensures Demands(cfg) && Ready(old(ctx)) ==> Ready(ctx) && AuthEntered(old(ctx), ctx)
    {
      hide Ready, AuthEntered;
      if Demands(cfg) && Ready(ctx) { AuthEnteredMeaning(cfg, ctx, env); }
      ctx := ctx.(expired := 0);
      var st := ctx.authState;
      if cfg.policy != Remote { st := AuthStateOf(cfg, ctx.subscr, ctx.sec, ctx.authState, ctx.imsi, env.home, env.listed); }
      match st {
        case Unknown => Call(Change(AskVlr));
        case UmtsResync => Call(Change(AskVlr));
        case Rejected => Call(Dispatch(Rejection(NOT_ALLOWED)));
        case Accepted => Call(Change(Accept));
        case Authenticate =>
          if ctx.keySeq == INVAL {
            Call(Change(AskVlr));
            return;
          }
          var ok := SendChallenge(env);
          if !ok {
            Call(Dispatch(Rejection(NET_FAIL)));
            return;
          }
          ctx := ctx.(reattempt := ctx.reattempt + 1);
      }
    }

    /** Taking the next tuple of the subscriber's five, if there is one. */
    method TakeTuple() returns (found: bool)
      requires ctx.subscr.Some?
      modifies this
      ensures -1 <= FindTuple(old(ctx.subscr.value.tuples), old(ctx.keySeq)) < SLOTS
      ensures found == (FindTuple(old(ctx.subscr.value.tuples), old(ctx.keySeq)) >= 0)
      ensures ctx.subscr.Some? && (!found ==> ctx == old(ctx))
      ensures found ==>
        ctx == Pick(old(ctx), old(ctx.subscr.value), FindTuple(old(ctx.subscr.value.tuples), old(ctx.keySeq)))
    {
      var s := ctx.subscr.value;
      FoundIff(s.tuples, ctx.keySeq);
      var slots := new Tuple[SLOTS](i requires 0 <= i < SLOTS => s.tuples[i]);
      assert slots[..] == s.tuples;
      var k := GetTuple(slots, ctx.keySeq);
      found := k >= 0;
      if found {
        ctx := ctx.(subscr := Some(s.(tuples := slots[..])));
        ctx := ctx.(keySeq := s.tuples[k].keySeq, vec := s.tuples[k].vec);
        Note(Picked(ctx.vec));
      }
    }

    /** Forgetting the current tuple and asking the home register for new ones. */
    method AskForTuples(env: Env)
      requires ctx.subscr.Some?
      modifies this
      ensures ctx == AskTuples(old(ctx), env)
    {
      hide Cleared;
      ctx := ctx.(sec := NoSec, keySeq := INVAL);
      var s := ctx.subscr.value;
      if ctx.pending.AttachPending? { s := s.(tuples := Cleared(), updated := false); }
      ctx := ctx.(subscr := Some(s.(authPending := env.queued)));
    }

    method AskForLocation(needs: bool)
      requires ctx.subscr.Some?
      modifies this
      ensures ctx == AskLocation(old(ctx), needs)
    {
      if needs && !ctx.subscr.value.locationPending {
        ctx := ctx.(subscr := Some(ctx.subscr.value.(locationPending := true)));
      } else {
        Call(AuthUpdate);
      }
    }

    /** Which request to the home register comes next. */
    method RequestNext(cfg: Config, needs: bool, env: Env)
      requires ctx.subscr.Some?
      modifies this
      ensures ctx == Requesting(cfg, old(ctx), needs, env)
    {
      hide AskLocation, AskTuples, FindTuple, Denied, Pick, UseTuple;
      if Denied(ctx.subscr.value) {
        Call(AuthUpdate);
        return;
      }
      if cfg.requireAuthentication && ctx.sec.NoSec? {
        var found := false;
        if !ctx.pending.AttachPending? { found := TakeTuple(); }
        if !found {
          AskForTuples(env);
          return;
        }
      }
      AskForLocation(needs);
    }

    /** sgsn_auth_request. */
    method SgsnAuthRequest(cfg: Config, env: Env)
      modifies this
      ensures ctx == AuthRequested(cfg, old(ctx), env)
      ensures Demands(cfg) && Ready(old(ctx)) ==>
        Ready(ctx) && NoMoreTrust(old(ctx), ctx, Some(Subscribed(old(ctx), env)))
    {
      hide Requesting, Ready, NoMoreTrust;
      if Demands(cfg) && Ready(ctx) { AuthRequestedMeaning(cfg, ctx, env); }
      if cfg.policy != Remote {
        Call(AuthUpdate);
        return;
      }
      var needs := cfg.requireUpdateLocation && (ctx.subscr.None? || ctx.pending.AttachPending?);
      ctx := ctx.(subscr := Some(if ctx.subscr.None? then env.found else ctx.subscr.value));
      RequestNext(cfg, needs, env);
    }

    /** The next tuple, or a request for new ones. */
    method Refill(cfg: Config, env: Env) returns (done: bool, st: AuthState)
      modifies this
      ensures Decision(ctx, done, st) == Refilled(cfg, old(ctx), env)
    {
      hide FindTuple, Pick, UseTuple;
      done, st := true, Rejected;
      if ctx.subscr.None? { return; }
      var found := TakeTuple();
      if found {
        st := Authenticate;
        return;
      }
      var s := ctx.subscr.value;
      if cfg.policy == Remote && cfg.requireAuthentication && !s.authPending && !s.failed {
        ctx := ctx.(sec := NoSec, subscr := Some(s.(authPending := env.queued)));
        done := !env.queued;
      }
    }

    /** sgsn_auth_update up to the decision. */
    method Decide(cfg: Config, env: Env) returns (done: bool, st: AuthState)
      modifies this
      ensures Decision(ctx, done, st) == Decided(cfg, old(ctx), env)
    {
      hide AuthStateOf, Refilled, UpdatePending;
      done, st := true, AuthStateOf(cfg, ctx.subscr, ctx.sec, ctx.authState, ctx.imsi, env.home, env.listed);
      if st.Unknown? && ctx.subscr.Some? && !UpdatePending(ctx.subscr.value) {
        st := Rejected;
      } else if st.Authenticate? && ctx.keySeq == INVAL {
        done, st := Refill(cfg, env);
      }
    }

    /** sgsn_auth_update. */
    method SgsnAuthUpdate(cfg: Config, env: Env)
      modifies this
      ensures ctx == AuthUpdated(cfg, old(ctx), env)
      ensures Demands(cfg) && Ready(old(ctx)) ==> Ready(ctx) && NoMoreTrust(old(ctx), ctx, old(ctx.subscr))
    {
      hide Settled, Decided, Ready, NoMoreTrust;
      if Demands(cfg) && Ready(ctx) { AuthUpdatedMeaning(cfg, ctx, env); }
      var done, st := Decide(cfg, env);
      if !done || ctx.authState == st { return; }
      ctx := ctx.(authState := st);
      Settle(env);
    }

    /** What the new authorization state brings. */
    method Settle(env: Env)
      modifies this
      ensures ctx == Settled(old(ctx), env)
    {
      match ctx.authState {
        case Authenticate =>
          if ctx.subscr.Some? { ctx := ctx.(subscr := Some(ctx.subscr.value.(updated := false))); }
          ctx := ctx.(sec := NoSec);
          if !ctx.state.Init? { Call(Dispatch(VlrAnswered)); } else { Call(Authorize); }
        case Accepted =>
          if env.gmm.CommonProcedure? && !ctx.state.Init? { Call(Dispatch(VlrAnswered)); }
        case Rejected =>
          if ctx.subscr.Some? && ctx.subscr.value.cancelled && !ctx.subscr.value.failed {
            ctx := ctx.(alive := false, agenda := []);
            return;
          }
          var cause := if ctx.subscr.Some? && ctx.subscr.value.failed then Gmm(ctx.subscr.value.cause) else NOT_ALLOWED;
          if !env.gmm.CommonProcedure? {
            ctx := ctx.(alive := false, agenda := []);
          } else if !ctx.state.Init? {
            Call(Dispatch(Rejection(cause)));
          }
        case _ =>
      }
    }

    /** gsm48_rx_gmm_auth_ciph_resp. A response that is not the one waited for changes nothing; one that is waited for
        authenticates exactly with an expected answer to the current vector, and otherwise ends the context. */
    method RxAuthCiphResp(ref: Octet, sres: Maybe<Sres>, imeisv: bool, ext: Octets)
      modifies this
      ensures ctx == AuthResponse(old(ctx), ref, sres, imeisv, ext)
      ensures old(ctx.keySeq) == INVAL || ref != old(ctx.acRef) || sres.None? || !imeisv ==> ctx == old(ctx)
      ensures old(ctx.keySeq) != INVAL && ref == old(ctx.acRef) && sres.Some? && imeisv ==>
        var v, res := old(ctx.vec), ResponseOctets(sres.value, ext);
        if Expected(old(ctx.r99), v, res) then
          !ctx.sec.NoSec? && ctx.history == old(ctx.history) + [Answer(v, old(ctx.r99), res)]
          && Calls(ctx.agenda, old(ctx.agenda), Dispatch(AuthSuccess))
        else
          ctx.sec.NoSec? && !ctx.alive && ctx.history == old(ctx.history)
      ensures Ready(old(ctx)) ==> Ready(ctx) && (ctx.history != old(ctx.history) ==> Answered(ctx.history))
    {
      hide CheckAuthResp, ResponseOctets, Ready, Answered, Expected;
      if Ready(ctx) { ResponseReady(ctx, ref, sres, imeisv, ext); }
      if ctx.keySeq == INVAL { return; }
      if ref != ctx.acRef { return; }
      if sres.None? || !imeisv { return; }
      var res := ResponseOctets(sres.value, ext);
      var kind := CheckAuthResp(false, ctx.r99, ctx.vec, res);
      AuthRespExact(ctx.r99, ctx.vec, res);
      ctx := ctx.(imei := true, sec := kind);
      if kind.NoSec? {
        ctx := ctx.(alive := false, agenda := []);
        return;
      }
      Note(Answer(ctx.vec, ctx.r99, res));
      Call(Dispatch(AuthSuccess));
    }

    /** gmm_attach_timer_cb. The ATTACH ACCEPT is repeated in the accepting state alone; the fifth expiry ends the attach
        wherever the handset is waited for. */
    method AttachTimerCb(env: Env)
      modifies this
      ensures ctx == AttachTimedOut(old(ctx), env)
      ensures Repeated(old(ctx), ctx)
      ensures Ready(old(ctx)) ==> Ready(ctx)
    {
      hide Ready, Repeated, Push, Log, Challenge;
      if Ready(ctx) { AttachTimedOutReady(ctx, env); }
      TimerMeaning(ctx, env);
      ctx := ctx.(expired := ctx.expired + 1);
      if ctx.iu && !ctx.state.AskVlr? && !ctx.ueCtx {
        Call(Dispatch(Rejection(Discard)));
        return;
      }
      match ctx.state {
        case AskVlr => Call(Dispatch(Rejection(NET_FAIL)));
        case Identity => if ctx.expired >= 5 { Call(Dispatch(Rejection(ID_NOT_DERIVED))); }
        case Auth =>
          if ctx.expired >= 5 {
            Call(Dispatch(Rejection(Discard)));
          } else {
            var _ := SendChallenge(env);
          }
        case Accept => if ctx.expired >= 5 { Call(Dispatch(Rejection(Discard))); } else { Note(AcceptSent); }
        case _ =>
      }
    }
  }
}
