/** The hand-over of a parsed HTTP request from the API thread to the main loop (src/sgsn/sgsn_api.c), as the atomic
    steps of the two threads: each locked section is one step, and so is each read or write of the wake pipe. */
module ApiHandoff {
  // ---- State ----

  datatype Job = NoJob | Pending | Running | Done

  /** Where the API thread is: between requests; about to write the wake-up for a request; about to lock; waiting on
      the condition, with a deadline or without; after the wait; or gone. */
  datatype Api = ApiIdle | Waking(c: nat) | Locking(c: nat) | Waiting(c: nat, timed: bool, signalled: bool)
               | Leaving(c: nat, done: bool) | ApiGone

  /** Where the main loop is: in its poll; draining the pipe; about to look at the job; in the handler; after the
      handler; waiting for the API thread to end; or past the shutdown. */
  datatype Main = MainIdle | Draining | Checking | Handling(c: nat) | Finishing(c: nat) | Joining | MainGone

  datatype Reply = FromHandler | Unavailable

  /** `stored` are the replies put into the connection in hand; `sent` what was written for the connections 0, 1, ...
      `lost` says that the wake-up of the request in hand could not be written. */
  datatype Shared = Shared(api: Api, main: Main, job: Job, jobConn: int, pipe: nat, run: bool, lost: bool,
                           stored: seq<Reply>, sent: seq<seq<Reply>>)

  const NO_CONN := -1

  function Start(): Shared { Shared(ApiIdle, MainIdle, NoJob, NO_CONN, 0, true, false, [], []) }

  // ---- Steps ----

  datatype Write = Written | PipeFull | Broken

  datatype Move =
    | Request                 // the API thread has read a whole request and queues it
    | Wake(w: Write)          // it writes the wake-up
    | Lock                    // it locks and tests the condition for the first time
    | Return(expired: bool)   // its wait returns, spuriously, signalled or after the deadline
    | Flush                   // it stores a 503 if need be, writes the reply and closes the connection
    | Quit                    // it sees that it is to stop
    | Readable                // the main loop calls api_wake_cb
    | Read                    // it reads the pipe once
    | Take                    // it takes the job, if there is one
    | Handle                  // handle_request stores a reply
    | Finish                  // it marks the job as done and broadcasts
    | Stop                    // sgsn_api_shutdown
    | Joined                  // the API thread has ended
    | ForeignStop             // the first part of sgsn_api_shutdown, run by a third thread

  function Broadcast(a: Api): Api { if a.Waiting? then a.(signalled := true) else a }

  /** The test of the loop around the wait: wait again, or leave with the job withdrawn. */
  function Test(s: Shared, c: nat, expired: bool): Shared {
    if s.job == Done || !s.run || (expired && s.job == Pending) then
      s.(api := Leaving(c, s.job == Done), job := NoJob, jobConn := NO_CONN)
    else
      s.(api := Waiting(c, s.job == Pending, false))
  }

  function Step(s: Shared, m: Move): Shared {
    match m
    case Request =>
      if s.api.ApiIdle? then s.(api := Waking(|s.sent|), job := Pending, jobConn := |s.sent|, lost := false)
      else s
    case Wake(w) =>
      if s.api.Waking? && (w == PipeFull ==> s.pipe > 0) then
        s.(api := Locking(s.api.c), pipe := if w == Written then s.pipe + 1 else s.pipe, lost := w == Broken)
      else s
    case Lock => if s.api.Locking? then Test(s, s.api.c, false) else s
    case Return(expired) =>
      if s.api.Waiting? && (expired ==> s.api.timed) then Test(s, s.api.c, expired) else s
    case Flush =>
      if s.api.Leaving? then
        s.(api := ApiIdle, stored := [], sent := s.sent + [if s.api.done then s.stored else s.stored + [Unavailable]])
      else s
    case Quit => if s.api.ApiIdle? && !s.run then s.(api := ApiGone) else s
    case Readable => if s.main.MainIdle? && s.pipe > 0 then s.(main := Draining) else s
    case Read =>
      if !s.main.Draining? then s
      else if s.pipe == 0 then s.(main := Checking)
      else s.(pipe := if s.pipe < 16 then 0 else s.pipe - 16)
    case Take =>
      if !s.main.Checking? then s
      else if s.job == Pending && s.jobConn >= 0 then s.(main := Handling(s.jobConn), job := Running)
      else s.(main := MainIdle)
    case Handle =>
      if s.main.Handling? then s.(main := Finishing(s.main.c), stored := s.stored + [FromHandler]) else s
    case Finish => if s.main.Finishing? then s.(main := MainIdle, job := Done, api := Broadcast(s.api)) else s
    case Stop => if s.main.MainIdle? then s.(main := Joining, run := false, api := Broadcast(s.api)) else s
    case Joined => if s.main.Joining? && s.api.ApiGone? then s.(main := MainGone) else s
    case ForeignStop => s.(run := false, api := Broadcast(s.api))
  }

  function Exec(s: Shared, moves: seq<Move>): Shared
    decreases |moves|
  {
    if moves == [] then s else Exec(Step(s, moves[0]), moves[1..])
  }

  function Run(moves: seq<Move>): Shared { Exec(Start(), moves) }

  /** Only the main loop shuts the interface down. */
  predicate Domestic(moves: seq<Move>) { forall m <- moves :: m != ForeignStop }

  // ---- Safety ----

  /** The API thread is inside api_run_in_main for a connection, where it does not touch it. */
  predicate Blocked(a: Api, c: nat) { (a.Waking? || a.Locking? || a.Waiting?) && a.c == c }

  /** The main loop uses a connection only while the API thread is blocked on it. */
  predicate Exclusive(s: Shared) { s.main.Handling? || s.main.Finishing? ==> Blocked(s.api, s.main.c) }

  /** Every request that was answered got one reply, from the handler or a 503. */
  predicate OneReply(s: Shared) { forall i :: 0 <= i < |s.sent| ==> |s.sent[i]| == 1 }

  /** A pending job has a wake-up: still to be written, in the pipe, or seen by the main loop. */
  predicate WakesUp(s: Shared) {
    s.job == Pending ==> s.api.Waking? || s.lost || s.pipe > 0 || s.main.Draining? || s.main.Checking?
  }

  /** A wait that should end has been told so; one without a deadline is for a job in the main loop's hands. */
  predicate NoLostSignal(s: Shared) {
    && (s.api.Waiting? && (s.job == Done || !s.run) ==> s.api.signalled)
    && (s.api.Waiting? && !s.api.timed && !s.api.signalled ==> s.main.Handling? || s.main.Finishing?)
  }

  /** The job fields follow the two threads. */
  predicate JobOk(s: Shared) {
    && (s.main.Handling? || s.main.Finishing? <==> s.job == Running)
    && (s.job == NoJob <==> s.jobConn < 0)
    && (s.job != NoJob ==> Blocked(s.api, s.jobConn) && s.jobConn == |s.sent|)
    && (s.job == NoJob ==> s.api.ApiIdle? || s.api.Leaving? || s.api.ApiGone?)
    && (s.job == Running ==> s.main.c == s.jobConn)
    && (s.api.Leaving? ==> s.api.c == |s.sent|)
    && (s.api.Waiting? && s.job == Pending ==> s.api.timed)
  }

  /** The replies stored so far for the request in hand. */
  predicate StoredOk(s: Shared) {
    s.stored == if s.main.Finishing? || s.job == Done || (s.api.Leaving? && s.api.done) then [FromHandler] else []
  }

  /** After the shutdown the API thread is on its way out. */
  predicate StopOk(s: Shared) {
    && (s.main.Joining? || s.main.MainGone? <==> !s.run)
    && (s.main.MainGone? ==> s.api.ApiGone?) && (s.api.ApiGone? ==> !s.run)
  }

  predicate Inv(s: Shared) {
    Exclusive(s) && OneReply(s) && WakesUp(s) && NoLostSignal(s) && JobOk(s) && StoredOk(s) && StopOk(s)
  }

  lemma StepOk(s: Shared, m: Move)
    requires Inv(s) && m != ForeignStop
    ensures Inv(Step(s, m))
  {
  }

  lemma {:induction false} ExecOk(s: Shared, moves: seq<Move>)
    requires Inv(s) && Domestic(moves)
    ensures Inv(Exec(s, moves))
    decreases |moves|
  {
    hide Inv, Step;
    if moves != [] {
      assert moves[0] in moves && Domestic(moves[1..]) by { assert forall m :: m in moves[1..] ==> m in moves; }
      StepOk(s, moves[0]);
      ExecOk(Step(s, moves[0]), moves[1..]);
    }
  }

  /** In every interleaving in which the main loop does the shutdown, a connection is used by one thread at a time, each
      request gets one reply, a pending job has a wake-up on its way unless that could not be written, and no wait
      misses its signal. */
  lemma EveryInterleaving(moves: seq<Move>)
    requires Domestic(moves)
    ensures var s := Run(moves); Exclusive(s) && OneReply(s) && WakesUp(s) && NoLostSignal(s)
  {
    ExecOk(Start(), moves);
  }

  // ---- No request hangs ----

  /** A request is in hand. */
  predicate Busy(s: Shared) { s.api.Waking? || s.api.Locking? || s.api.Waiting? || s.api.Leaving? }

  /** Steps by which the request in hand is answered, from a wait on. */
  function AfterWait(s: Shared): seq<Move> {
    if s.api.Leaving? then [Flush]
    else if s.main.Handling? then [Handle, Finish, Return(false), Flush]
    else if s.main.Finishing? then [Finish, Return(false), Flush]
    else if s.job == Pending && s.run then [Return(true), Flush]
    else [Return(false), Flush]
  }

  /** `w` is what becomes of the wake-up, if it is still to be written. */
  function WayOut(s: Shared, w: Write): seq<Move> {
    if s.api.Waking? then
      var t := Step(s, Wake(w));
      [Wake(w), Lock] + AfterWait(Step(t, Lock))
    else if s.api.Locking? then [Lock] + AfterWait(Step(s, Lock))
    else AfterWait(s)
  }

  lemma ExecTwo(s: Shared, a: seq<Move>, b: seq<Move>)
    ensures Exec(s, a + b) == Exec(Exec(s, a), b)
    decreases |a|
  {
    hide Step;
    if a == [] {
      assert a + b == b;
    } else {
      assert (a + b)[1..] == a[1..] + b;
      ExecTwo(Step(s, a[0]), a[1..], b);
    }
  }

  /** The state once the request in hand is answered. */
  predicate AnsweredNext(s: Shared, t: Shared) {
    t.api.ApiIdle? && |t.sent| == |s.sent| + 1 && t.sent[..|s.sent|] == s.sent && |t.sent[|s.sent|]| == 1
  }

  /** From a wait that can end at once. */
  lemma ShortAnswers(s: Shared)
    requires Inv(s) && (s.api.Waiting? || s.api.Leaving?) && !s.main.Handling? && !s.main.Finishing?
    ensures AnsweredNext(s, Exec(s, AfterWait(s)))
  {
    ExecUnrolled(s, AfterWait(s));
  }

  lemma FinishAnswers(s: Shared)
    requires Inv(s) && s.api.Waiting? && s.main.Finishing?
    ensures AnsweredNext(s, Exec(s, AfterWait(s)))
  {
    hide Inv;
    var t := Step(s, Finish);
    StepOk(s, Finish);
    ShortAnswers(t);
    assert AfterWait(s)[1..] == AfterWait(t);
  }

  lemma HandleAnswers(s: Shared)
    requires Inv(s) && s.api.Waiting? && s.main.Handling?
    ensures AnsweredNext(s, Exec(s, AfterWait(s)))
  {
    hide Inv;
    var t := Step(s, Handle);
    StepOk(s, Handle);
    FinishAnswers(t);
    assert AfterWait(s)[1..] == AfterWait(t);
  }

  lemma AfterWaitAnswers(s: Shared)
    requires Inv(s) && (s.api.Waiting? || s.api.Leaving?)
    ensures AnsweredNext(s, Exec(s, AfterWait(s))) && Domestic(AfterWait(s))
  {
    hide Step, Exec, AnsweredNext;
    if s.api.Waiting? && s.main.Handling? {
      HandleAnswers(s);
    } else if s.api.Waiting? && s.main.Finishing? {
      FinishAnswers(s);
    } else {
      ShortAnswers(s);
    }
  }

  /** The execution of up to two moves, written out. */
  function Unrolled(s: Shared, w: seq<Move>): Shared {
    if |w| == 0 then s
    else if |w| == 1 then Step(s, w[0])
    else if |w| == 2 then Step(Step(s, w[0]), w[1])
    else s
  }

  lemma ExecUnrolled(s: Shared, w: seq<Move>)
    requires |w| <= 2
    ensures Exec(s, w) == Unrolled(s, w)
    decreases |w|
  {
    hide Step;
    if w != [] {
      ExecUnrolled(Step(s, w[0]), w[1..]);
    }
  }

  /** From every reachable state with a request in hand, and whatever becomes of its wake-up, the two threads can answer
      it with no help from outside: no interleaving ends in a deadlock. */
  lemma NeverStuck(moves: seq<Move>, w: Write)
    requires Domestic(moves) && Busy(Run(moves)) && (w == PipeFull ==> Run(moves).pipe > 0)
    ensures var s := Run(moves); Domestic(WayOut(s, w)) && AnsweredNext(s, Exec(s, WayOut(s, w)))
  {
    hide Inv, Step, AfterWait, Exec;
    var s := Run(moves);
    StartsOk();
    ExecOk(Start(), moves);
    LockWaits(s, w);
    if s.api.Waking? {
      var t := Step(s, Wake(w));
      StepOk(s, Wake(w));
      StepOk(t, Lock);
      AfterWaitAnswers(Step(t, Lock));
      ExecTwo(s, [Wake(w), Lock], AfterWait(Step(t, Lock)));
      ExecUnrolled(s, [Wake(w), Lock]);
    } else if s.api.Locking? {
      StepOk(s, Lock);
      AfterWaitAnswers(Step(s, Lock));
      ExecTwo(s, [Lock], AfterWait(Step(s, Lock)));
      ExecUnrolled(s, [Lock]);
    } else {
      AfterWaitAnswers(s);
    }
  }

  lemma StartsOk()
    ensures Inv(Start())
  {
  }

  lemma LockWaits(s: Shared, w: Write)
    requires w == PipeFull ==> s.pipe > 0
    ensures s.api.Locking? ==> var t := Step(s, Lock); (t.api.Waiting? || t.api.Leaving?) && t.sent == s.sent
    ensures s.api.Waking? ==>
      var t := Step(Step(s, Wake(w)), Lock); (t.api.Waiting? || t.api.Leaving?) && t.sent == s.sent
  {
  }

  // ---- Shutting down from elsewhere ----

  predicate Safe(s: Shared) { Exclusive(s) && OneReply(s) }

  /** The API thread reads no further request. */
  predicate NoRequest(moves: seq<Move>) { forall m <- moves :: m != Request }

  /** The main loop has the job in hand, or can still come to take it. */
  predicate MayRun(s: Shared) {
    || s.job == Running
    || (s.job == Pending && (s.api.Waking? || s.pipe > 0 || s.main.Draining? || s.main.Checking?))
  }

  /** No job of the main loop's hands can come of the request in hand. */
  predicate Calm(s: Shared) {
    && OneReply(s) && StoredOk(s) && !s.main.Handling? && !s.main.Finishing? && s.job != Running
    && (s.job != NoJob ==> s.api.Waking? || s.api.Locking? || s.api.Waiting?) && (s.api.Waking? ==> s.job == Done)
    && (s.job == Pending ==> s.pipe == 0 && !s.main.Draining? && !s.main.Checking?)
    && (s.api.Locking? || s.api.Waiting? ==> s.job != NoJob)
  }

  lemma CalmStep(s: Shared, m: Move)
    requires Calm(s) && m != Request
    ensures Calm(Step(s, m))
  {
  }

  lemma {:induction false} CalmExec(s: Shared, moves: seq<Move>)
    requires Calm(s) && NoRequest(moves)
    ensures Calm(Exec(s, moves)) && Safe(Exec(s, moves))
    decreases |moves|
  {
    hide Step;
    if moves != [] {
      assert moves[0] in moves && NoRequest(moves[1..]) by { assert forall m :: m in moves[1..] ==> m in moves; }
      CalmStep(s, moves[0]);
      CalmExec(Step(s, moves[0]), moves[1..]);
    }
  }

  /** Told to stop by another thread, while the main loop knows nothing of it. */
  predicate Adrift(s: Shared) {
    JobOk(s) && !s.run && !s.main.Joining? && !s.main.MainGone? && !s.api.ApiGone?
  }

  /** How far it is to a connection in two hands. */
  function Rank(s: Shared): nat {
    if s.job == Running then (if s.api.Waking? then 1 else 0)
    else if s.job == Pending && MayRun(s) then
      if s.main.Checking? then 2 else if s.main.Draining? then 3 else if s.api.Waking? then 5 else 4
    else if s.api.ApiIdle? then 6 else if s.api.Leaving? then 7 else if s.api.Waking? then 9 else 8
  }

  /** The next move on the way there. */
  function Astray(s: Shared): Move {
    if s.job == Running then
      if s.api.Waking? then Wake(Broken) else if s.api.Locking? then Lock else Return(false)
    else if s.job == Pending && MayRun(s) then
      if s.main.Checking? then Take else if s.main.Draining? then Read
      else if s.api.Waking? then Wake(Written) else Readable
    else if s.api.ApiIdle? then Request
    else if s.api.Leaving? then Flush
    else if s.api.Locking? then Lock
    else if s.api.Waking? then Wake(Broken)
    else Return(false)
  }

  lemma AstrayStep(s: Shared)
    requires Adrift(s)
    ensures var t := Step(s, Astray(s));
      || !Exclusive(t)
      || (Adrift(t) && (Rank(t) < Rank(s) || (Rank(t) == Rank(s) && t.pipe < s.pipe)) && (MayRun(s) ==> MayRun(t)))
    ensures Astray(s) != ForeignStop && (MayRun(s) ==> Astray(s) != Request)
  {
  }

  /** Every such state leads to a connection in two hands; with the request in hand alone if its job may still run. */
  lemma {:induction false} LeadsAstray(s: Shared) returns (moves: seq<Move>)
    requires Adrift(s)
    ensures Domestic(moves) && !Exclusive(Exec(s, moves)) && (MayRun(s) ==> NoRequest(moves))
    decreases Rank(s), s.pipe
  {
    hide Step, Adrift, Astray, Rank, MayRun, Exclusive;
    var t := Step(s, Astray(s));
    AstrayStep(s);
    if !Exclusive(t) {
      moves := [Astray(s)];
      ExecUnrolled(s, moves);
    } else {
      var rest := LeadsAstray(t);
      moves := [Astray(s)] + rest;
      assert moves[1..] == rest;
    }
  }

  lemma StopFacts(s: Shared)
    requires Inv(s)
    ensures var t := Step(s, ForeignStop);
      (if !s.run then Inv(t) else Adrift(t)) && (s.run && !MayRun(s) ==> Calm(t)) && MayRun(t) == MayRun(s)
  {
  }

  /** The first part of a shutdown run by a third thread, at any time. Over everything that can follow without a further
      request, connections are used by one thread at a time and each request gets one reply if and only if the main loop
      has shut down itself, or the job in hand is neither running nor pending with a wake-up that can still reach the
      main loop: api_wake_cb takes such a job without looking whether the interface is to stop. */
  lemma ForeignStopExact(moves: seq<Move>)
    requires Domestic(moves)
    ensures var s := Run(moves);
      (forall more | Domestic(more) && NoRequest(more) :: Safe(Exec(Step(s, ForeignStop), more))) <==> !s.run || !MayRun(s)
  {
    hide Step, Inv, Calm, Adrift, MayRun, Exclusive, Exec;
    var s := Run(moves);
    var t := Step(s, ForeignStop);
    StartsOk();
    ExecOk(Start(), moves);
    StopFacts(s);
    if s.run && MayRun(s) {
      var more := LeadsAstray(t);
      assert !Safe(Exec(t, more));
    } else {
      forall more | Domestic(more) && NoRequest(more) ensures Safe(Exec(t, more)) {
        if s.run {
          CalmExec(t, more);
        } else {
          ExecOk(t, more);
          InvSafe(Exec(t, more));
        }
      }
    }
  }

  lemma InvSafe(s: Shared)
    requires Inv(s)
    ensures Safe(s)
  {
  }

  /** With the requests that the API thread may still read before it looks whether it is to stop, such a shutdown is
      safe only when the main loop has shut down itself. */
  lemma ForeignStopNever(moves: seq<Move>)
    requires Domestic(moves)
    ensures var s := Run(moves);
      (forall more | Domestic(more) :: Safe(Exec(Step(s, ForeignStop), more))) <==> !s.run
  {
    hide Step, Inv, Calm, Adrift, MayRun, Exclusive, Exec;
    var s := Run(moves);
    var t := Step(s, ForeignStop);
    StartsOk();
    ExecOk(Start(), moves);
    StopFacts(s);
    if s.run {
      var more := LeadsAstray(t);
      assert !Safe(Exec(t, more));
    } else {
      forall more | Domestic(more) ensures Safe(Exec(t, more)) {
        ExecOk(t, more);
        InvSafe(Exec(t, more));
      }
    }
  }
}
