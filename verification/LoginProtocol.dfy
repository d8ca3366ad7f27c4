/** The login protocol of internal/telegram/auth/flow.go as a transition system.

    A world holds the guarded record, every attempt ever made (keyed by its generation) and
    every request ever received.  Each lock-protected region, each channel operation and each
    select arm is one event, so a run of the system is a sequence of events and every
    interleaving of any number of requests, attempts and cancellations is some sequence.

    Some fields are history only, and no event depends on them: `sent` and `received` count the
    uses of a done channel, `codeFrom` and `passFrom` remember who delivered a value, and `shown`
    lists the urls a backend has passed to onToken. */
module LoginProtocol {
  import opened Options
  import opened LoginFlow

  datatype Kind = CodeLogin | QrLogin

  /** Where the goroutine of an attempt is. */
  datatype Phase =
    | Waiting(prev: nat)           // StartQR made it; its caller waits for attempt prev to unwind
    | Unlaunched                   // its caller stopped waiting; no goroutine will ever start
    | Ready                        // its caller is about to start the goroutine
    | Running                      // inside the backend, in none of our callbacks
    | CodeEntered                  // in Code, before onCode
    | CodePublished                // onCode has run, codeReq still open
    | CodeBlocked                  // in the select of Code
    | CodeReturned(ok: bool)       // back in the backend, with a code or with ctx.Err()
    | PassEntered
    | PassPublished
    | PassBlocked
    | PassReturned(ok: bool)
    | InToken(shown: string)       // in onToken
    | Returned(result: RunResult)  // the backend has returned, finishAttempt is next
    | Recorded(result: RunResult)  // finishAttempt has run, the send on done is next
    | Exited(result: RunResult)
  {
    predicate Pending() { Waiting? || Unlaunched? }

    predicate InRun() {
      || Running? || InToken?
      || CodeEntered? || CodePublished? || CodeBlocked? || CodeReturned?
      || PassEntered? || PassPublished? || PassBlocked? || PassReturned?
    }

    predicate PastRun() { Returned? || Recorded? || Exited? }

    predicate Launched() { InRun() || PastRun() }

    /** The backend holds control and may return. */
    predicate MayReturn() { Running? || CodeReturned? || PassReturned? }
  }

  datatype Attempt = Attempt(
    kind: Kind,
    maker: nat,                    // the request that made it
    phase: Phase,
    cancelled: bool,
    codeReq: bool,                 // closed?
    passReq: bool,                 // closed?
    url: Option<string>,           // urlCh, one place
    done: Option<RunResult>,       // done, one place
    sent: nat,
    received: nat,
    codeFrom: Option<nat>,
    passFrom: Option<nat>,
    shown: seq<string>)

  function NewAttempt(kind: Kind, maker: nat, phase: Phase): Attempt {
    Attempt(kind, maker, phase, false, false, false, None, None, 0, 0, None, None, [])
  }

  datatype Call =
    | StartLogin(phone: string)
    | SubmitCode(code: string)
    | SubmitPassword(password: string)
    | StartQR
    | Logout
  {
    predicate Starts() { StartLogin? || StartQR? }
    predicate Submits() { SubmitCode? || SubmitPassword? }
  }

  datatype Answer =
    | Succeeded
    | EmptyPhone
    | AlreadyInProgress
    | NoLoginInProgress(state: LoginState)
    | AttemptFailed(why: string)
    | PasswordNeeded
    | ContextError
    | TokenUrl(url: string)

  datatype Pc =
    | Start
    | Launching
    | Selecting
    | AwaitPrev(prev: nat)
    | Abandoning
    | Delivering(a: Option<nat>, d: Option<nat>)  // the authenticator and done it captured
    | Observing(a: Option<nat>, d: Option<nat>)
    | Answered(answer: Answer)

  /** `bound` is the generation the request made, or captured in its locked region. */
  datatype Request = Request(call: Call, ctxDone: bool, pc: Pc, bound: Option<nat>)

  datatype World = World(
    f: Rec,
    attempts: map<nat, Attempt>,
    requests: map<nat, Request>)

  const GENESIS := World(NEW_REC, map[], map[])

  datatype Event =
    // requests
    | Arrive(r: nat, call: Call)
    | CancelRequest(r: nat)
    | Enter(r: nat)                // the locked region
    | Launch(r: nat)               // the go statement
    | SeeCodeRequest(r: nat)
    | SeePassRequest(r: nat)
    | TakeUrl(r: nat)
    | TakeDone(r: nat)
    | TakeCtx(r: nat)
    | Abandon(r: nat)
    | Deliver(r: nat)              // codeCh or passCh: sender and receiver move together
    // attempt goroutines
    | AskCode(g: nat)
    | PublishCode(g: nat)
    | CloseCodeReq(g: nat)
    | CodeCancelled(g: nat)
    | AskPassword(g: nat)
    | PublishPass(g: nat)
    | ClosePassReq(g: nat)
    | PassCancelled(g: nat)
    | ShowToken(g: nat, url: string)
    | PutToken(g: nat)
    | RunReturns(g: nat, result: RunResult)
    | Finish(g: nat)
    | Send(g: nat)
  {
    predicate OfRequest() {
      || Arrive? || CancelRequest? || Enter? || Launch? || SeeCodeRequest? || SeePassRequest?
      || TakeUrl? || TakeDone? || TakeCtx? || Abandon? || Deliver?
    }
  }

  // ----- reading a world

  function At(w: World, r: nat): (pc: Pc)
    requires r in w.requests
  {
    w.requests[r].pc
  }

  /** The attempt a request made or captured, when there is one. */
  predicate Bound(w: World, r: nat) {
    r in w.requests && w.requests[r].bound.Some? && w.requests[r].bound.value in w.attempts
  }

  function Own(w: World, r: nat): Attempt
    requires Bound(w, r)
  {
    w.attempts[w.requests[r].bound.value]
  }

  /** The done channel a request is selecting on. */
  function DoneOf(q: Request): Option<nat> {
    match q.pc
    case Selecting => q.bound
    case AwaitPrev(p) => Some(p)
    case Delivering(_, d) => d
    case Observing(_, d) => d
    case _ => None
  }

  predicate In(w: World, g: nat, kind: Kind, phase: Phase) {
    g in w.attempts && w.attempts[g].kind == kind && w.attempts[g].phase == phase
  }

  // ----- writing a world

  function Move(w: World, g: nat, phase: Phase): World
    requires g in w.attempts
  {
    w.(attempts := w.attempts[g := w.attempts[g].(phase := phase)])
  }

  function Goto(w: World, r: nat, pc: Pc): World
    requires r in w.requests
  {
    w.(requests := w.requests[r := w.requests[r].(pc := pc)])
  }

  /** Calls the cancel function `c`, if there is one. */
  function CancelContext(attempts: map<nat, Attempt>, c: Option<nat>): map<nat, Attempt> {
    if c.Some? && c.value in attempts
    then attempts[c.value := attempts[c.value].(cancelled := true)]
    else attempts
  }

  /** A region that resets the record: it cancels the context the record holds. */
  function Disown(w: World, f: Rec): World {
    w.(f := f, attempts := CancelContext(w.attempts, w.f.cancel))
  }

  function DoEnter(w: World, r: nat): World
    requires r in w.requests
  {
    var q := w.requests[r];
    match q.call
    case StartLogin(phone) =>
      if phone == "" then Goto(w, r, Answered(EmptyPhone))
      else if w.f.inProgress then Goto(w, r, Answered(AlreadyInProgress))
      else
        var v := Disown(w, w.f.WinStartLogin());
        v.(attempts := v.attempts[v.f.gen := NewAttempt(CodeLogin, r, Ready)],
           requests := v.requests[r := q.(pc := Launching, bound := Some(v.f.gen))])
    case SubmitCode(_) =>
      if !w.f.state.WaitCode? then Goto(w, r, Answered(NoLoginInProgress(w.f.state)))
      else w.(requests := w.requests[r := q.(pc := Delivering(w.f.auth, w.f.done), bound := Some(w.f.gen))])
    case SubmitPassword(_) =>
      if !w.f.state.WaitPassword? then Goto(w, r, Answered(NoLoginInProgress(w.f.state)))
      else w.(requests := w.requests[r := q.(pc := Delivering(w.f.auth, w.f.done), bound := Some(w.f.gen))])
    case StartQR =>
      var waits := w.f.inProgress && w.f.done.Some?;
      var v := Disown(w, w.f.StartQR());
      v.(attempts := v.attempts[v.f.gen := NewAttempt(QrLogin, r, if waits then Waiting(w.f.done.value) else Ready)],
         requests := v.requests[r := q.(pc := if waits then AwaitPrev(w.f.done.value) else Launching,
                                        bound := Some(v.f.gen))])
    case Logout =>
      Goto(Disown(w, w.f.Logout()), r, Answered(Succeeded))
  }

  function DoTakeDone(w: World, r: nat): World
    requires Enabled(w, TakeDone(r))
  {
    var q := w.requests[r];
    var d := DoneOf(q).value;
    var got := w.attempts[d].done.value;
    var v := w.(attempts := w.attempts[d := w.attempts[d].(done := None, received := w.attempts[d].received + 1)]);
    match q.pc
    case AwaitPrev(_) => Goto(Move(v, q.bound.value, Ready), r, Launching)
    case _ =>
      Goto(v, r, Answered(match got
                          case Rejected(why) => AttemptFailed(why)
                          case Authorized => if q.call.StartQR? then TokenUrl("") else Succeeded))
  }

  function DoTakeCtx(w: World, r: nat): World
    requires Enabled(w, TakeCtx(r))
  {
    match w.requests[r].pc
    case Selecting => Goto(w, r, Abandoning)
    case AwaitPrev(_) => Goto(Move(w, w.requests[r].bound.value, Unlaunched), r, Abandoning)
    case _ => Goto(w, r, Answered(ContextError))
  }

  function DoAbandon(w: World, r: nat): World
    requires Enabled(w, Abandon(r))
  {
    var g := w.requests[r].bound.value;
    var v := if w.f.gen != g then w else Disown(w, w.f.Abandon(g));
    Goto(v, r, Answered(ContextError))
  }

  function DoDeliver(w: World, r: nat): World
    requires Enabled(w, Deliver(r))
  {
    var q := w.requests[r];
    var g := q.pc.a.value;
    var a := if q.call.SubmitCode? then w.attempts[g].(phase := CodeReturned(true), codeFrom := Some(r))
             else w.attempts[g].(phase := PassReturned(true), passFrom := Some(r));
    w.(attempts := w.attempts[g := a], requests := w.requests[r := q.(pc := Observing(q.pc.a, q.pc.d))])
  }

  function DoFinish(w: World, g: nat): World
    requires Enabled(w, Finish(g))
  {
    var result := w.attempts[g].phase.result;
    var v := if w.f.gen != g then w else Disown(w, w.f.Finish(g, result));
    Move(v, g, Recorded(result))
  }

  predicate Enabled(w: World, e: Event) {
    match e
    case Arrive(r, _) => r !in w.requests
    case CancelRequest(r) => r in w.requests
    case Enter(r) => r in w.requests && At(w, r).Start?
    case Launch(r) => Bound(w, r) && At(w, r).Launching?
    case SeeCodeRequest(r) =>
      Bound(w, r) && At(w, r).Selecting? && w.requests[r].call.StartLogin? && Own(w, r).codeReq
    case SeePassRequest(r) =>
      && r in w.requests && At(w, r).Observing? && w.requests[r].call.SubmitCode?
      && At(w, r).a.Some? && At(w, r).a.value in w.attempts && w.attempts[At(w, r).a.value].passReq
    case TakeUrl(r) =>
      Bound(w, r) && At(w, r).Selecting? && w.requests[r].call.StartQR? && Own(w, r).url.Some?
    case TakeDone(r) =>
      && Bound(w, r) && DoneOf(w.requests[r]).Some?
      && DoneOf(w.requests[r]).value in w.attempts && w.attempts[DoneOf(w.requests[r]).value].done.Some?
    case TakeCtx(r) =>
      && Bound(w, r) && w.requests[r].ctxDone
      && (At(w, r).Selecting? || At(w, r).AwaitPrev? || At(w, r).Delivering? || At(w, r).Observing?)
    case Abandon(r) => Bound(w, r) && At(w, r).Abandoning?
    case Deliver(r) =>
      && r in w.requests && At(w, r).Delivering? && At(w, r).a.Some?
      && (|| (w.requests[r].call.SubmitCode? && In(w, At(w, r).a.value, CodeLogin, CodeBlocked))
          || (w.requests[r].call.SubmitPassword? && In(w, At(w, r).a.value, CodeLogin, PassBlocked)))
    case AskCode(g) => In(w, g, CodeLogin, Running)
    case PublishCode(g) => In(w, g, CodeLogin, CodeEntered)
    case CloseCodeReq(g) => In(w, g, CodeLogin, CodePublished)
    case CodeCancelled(g) => In(w, g, CodeLogin, CodeBlocked) && w.attempts[g].cancelled
    case AskPassword(g) => In(w, g, CodeLogin, CodeReturned(true))
    case PublishPass(g) => In(w, g, CodeLogin, PassEntered)
    case ClosePassReq(g) => In(w, g, CodeLogin, PassPublished)
    case PassCancelled(g) => In(w, g, CodeLogin, PassBlocked) && w.attempts[g].cancelled
    case ShowToken(g, _) => In(w, g, QrLogin, Running) && !w.attempts[g].cancelled
    case PutToken(g) => g in w.attempts && w.attempts[g].phase.InToken?
    case RunReturns(g, _) => g in w.attempts && w.attempts[g].phase.MayReturn()
    case Finish(g) => g in w.attempts && w.attempts[g].phase.Returned?
    case Send(g) => g in w.attempts && w.attempts[g].phase.Recorded? && w.attempts[g].done.None?
  }

  function Apply(w: World, e: Event): World
    requires Enabled(w, e)
  {
    match e
    case Arrive(r, c) => w.(requests := w.requests[r := Request(c, false, Start, None)])
    case CancelRequest(r) => w.(requests := w.requests[r := w.requests[r].(ctxDone := true)])
    case Enter(r) => DoEnter(w, r)
    case Launch(r) => Goto(Move(w, w.requests[r].bound.value, Running), r, Selecting)
    case SeeCodeRequest(r) => Goto(w, r, Answered(Succeeded))
    case SeePassRequest(r) => Goto(w, r, Answered(PasswordNeeded))
    case TakeUrl(r) =>
      var g := w.requests[r].bound.value;
      Goto(w.(attempts := w.attempts[g := w.attempts[g].(url := None)]), r, Answered(TokenUrl(Own(w, r).url.value)))
    case TakeDone(r) => DoTakeDone(w, r)
    case TakeCtx(r) => DoTakeCtx(w, r)
    case Abandon(r) => DoAbandon(w, r)
    case Deliver(r) => DoDeliver(w, r)
    case AskCode(g) => Move(w, g, CodeEntered)
    case PublishCode(g) => Move(w, g, CodePublished).(f := w.f.Transition(g, WaitCode))
    case CloseCodeReq(g) =>
      w.(attempts := w.attempts[g := w.attempts[g].(phase := CodeBlocked, codeReq := true)])
    case CodeCancelled(g) => Move(w, g, CodeReturned(false))
    case AskPassword(g) => Move(w, g, PassEntered)
    case PublishPass(g) => Move(w, g, PassPublished).(f := w.f.Transition(g, WaitPassword))
    case ClosePassReq(g) =>
      w.(attempts := w.attempts[g := w.attempts[g].(phase := PassBlocked, passReq := true)])
    case PassCancelled(g) => Move(w, g, PassReturned(false))
    case ShowToken(g, u) =>
      var a := w.attempts[g];
      w.(attempts := w.attempts[g := a.(phase := InToken(u), shown := a.shown + [u])])
    case PutToken(g) =>
      var a := w.attempts[g];
      var kept := if a.url.Some? then a.url else Some(a.phase.shown);
      w.(attempts := w.attempts[g := a.(phase := Running, url := kept)])
    case RunReturns(g, result) => Move(w, g, Returned(result))
    case Finish(g) => DoFinish(w, g)
    case Send(g) =>
      var a := w.attempts[g];
      w.(attempts := w.attempts[g :=
           a.(phase := Exited(a.phase.result), done := Some(a.phase.result), sent := a.sent + 1)])
  }

  // ----- what an event leaves alone

  /** Only the regions write the record. */
  lemma RecordStays(w: World, e: Event)
    requires Enabled(w, e)
    requires !e.Enter? && !e.Abandon? && !e.PublishCode? && !e.PublishPass? && !e.Finish?
    ensures Apply(w, e).f == w.f
  {
  }

  /** Goroutines write no request. */
  lemma GoroutinesLeaveRequests(w: World, e: Event)
    requires Enabled(w, e) && !e.OfRequest()
    ensures Apply(w, e).requests == w.requests
  {
  }

  /** Only a request's own events write it, and only its region settles its generation. */
  lemma RequestStays(w: World, e: Event, r: nat)
    requires Enabled(w, e) && r in w.requests && e.OfRequest()
    ensures r in Apply(w, e).requests && Apply(w, e).requests[r].call == w.requests[r].call
    ensures e.r != r ==> Apply(w, e).requests[r] == w.requests[r]
    ensures e != Enter(r) ==> Apply(w, e).requests[r].bound == w.requests[r].bound
  {
  }

  /** The attempt whose goroutine takes the event, if it is an event of a goroutine. */
  function Actor(e: Event): Option<nat> {
    match e
    case AskCode(g) => Some(g)
    case PublishCode(g) => Some(g)
    case CloseCodeReq(g) => Some(g)
    case CodeCancelled(g) => Some(g)
    case AskPassword(g) => Some(g)
    case PublishPass(g) => Some(g)
    case ClosePassReq(g) => Some(g)
    case PassCancelled(g) => Some(g)
    case ShowToken(g, _) => Some(g)
    case PutToken(g) => Some(g)
    case RunReturns(g, _) => Some(g)
    case Finish(g) => Some(g)
    case Send(g) => Some(g)
    case _ => None
  }

  /** A goroutine writes its own attempt and no other, except that finishing cancels the context
      the record holds. */
  lemma OtherAttemptsStay(w: World, e: Event, g: nat)
    requires Enabled(w, e) && g in w.attempts && Actor(e).Some? && Actor(e).value != g
    requires w.attempts[g].cancelled
    ensures g in Apply(w, e).attempts && Apply(w, e).attempts[g] == w.attempts[g]
  {
  }

  // ----- runs

  ghost predicate Possible(es: seq<Event>)
    decreases |es|, 0
  {
    |es| == 0 || (Possible(es[..|es| - 1]) && Enabled(After(es[..|es| - 1]), es[|es| - 1]))
  }

  ghost function After(es: seq<Event>): World
    requires Possible(es)
    decreases |es|, 1
  {
    if |es| == 0 then GENESIS else Apply(After(es[..|es| - 1]), es[|es| - 1])
  }

  /** A prefix of a run is a run. */
  lemma {:induction false} PrefixPossible(es: seq<Event>, n: nat)
    requires Possible(es) && n <= |es|
    ensures Possible(es[..n])
    decreases |es|
  {
    if n < |es| {
      PrefixPossible(es[..|es| - 1], n);
      assert es[..|es| - 1][..n] == es[..n];
    } else {
      assert es[..n] == es;
    }
  }

  /** The event at position i of a run is enabled in the world before it and leads to the next. */
  lemma StepOfRun(es: seq<Event>, i: nat)
    requires Possible(es) && i < |es|
    ensures Possible(es[..i]) && Possible(es[..i + 1])
    ensures Enabled(After(es[..i]), es[i]) && After(es[..i + 1]) == Apply(After(es[..i]), es[i])
  {
    PrefixPossible(es, i + 1);
    var upto := es[..i + 1];
    assert upto[..|upto| - 1] == es[..i] && upto[|upto| - 1] == es[i];
  }
}
