/** What the login protocol guarantees in every run, under every interleaving. */
module LoginTheorems {
  import opened Options
  import opened LoginFlow
  import opened LoginProtocol
  import opened LoginInvariant
  import opened LoginSpec

  // ----- simulation

  function Abs(w: World): Spec {
    Spec(w.f.state,
         if w.f.inProgress then Some(if w.f.auth.Some? then CodeLogin else QrLogin) else None)
  }

  /** The specification's reading of an event. */
  function ActionOf(w: World, e: Event): Action
    requires Enabled(w, e)
  {
    match e
    case Enter(r) =>
      (match w.requests[r].call
       case StartLogin(phone) => if phone == "" || w.f.inProgress then Stutter else BeginCode
       case StartQR => BeginQr
       case Logout => Reset
       case _ => Stutter)
    case Abandon(r) => if w.requests[r].bound == Some(w.f.gen) then Reset else Stutter
    case PublishCode(g) => if g == w.f.gen then NeedCode else Stutter
    case PublishPass(g) => if g == w.f.gen then NeedPassword else Stutter
    case Finish(g) =>
      if g != w.f.gen then Stutter
      else if w.attempts[g].phase.result.Authorized? then Succeed else Fail
    case _ => Stutter
  }

  /** Event e is the specification's step it is read as, and a stutter touches no field. */
  predicate Refines(w: World, e: Event)
    requires Enabled(w, e)
  {
    var v := Apply(w, e);
    && Allowed(Abs(w), ActionOf(w, e))
    && Abs(v) == Act(Abs(w), ActionOf(w, e))
    && (ActionOf(w, e).Stutter? ==> v.f == w.f)
  }

  lemma EntryRefines(w: World, r: nat)
    requires Inv(w) && Enabled(w, Enter(r))
    ensures Refines(w, Enter(r))
  {
  }

  lemma AbandonRefines(w: World, r: nat)
    requires Inv(w) && Enabled(w, Abandon(r))
    ensures Refines(w, Abandon(r))
  {
  }

  lemma PublicationRefines(w: World, g: nat)
    requires Inv(w) && g in w.attempts
    ensures Enabled(w, PublishCode(g)) ==> Refines(w, PublishCode(g))
    ensures Enabled(w, PublishPass(g)) ==> Refines(w, PublishPass(g))
  {
    assert AttemptOK(w, g);
  }

  lemma FinishRefines(w: World, g: nat)
    requires Inv(w) && Enabled(w, Finish(g))
    ensures Refines(w, Finish(g))
  {
    assert AttemptOK(w, g);
  }

  lemma StepRefines(w: World, e: Event)
    requires Inv(w) && Enabled(w, e)
    ensures Refines(w, e)
  {
    if e.Enter? {
      EntryRefines(w, e.r);
    } else if e.Abandon? {
      AbandonRefines(w, e.r);
    } else if e.PublishCode? || e.PublishPass? {
      PublicationRefines(w, e.g);
    } else if e.Finish? {
      FinishRefines(w, e.g);
    } else {
      RecordStays(w, e);
    }
  }

  ghost function Actions(es: seq<Event>): (acts: seq<Action>)
    requires Possible(es)
    ensures |acts| == |es|
    decreases |es|
  {
    if |es| == 0 then []
    else Actions(es[..|es| - 1]) + [ActionOf(After(es[..|es| - 1]), es[|es| - 1])]
  }

  /** Forward simulation: every run of the protocol is a run of the four-state machine. */
  lemma {:induction false} Simulation(es: seq<Event>)
    requires Possible(es)
    ensures Legal(Actions(es)) && Outcome(Actions(es)) == Abs(After(es))
    decreases |es|
  {
    if |es| > 0 {
      var before := es[..|es| - 1];
      Simulation(before);
      Always(before);
      StepRefines(After(before), es[|es| - 1]);
      assert Actions(es)[..|es| - 1] == Actions(before);
    }
  }

  /** Nothing a superseded goroutine still does changes any field of the record. */
  lemma SupersededIsSilent(es: seq<Event>, e: Event)
    requires Possible(es) && Enabled(After(es), e)
    requires Actor(e).Some? && Actor(e).value != After(es).f.gen
    ensures Apply(After(es), e).f == After(es).f
  {
    Always(es);
    StepRefines(After(es), e);
  }

  // ----- building runs

  /** Lengthens a run by one event. */
  lemma Extend(es: seq<Event>, e: Event)
    requires Possible(es) && Enabled(After(es), e)
    ensures Possible(es + [e]) && After(es + [e]) == Apply(After(es), e)
  {
    assert (es + [e])[..|es + [e]| - 1] == es;
  }

  /** A run in which request r has started a code login, which is running. */
  lemma Begun(r: nat) returns (es: seq<Event>)
    ensures Possible(es)
    ensures After(es) ==
            World(NEW_REC.WinStartLogin(),
                  map[1 := NewAttempt(CodeLogin, r, Running)],
                  map[r := Request(StartLogin("+1"), false, Selecting, Some(1))])
  {
    es := [];
    Extend(es, Arrive(r, StartLogin("+1")));
    es := es + [Arrive(r, StartLogin("+1"))];
    Extend(es, Enter(r));
    es := es + [Enter(r)];
    Extend(es, Launch(r));
    es := es + [Launch(r)];
  }

  // ----- waiting states, captures and answers

  /** The per-attempt fields are set together, for the attempt that is in progress, and there is an
      authenticator exactly when that attempt is a code login. */
  lemma FieldsGoTogether(es: seq<Event>)
    requires Possible(es)
    ensures var f := After(es).f;
            && (f.inProgress <==> f.cancel.Some?) && (f.inProgress <==> f.done.Some?)
            && (f.inProgress ==>
                  && f.cancel == f.done == Some(f.gen) && f.gen in After(es).attempts
                  && f.auth == if After(es).attempts[f.gen].kind.CodeLogin? then Some(f.gen) else None)
            && (!f.inProgress ==> f.auth.None?)
  {
    Always(es);
    if After(es).f.inProgress {
      assert AttemptOK(After(es), After(es).f.gen);
    }
  }

  /** A published waiting state belongs to a code attempt that is in progress, has passed the
      request the state stands for and has not recorded its result. */
  lemma WaitingStates(es: seq<Event>)
    requires Possible(es) && (After(es).f.state.WaitCode? || After(es).f.state.WaitPassword?)
    ensures var w := After(es);
            && w.f.inProgress && w.f.cancel == w.f.auth == w.f.done == Some(w.f.gen)
            && w.f.gen in w.attempts && w.attempts[w.f.gen].kind.CodeLogin? && !w.attempts[w.f.gen].cancelled
            && var a := w.attempts[w.f.gen];
               if w.f.state.WaitCode?
               then a.phase.CodePublished? || (a.codeReq && (a.phase.Returned? || (a.phase.InRun() && !a.passReq)))
               else a.phase.PassPublished? || (a.passReq && (a.phase.Returned? || a.phase.InRun()))
  {
    Always(es);
    assert AttemptOK(After(es), After(es).f.gen);
  }

  /** A code or a password is only waited for in a run in which the attempt that is current now has
      asked for a code, and has been current ever since. */
  lemma {:induction false} CodeAskedFirst(es: seq<Event>) returns (i: nat)
    requires Possible(es) && (After(es).f.state.WaitCode? || After(es).f.state.WaitPassword?)
    ensures i < |es| && es[i] == PublishCode(After(es).f.gen)
    ensures forall j | i <= j <= |es| :: Possible(es[..j]) && After(es[..j]).f.gen == After(es).f.gen
    decreases |es|
  {
    var n := |es| - 1;
    var before := es[..n];
    Always(before);
    StepRefines(After(before), es[n]);
    assert es[..|es|] == es;
    if ActionOf(After(before), es[n]).NeedCode? {
      i := n;
    } else {
      i := CodeAskedFirst(before);
      assert before[i] == es[i];
      forall j | i <= j <= |es|
        ensures Possible(es[..j]) && After(es[..j]).f.gen == After(es).f.gen
      {
        if j <= n {
          assert before[..j] == es[..j];
        }
      }
    }
  }

  /** No Submit call ever holds a nil authenticator or a nil done: it holds those of the one code
      attempt that was current when it looked. */
  lemma NoNilCapture(es: seq<Event>, r: nat)
    requires Possible(es) && r in After(es).requests
    requires At(After(es), r).Delivering? || At(After(es), r).Observing?
    ensures var w := After(es);
            && w.requests[r].call.Submits() && Bound(w, r) && Own(w, r).kind.CodeLogin?
            && At(w, r).a == At(w, r).d == w.requests[r].bound
  {
    Always(es);
    assert RequestOK(After(es), r);
  }

  /** Answers are honest: success, failure, the request for a password and a url mean what they say
      of the attempt the call was bound to.  A url is the first one its backend showed, and none
      means that the login has succeeded without one.  A call that gave up has its context ended,
      and if it had started an attempt, that attempt is cancelled. */
  lemma HonestAnswers(es: seq<Event>, r: nat)
    requires Possible(es) && r in After(es).requests && At(After(es), r).Answered?
    requires !After(es).requests[r].call.Logout?
    ensures var w := After(es);
            match At(w, r).answer {
              case Succeeded =>
                && Bound(w, r)
                && (|| Own(w, r).phase == Exited(Authorized)
                    || (w.requests[r].call.StartLogin? && Own(w, r).codeReq))
              case AttemptFailed(why) => Bound(w, r) && Own(w, r).phase == Exited(Rejected(why))
              case PasswordNeeded => w.requests[r].call.SubmitCode? && Bound(w, r) && Own(w, r).passReq
              case TokenUrl(u) =>
                && w.requests[r].call.StartQR? && Bound(w, r)
                && (|| (|Own(w, r).shown| > 0 && u == Own(w, r).shown[0])
                    || (u == "" && Own(w, r).phase == Exited(Authorized)))
              case ContextError =>
                w.requests[r].ctxDone && Bound(w, r) && (w.requests[r].call.Starts() ==> Own(w, r).cancelled)
              case EmptyPhone => w.requests[r].call == StartLogin("")
              case AlreadyInProgress => w.requests[r].call.StartLogin? && w.requests[r].bound.None?
              case NoLoginInProgress(_) => w.requests[r].call.Submits() && w.requests[r].bound.None?
            }
  {
    Always(es);
    assert RequestOK(After(es), r);
  }

  /** The record gives a call reason to be refused so. */
  predicate Refuses(w: World, call: Call, answer: Answer) {
    match answer
    case EmptyPhone => call == StartLogin("")
    case AlreadyInProgress => call.StartLogin? && call.phone != "" && w.f.inProgress
    case NoLoginInProgress(st) =>
      && w.f.state == st
      && ((call.SubmitCode? && !st.WaitCode?) || (call.SubmitPassword? && !st.WaitPassword?))
    case _ => false
  }

  predicate IsRefusal(answer: Answer) {
    answer.EmptyPhone? || answer.AlreadyInProgress? || answer.NoLoginInProgress?
  }

  lemma RefusalStep(w: World, e: Event, r: nat)
    requires Inv(w) && Enabled(w, e) && r in Apply(w, e).requests
    requires At(Apply(w, e), r).Answered? && IsRefusal(At(Apply(w, e), r).answer)
    ensures var q := Apply(w, e).requests[r];
            && r in w.requests && q.call == w.requests[r].call
            && (q.pc == At(w, r) || (e == Enter(r) && Refuses(w, q.call, q.pc.answer)))
  {
    if !e.OfRequest() {
      GoroutinesLeaveRequests(w, e);
    } else if r in w.requests {
      assert RequestOK(w, r);
      RequestStays(w, e, r);
    }
  }

  /** A refusal tells the truth about the moment the call looked: a login was in progress, or the
      state was the one it names and not the one the call needs. */
  lemma {:induction false} RefusedOnEntry(es: seq<Event>, r: nat) returns (i: nat)
    requires Possible(es) && r in After(es).requests && At(After(es), r).Answered?
    requires IsRefusal(At(After(es), r).answer)
    ensures i < |es| && es[i] == Enter(r) && Possible(es[..i])
    ensures Refuses(After(es[..i]), After(es).requests[r].call, At(After(es), r).answer)
    decreases |es|
  {
    var n := |es| - 1;
    var before := es[..n];
    Always(before);
    RefusalStep(After(before), es[n], r);
    if At(After(before), r) == At(After(es), r) {
      i := RefusedOnEntry(before, r);
      assert before[..i] == es[..i] && before[i] == es[i];
    } else {
      i := n;
    }
  }

  // ----- channels and goroutines

  /** A done channel is sent on at most once and the send never blocks. */
  lemma DoneOnce(es: seq<Event>, g: nat)
    requires Possible(es) && g in After(es).attempts
    ensures var a := After(es).attempts[g];
            && a.sent == a.received + (if a.done.Some? then 1 else 0) <= 1
            && (a.phase.Recorded? ==> Enabled(After(es), Send(g)))
            && (a.sent == 1 <==> a.phase.Exited?)
  {
    Always(es);
    assert AttemptOK(After(es), g);
  }

  /** An attempt's context is live exactly while it is the current attempt and in progress, and
      then its goroutine has not recorded its result or its caller is on the way to it. */
  lemma Supersession(es: seq<Event>, g: nat)
    requires Possible(es) && g in After(es).attempts
    ensures var w := After(es);
            var a := w.attempts[g];
            && (!a.cancelled <==> g == w.f.gen && w.f.inProgress)
            && (!a.cancelled ==>
                  || a.phase.InRun() || a.phase.Returned?
                  || (&& a.maker in w.requests && w.requests[a.maker].bound == Some(g)
                      && (|| (a.phase.Ready? && At(w, a.maker).Launching?)
                          || (a.phase.Waiting? && a.phase.prev == g - 1 && At(w, a.maker) == AwaitPrev(g - 1))
                          || (a.phase.Unlaunched? && At(w, a.maker).Abandoning?))))
  {
    Always(es);
    assert AttemptOK(After(es), g);
  }

  /** How far a goroutine can still be from its exit once its context is cancelled. */
  function Rank(p: Phase): nat {
    match p
    case InToken(_) => 12
    case Running => 11
    case CodeEntered => 10
    case CodePublished => 9
    case CodeBlocked => 8
    case CodeReturned(_) => 7
    case PassEntered => 6
    case PassPublished => 5
    case PassBlocked => 4
    case PassReturned(_) => 3
    case Returned(_) => 2
    case Recorded(_) => 1
    case _ => 0
  }

  /** Event e is a move of g's goroutine; a delivered code or password moves it too. */
  predicate Moves(w: World, e: Event, g: nat) {
    || Actor(e) == Some(g)
    || (e.Deliver? && e.r in w.requests && At(w, e.r).Delivering? && At(w, e.r).a == Some(g))
  }

  predicate Doomed(w: World, g: nat) {
    g in w.attempts && w.attempts[g].cancelled && w.attempts[g].phase.Launched()
  }

  /** Every move of a cancelled goroutine brings it closer to its exit, nothing anyone else does
      takes it further away, and it stays cancelled. */
  predicate Closer(w: World, e: Event, g: nat)
    requires Enabled(w, e) && g in w.attempts
  {
    var v := Apply(w, e);
    && Doomed(v, g)
    && Rank(v.attempts[g].phase) <= Rank(w.attempts[g].phase) - (if Moves(w, e, g) then 1 else 0)
  }

  lemma OwnMovesCloser(w: World, e: Event, g: nat)
    requires Enabled(w, e) && Doomed(w, g) && Actor(e) == Some(g)
    ensures Closer(w, e, g)
  {
  }

  lemma RegionsKeepDistance(w: World, e: Event, g: nat)
    requires Inv(w) && Enabled(w, e) && Doomed(w, g) && (e.Enter? || e.Abandon? || e.Launch?)
    ensures Closer(w, e, g)
  {
    assert AttemptOK(w, g) && RequestOK(w, e.r);
  }

  lemma TakingKeepsDistance(w: World, e: Event, g: nat)
    requires Inv(w) && Enabled(w, e) && Doomed(w, g) && (e.TakeDone? || e.TakeUrl?)
    ensures Closer(w, e, g)
  {
    assert RequestOK(w, e.r);
  }

  lemma ChannelsKeepDistance(w: World, e: Event, g: nat)
    requires Inv(w) && Enabled(w, e) && Doomed(w, g) && (e.TakeCtx? || e.Deliver?)
    ensures Closer(w, e, g)
  {
    assert RequestOK(w, e.r);
  }

  lemma DoomedGetsCloser(w: World, e: Event, g: nat)
    requires Inv(w) && Enabled(w, e) && Doomed(w, g)
    ensures Closer(w, e, g)
  {
    if Actor(e) == Some(g) {
      OwnMovesCloser(w, e, g);
    } else if Actor(e).Some? {
      OtherAttemptsStay(w, e, g);
    } else if e.Enter? || e.Abandon? || e.Launch? {
      RegionsKeepDistance(w, e, g);
    } else if e.TakeDone? || e.TakeUrl? {
      TakingKeepsDistance(w, e, g);
    } else if e.TakeCtx? || e.Deliver? {
      ChannelsKeepDistance(w, e, g);
    }
  }

  ghost function MovesOf(es: seq<Event>, from: nat, g: nat): nat
    requires Possible(es) && from <= |es|
    decreases |es|
  {
    if |es| == from then 0
    else
      MovesOf(es[..|es| - 1], from, g) + (if Moves(After(es[..|es| - 1]), es[|es| - 1], g) then 1 else 0)
  }

  /** In any run whatsoever, a goroutine cancelled at some point moves only boundedly often after. */
  lemma {:induction false} DoomedMovesAreFew(es: seq<Event>, from: nat, g: nat)
    requires Possible(es) && from <= |es| && Possible(es[..from]) && Doomed(After(es[..from]), g)
    ensures Doomed(After(es), g)
    ensures MovesOf(es, from, g) + Rank(After(es).attempts[g].phase) <= Rank(After(es[..from]).attempts[g].phase)
    decreases |es|
  {
    if |es| == from {
      assert es[..from] == es;
    } else {
      var before := es[..|es| - 1];
      assert before[..from] == es[..from];
      DoomedMovesAreFew(before, from, g);
      Always(before);
      DoomedGetsCloser(After(before), es[|es| - 1], g);
    }
  }

  /** The move a cancelled goroutine can always make without anyone's help. */
  function OwnMove(w: World, g: nat): Event
    requires g in w.attempts
  {
    match w.attempts[g].phase
    case CodeEntered => PublishCode(g)
    case CodePublished => CloseCodeReq(g)
    case CodeBlocked => CodeCancelled(g)
    case PassEntered => PublishPass(g)
    case PassPublished => ClosePassReq(g)
    case PassBlocked => PassCancelled(g)
    case InToken(_) => PutToken(g)
    case Returned(_) => Finish(g)
    case Recorded(_) => Send(g)
    case _ => RunReturns(g, Rejected("context canceled"))
  }

  lemma OwnMoveEnabled(w: World, g: nat)
    requires Inv(w) && Doomed(w, g) && !w.attempts[g].phase.Exited?
    ensures Enabled(w, OwnMove(w, g)) && Actor(OwnMove(w, g)) == Some(g)
  {
    assert AttemptOK(w, g);
  }

  lemma DoomedStep(es: seq<Event>, g: nat) returns (e: Event)
    requires Possible(es) && Doomed(After(es), g) && !After(es).attempts[g].phase.Exited?
    ensures Actor(e) == Some(g) && Possible(es + [e]) && Doomed(After(es + [e]), g)
    ensures Rank(After(es + [e]).attempts[g].phase) < Rank(After(es).attempts[g].phase)
  {
    Always(es);
    e := OwnMove(After(es), g);
    OwnMoveEnabled(After(es), g);
    Extend(es, e);
    DoomedGetsCloser(After(es), e, g);
  }

  /** No goroutine leaks: from any reachable world, a launched attempt whose context is cancelled
      reaches its exit by moves of its own alone, at most twelve of them. */
  lemma {:induction false} DoomedCanExit(es: seq<Event>, g: nat) returns (tail: seq<Event>)
    requires Possible(es) && Doomed(After(es), g)
    ensures Possible(es + tail) && g in After(es + tail).attempts && After(es + tail).attempts[g].phase.Exited?
    ensures |tail| <= Rank(After(es).attempts[g].phase) <= 12
    ensures forall e | e in tail :: Actor(e) == Some(g)
    decreases Rank(After(es).attempts[g].phase)
  {
    if After(es).attempts[g].phase.Exited? {
      tail := [];
      assert es + tail == es;
    } else {
      var e := DoomedStep(es, g);
      var rest := DoomedCanExit(es + [e], g);
      tail := [e] + rest;
      assert es + [e] + rest == es + tail;
    }
  }

  // ----- provenance

  /** A request's generation was settled in its locked region, at a moment when the record fitted. */
  predicate Settles(w: World, r: nat, g: nat, call: Call) {
    && r in w.requests && w.requests[r].call == call
    && match call {
         case SubmitCode(_) => w.f.state.WaitCode? && w.f.gen == g
         case SubmitPassword(_) => w.f.state.WaitPassword? && w.f.gen == g
         case StartLogin(_) => !w.f.inProgress && w.f.gen + 1 == g
         case StartQR => w.f.gen + 1 == g
         case Logout => false
       }
  }

  lemma EntrySettles(w: World, r: nat)
    requires Enabled(w, Enter(r)) && Apply(w, Enter(r)).requests[r].bound.Some?
    requires w.requests[r].bound.None?
    ensures Settles(w, r, Apply(w, Enter(r)).requests[r].bound.value, w.requests[r].call)
  {
  }

  /** One event: the generation was settled before, or is settled now. */
  lemma BoundStep(w: World, e: Event, r: nat)
    requires Inv(w) && Enabled(w, e) && r in Apply(w, e).requests && Apply(w, e).requests[r].bound.Some?
    ensures var q := Apply(w, e).requests[r];
            if r in w.requests && w.requests[r].bound.Some?
            then w.requests[r].bound == q.bound && w.requests[r].call == q.call
            else e == Enter(r) && Settles(w, r, q.bound.value, q.call)
  {
    if !e.OfRequest() {
      GoroutinesLeaveRequests(w, e);
    } else if r in w.requests {
      assert RequestOK(w, r);
      RequestStays(w, e, r);
      if e == Enter(r) {
        EntrySettles(w, r);
      }
    }
  }

  lemma {:induction false} BoundOnEntry(es: seq<Event>, r: nat) returns (i: nat)
    requires Possible(es) && r in After(es).requests && After(es).requests[r].bound.Some?
    ensures i < |es| && es[i] == Enter(r) && Possible(es[..i])
    ensures Settles(After(es[..i]), r, After(es).requests[r].bound.value, After(es).requests[r].call)
    decreases |es|
  {
    var n := |es| - 1;
    var before := es[..n];
    Always(before);
    BoundStep(After(before), es[n], r);
    if r in After(before).requests && After(before).requests[r].bound.Some? {
      i := BoundOnEntry(before, r);
      assert before[..i] == es[..i] && before[i] == es[i];
    } else {
      i := n;
    }
  }

  /** A code an attempt received came from a SubmitCode call that found this very attempt current
      and waiting for a code, and no other attempt received it. */
  lemma CodeProvenance(es: seq<Event>, g: nat) returns (i: nat)
    requires Possible(es) && g in After(es).attempts && After(es).attempts[g].codeFrom.Some?
    ensures var w := After(es);
            var r := w.attempts[g].codeFrom.value;
            && r in w.requests && w.requests[r].call.SubmitCode?
            && i < |es| && es[i] == Enter(r) && Possible(es[..i])
            && Settles(After(es[..i]), r, g, w.requests[r].call)
            && forall h | h in w.attempts && w.attempts[h].codeFrom == Some(r) :: h == g
  {
    var w := After(es);
    Always(es);
    assert AttemptOK(w, g);
    i := BoundOnEntry(es, w.attempts[g].codeFrom.value);
    forall h | h in w.attempts && w.attempts[h].codeFrom == w.attempts[g].codeFrom
      ensures h == g
    {
      assert AttemptOK(w, h);
    }
  }

  lemma PasswordProvenance(es: seq<Event>, g: nat) returns (i: nat)
    requires Possible(es) && g in After(es).attempts && After(es).attempts[g].passFrom.Some?
    ensures var w := After(es);
            var r := w.attempts[g].passFrom.value;
            && r in w.requests && w.requests[r].call.SubmitPassword?
            && i < |es| && es[i] == Enter(r) && Possible(es[..i])
            && Settles(After(es[..i]), r, g, w.requests[r].call)
            && forall h | h in w.attempts && w.attempts[h].passFrom == Some(r) :: h == g
  {
    var w := After(es);
    Always(es);
    assert AttemptOK(w, g);
    i := BoundOnEntry(es, w.attempts[g].passFrom.value);
    forall h | h in w.attempts && w.attempts[h].passFrom == w.attempts[g].passFrom
      ensures h == g
    {
      assert AttemptOK(w, h);
    }
  }

  /** Logged in means: some attempt, current at that moment, finished its run with nil, and the
      state has been logged_in ever since. */
  lemma {:induction false} LoggedInByFinishing(es: seq<Event>) returns (i: nat)
    requires Possible(es) && After(es).f.state.LoggedIn?
    ensures i < |es| && Possible(es[..i])
    ensures var w := After(es[..i]);
            && es[i] == Finish(w.f.gen) && w.f.gen in w.attempts && w.attempts[w.f.gen].phase == Returned(Authorized)
    ensures forall j | i < j <= |es| :: Possible(es[..j]) && After(es[..j]).f.state.LoggedIn?
    decreases |es|
  {
    var n := |es| - 1;
    var before := es[..n];
    Always(before);
    StepRefines(After(before), es[n]);
    assert es[..|es|] == es;
    if After(before).f.state.LoggedIn? {
      i := LoggedInByFinishing(before);
      assert before[..i] == es[..i] && before[i] == es[i];
      forall j | i < j <= |es|
        ensures Possible(es[..j]) && After(es[..j]).f.state.LoggedIn?
      {
        if j <= n {
          assert before[..j] == es[..j];
        }
      }
    } else {
      i := n;
    }
  }

  // ----- StartLogin excludes StartLogin

  predicate Wins(w: World, e: Event) {
    && e.Enter? && Enabled(w, e)
    && w.requests[e.r].call.StartLogin? && w.requests[e.r].call.phone != "" && !w.f.inProgress
  }

  /** A call's generation, once settled, is settled for good. */
  lemma {:induction false} BoundLasts(es: seq<Event>, i: nat, r: nat)
    requires Possible(es) && i <= |es| && Possible(es[..i])
    requires r in After(es[..i]).requests && After(es[..i]).requests[r].bound.Some?
    ensures r in After(es).requests && After(es).requests[r].bound == After(es[..i]).requests[r].bound
    decreases |es|
  {
    if i == |es| {
      assert es[..i] == es;
    } else {
      var before := es[..|es| - 1];
      assert before[..i] == es[..i];
      BoundLasts(before, i, r);
      Always(before);
      BoundKept(After(before), es[|es| - 1], r);
    }
  }

  lemma BoundKept(w: World, e: Event, r: nat)
    requires Inv(w) && Enabled(w, e) && r in w.requests && w.requests[r].bound.Some?
    ensures r in Apply(w, e).requests && Apply(w, e).requests[r].bound == w.requests[r].bound
  {
    assert RequestOK(w, r);
    if !e.OfRequest() {
      GoroutinesLeaveRequests(w, e);
    } else {
      RequestStays(w, e, r);
    }
  }

  lemma ArrivesOrStays(w: World, e: Event)
    requires Enabled(w, e) && e.OfRequest()
    ensures e.r in Apply(w, e).requests
  {
    if e.r in w.requests {
      RequestStays(w, e, e.r);
    }
  }

  /** A StartLogin turned away in the end was not bound to an attempt before. */
  lemma NeverBound(es: seq<Event>, i: nat, r: nat)
    requires Possible(es) && i <= |es| && Possible(es[..i])
    requires r in After(es).requests && After(es).requests[r].call.StartLogin?
    requires At(After(es), r) == Answered(AlreadyInProgress) || At(After(es), r) == Answered(EmptyPhone)
    requires r in After(es[..i]).requests
    ensures After(es[..i]).requests[r].bound.None?
  {
    Always(es);
    assert RequestOK(After(es), r);
    if After(es[..i]).requests[r].bound.Some? {
      BoundLasts(es, i, r);
    }
  }

  /** An event of a StartLogin that leaves it unbound touches neither record nor attempts. */
  lemma TurnedAway(w: World, e: Event)
    requires Inv(w) && Enabled(w, e) && e.OfRequest() && e.r in Apply(w, e).requests
    requires Apply(w, e).requests[e.r].call.StartLogin? && Apply(w, e).requests[e.r].bound.None?
    ensures Apply(w, e).f == w.f && Apply(w, e).attempts == w.attempts
  {
    if e.r in w.requests {
      assert RequestOK(w, e.r);
      RequestStays(w, e, e.r);
    }
  }

  /** A StartLogin that has been turned away has changed nothing: none of its events, whenever they
      came, touched the record or any attempt. */
  lemma LosersChangeNothing(es: seq<Event>, r: nat, i: nat)
    requires Possible(es) && r in After(es).requests && After(es).requests[r].call.StartLogin?
    requires At(After(es), r) == Answered(AlreadyInProgress) || At(After(es), r) == Answered(EmptyPhone)
    requires i < |es| && es[i].OfRequest() && es[i].r == r
    ensures Possible(es[..i]) && Possible(es[..i + 1])
    ensures After(es[..i + 1]).f == After(es[..i]).f && After(es[..i + 1]).attempts == After(es[..i]).attempts
  {
    StepOfRun(es, i);
    Always(es[..i]);
    ArrivesOrStays(After(es[..i]), es[i]);
    CallLasts(es, i + 1, r);
    NeverBound(es, i + 1, r);
    TurnedAway(After(es[..i]), es[i]);
  }

  lemma {:induction false} CallLasts(es: seq<Event>, i: nat, r: nat)
    requires Possible(es) && i <= |es| && Possible(es[..i]) && r in After(es[..i]).requests
    ensures r in After(es).requests && After(es).requests[r].call == After(es[..i]).requests[r].call
    decreases |es|
  {
    if i == |es| {
      assert es[..i] == es;
    } else {
      var before := es[..|es| - 1];
      assert before[..i] == es[..i];
      CallLasts(before, i, r);
      var e := es[|es| - 1];
      if e.OfRequest() {
        RequestStays(After(before), e, r);
      } else {
        GoroutinesLeaveRequests(After(before), e);
      }
    }
  }

  /** The event ends the turn of g: it records its result, or takes the record away from it. */
  predicate Releases(w: World, e: Event, g: nat) {
    && w.f.gen == g && w.f.inProgress && Enabled(w, e)
    && (|| e == Finish(g)
        || (e.Enter? && (w.requests[e.r].call.Logout? || w.requests[e.r].call.StartQR?))
        || (e.Abandon? && w.requests[e.r].bound == Some(g)))
  }

  lemma TurnLasts(w: World, e: Event, g: nat)
    requires Inv(w) && Enabled(w, e) && w.f.gen == g && w.f.inProgress && !Releases(w, e, g)
    ensures Apply(w, e).f.gen == g && Apply(w, e).f.inProgress
  {
    StepRefines(w, e);
  }

  /** Two StartLogin calls never both win unless the first one's attempt was released between. */
  lemma {:induction false} OneWinnerAtATime(es: seq<Event>, i: nat, j: nat) returns (k: nat)
    requires Possible(es) && i < j < |es|
    requires Possible(es[..i]) && Wins(After(es[..i]), es[i])
    requires Possible(es[..j]) && Wins(After(es[..j]), es[j])
    ensures i < k < j && Possible(es[..k]) && Releases(After(es[..k]), es[k], After(es[..i]).f.gen + 1)
  {
    var g := After(es[..i]).f.gen + 1;
    StepOfRun(es, i);
    k := i + 1;
    while !Releases(After(es[..k]), es[k], g)
      invariant i < k < |es| && k <= j && Possible(es[..k])
      invariant After(es[..k]).f.gen == g && After(es[..k]).f.inProgress
      decreases j - k
    {
      StepOfRun(es, k);
      Always(es[..k]);
      TurnLasts(After(es[..k]), es[k], g);
      k := k + 1;
    }
  }

  // ----- where the protocol does less than its comments say

  /** finishAttempt leaves gen alone, so a StartLogin that is cancelled late takes a login that
      has already succeeded back to logged_out. */
  lemma AbandonUndoesLogin() returns (es: seq<Event>)
    ensures Possible(es) && After(es).f.state.LoggedIn? && Enabled(After(es), Abandon(0))
    ensures Apply(After(es), Abandon(0)).f.state.LoggedOut?
  {
    es := Begun(0);
    Extend(es, RunReturns(1, Authorized));
    es := es + [RunReturns(1, Authorized)];
    Extend(es, Finish(1));
    es := es + [Finish(1)];
    es := TooLate(es, 0);
  }

  /** Exactly when it does: the attempt it made is still the last one made, finished or not. */
  lemma AbandonUndoesIff(es: seq<Event>, r: nat)
    requires Possible(es) && After(es).f.state.LoggedIn? && Enabled(After(es), Abandon(r))
    ensures var w, v := After(es), Apply(After(es), Abandon(r));
            && (v.f.state.LoggedOut? <==> w.requests[r].bound == Some(w.f.gen))
            && (v.f.state.LoggedIn? <==> v.f == w.f)
  {
    Always(es);
    StepRefines(After(es), Abandon(r));
  }

  /** A selecting request's context ends, and it takes that arm. */
  lemma TooLate(es: seq<Event>, r: nat) returns (more: seq<Event>)
    requires Possible(es) && Bound(After(es), r) && At(After(es), r).Selecting?
    ensures Possible(more) && After(more).f == After(es).f && After(more).attempts == After(es).attempts
    ensures After(more).requests == After(es).requests[r := After(es).requests[r].(ctxDone := true, pc := Abandoning)]
  {
    more := es;
    Extend(more, CancelRequest(r));
    more := more + [CancelRequest(r)];
    Extend(more, TakeCtx(r));
    more := more + [TakeCtx(r)];
  }
}
